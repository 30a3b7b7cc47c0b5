/**
  Argument vectors as the shell keeps them: a fixed array of `char *` slots
  whose logical content runs up to the first NULL. Searching it
  (`find_index`) and cutting it in place (`truncate_argument_list`,
  `split_argument_list`).
 */
module Argv {
  import opened Defs

  /** The argument list that a `char **` pointing at slot `off` denotes: the
      strings in the slots from `off` up to (not including) the first NULL. */
  function ArgsAt(a: seq<CStr>, off: nat): (r: seq<string>)
    requires off <= |a|
    ensures off + |r| <= |a|
    ensures forall j :: 0 <= j < |r| ==> a[off + j] == Str(r[j])
    ensures off + |r| == |a| || a[off + |r|] == Null
    decreases |a| - off
  {
    if off == |a| || a[off].Null? then [] else [a[off].text] + ArgsAt(a, off + 1)
  }

  /** `a` holds `args` in its first slots, followed by a NULL terminator. */
  ghost predicate Layout(a: seq<CStr>, args: seq<string>) {
    && |args| < |a|
    && a[|args|] == Null
    && forall i :: 0 <= i < |args| ==> a[i] == Str(args[i])
  }

  /** Slots `off ..` holding `xs` and then a NULL denote exactly `xs`. */
  lemma {:induction false} ArgsAtRun(a: seq<CStr>, off: nat, xs: seq<string>)
    requires off + |xs| < |a| && a[off + |xs|] == Null
    requires forall i :: 0 <= i < |xs| ==> a[off + i] == Str(xs[i])
    ensures ArgsAt(a, off) == xs
    decreases |xs|
  {
    if xs != [] {
      assert a[off + 0] == Str(xs[0]);
      forall i | 0 <= i < |xs[1..]| ensures a[off + 1 + i] == Str(xs[1..][i]) {
        assert a[off + (i + 1)] == Str(xs[i + 1]);
      }
      ArgsAtRun(a, off + 1, xs[1..]);
      assert xs == [xs[0]] + xs[1..];
    }
  }

  /** Reading a laid-out vector from any slot up to its terminator gives the
      corresponding suffix of the arguments. */
  lemma LayoutArgs(a: seq<CStr>, args: seq<string>, off: nat)
    requires Layout(a, args) && off <= |args|
    ensures ArgsAt(a, off) == args[off..]
  {
    forall i | 0 <= i < |args[off..]| ensures a[off + i] == Str(args[off..][i]) {
      assert a[off + i] == Str(args[off + i]);
    }
    ArgsAtRun(a, off, args[off..]);
  }

  /** Writing NULL into slot `k` of a laid-out vector (`k` below the argument
      count) leaves `args[..k]` at slot 0 and `args[k+1..]` at slot `k + 1`;
      the operator token at `k` belongs to neither. */
  lemma CutViews(a: seq<CStr>, args: seq<string>, k: nat)
    requires Layout(a, args) && k < |args|
    ensures Layout(a[k := Null], args[..k])
    ensures ArgsAt(a[k := Null], 0) == args[..k]
    ensures ArgsAt(a[k := Null], k + 1) == args[k + 1..]
  {
    var b := a[k := Null];
    LayoutArgs(b, args[..k], 0);
    LayoutArgs(a, args, k + 1);
    ArgsAtRun(b, k + 1, args[k + 1..]);
  }

  /** Search with an explicit found/absent outcome: the first index holding
      `target`. */
  function Lookup(args: seq<string>, target: string): (r: Option<nat>)
    ensures r.Some? ==> r.value < |args| && args[r.value] == target
    ensures r.Some? ==> forall j :: 0 <= j < r.value ==> args[j] != target
    ensures r.None? <==> target !in args
  {
    if args == [] then None
    else if args[0] == target then Some(0)
    else match Lookup(args[1..], target)
      case None => None
      case Some(i) => Some(i + 1)
  }

  /** What `find_index` computes: the first index holding `target`, and 0 when
      there is none. */
  function FindIndexOf(args: seq<string>, target: string): (i: nat)
    ensures args != [] ==> i < |args|
  {
    match Lookup(args, target)
    case Some(i) => i
    case None => 0
  }

  /** A positive result is a real match with no earlier match; a zero result
      means "absent" or "first token", and nothing else. */
  lemma FindIndexMeaning(args: seq<string>, target: string)
    ensures FindIndexOf(args, target) > 0 ==>
      var i := FindIndexOf(args, target);
      args[i] == target && forall j :: 0 <= j < i ==> args[j] != target
    ensures FindIndexOf(args, target) == 0 <==> target !in args || args[0] == target
    ensures FindIndexOf(args, target) != 0 <==> Lookup(args, target).Some? && Lookup(args, target).value != 0
  {
  }

  /** `find_index` gives the same answer for "absent" and "at index 0", which
      the explicit search tells apart. */
  lemma FindIndexConflatesAbsentAndFirst(target: string, rest: seq<string>)
    requires target !in rest
    ensures FindIndexOf([target] + rest, target) == FindIndexOf(rest, target) == 0
    ensures Lookup([target] + rest, target) == Some(0) && Lookup(rest, target) == None
  {
  }

  /** A match with no earlier match is what `find_index` answers. */
  lemma FirstMatch(args: seq<string>, target: string, j: nat)
    requires j < |args| && args[j] == target
    requires forall m :: 0 <= m < j ==> args[m] != target
    ensures FindIndexOf(args, target) == j
  {
  }

  /** `find_index`: walk the slots until the NULL terminator, comparing each
      string with `target`. */
  method FindIndex(argv: array<CStr>, ghost args: seq<string>, target: string) returns (i: nat)
    requires Layout(argv[..], args)
    ensures i == FindIndexOf(args, target)
  {
    var j := 0;
    while argv[j] != Null
      invariant 0 <= j <= |args|
      invariant forall m :: 0 <= m < j ==> args[m] != target
      decreases |args| - j
    {
      assert argv[j] == Str(args[j]);
      if argv[j] == Str(target) {
        FirstMatch(args, target, j);
        return j;
      }
      j := j + 1;
    }
    assert target !in args;
    return 0;
  }

  /** `truncate_argument_list`: end the vector just before slot `k` by writing
      NULL there; the same array is returned. */
  method TruncateArgumentList(argv: array<CStr>, k: nat) returns (r: array<CStr>)
    requires k < argv.Length
    modifies argv
    ensures r == argv
    ensures argv[..] == old(argv[..])[k := Null]
  {
    argv[k] := Null;
    r := argv;
  }

  /** `split_argument_list`: truncate at slot `k` and return the slot where the
      second command starts (the pointer `argv + k + 1`). */
  method SplitArgumentList(argv: array<CStr>, k: nat) returns (second: nat)
    requires k < argv.Length
    modifies argv
    ensures second == k + 1
    ensures argv[..] == old(argv[..])[k := Null]
  {
    var _ := TruncateArgumentList(argv, k);
    second := k + 1;
  }
}
