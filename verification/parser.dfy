/**
  `parseline`: cuts the line buffer in place into space-delimited words, drops
  a trailing background marker and classifies the line into a `Mode`.
  `ParseSpec` states on values what the in-place `ParseLine` computes.
 */
module Parser {
  import opened Defs
  import opened Argv
  import opened Tokenizer

  /** What a parse yields besides the words: nothing for a line without
      words (the background flag and the mode are then never assigned),
      otherwise the background flag and the mode. */
  datatype Shape = Blank | Cmd(bg: bool, mode: Mode)

  datatype Parsed = Parsed(argv: seq<string>, shape: Shape)

  /** An operator token counts for classification when it occurs and is not
      the first word. */
  predicate Counts(args: seq<string>, op: string) {
    op in args && args[0] != op
  }

  /** The mode-detection chain: a `find_index` result of 0 reads as "no".
      A line is Simple exactly when no operator counts: none occurs at all
      unless it is also the first word, which hides every later copy of it
      too. Any other mode needs at least two words. */
  function Classify(args: seq<string>): (m: Mode)
    ensures m == Simple <==>
      && !Counts(args, "|") && !Counts(args, ";") && !Counts(args, "&&")
      && !Counts(args, "||") && !Counts(args, "<") && !Counts(args, ">")
    ensures m != Simple ==> |args| >= 2
  {
    if FindIndexOf(args, "|") != 0 then Pipe
    else if FindIndexOf(args, ";") != 0 then Seq
    else if FindIndexOf(args, "&&") != 0 then AndIf
    else if FindIndexOf(args, "||") != 0 then OrIf
    else if FindIndexOf(args, "<") != 0 && FindIndexOf(args, ">") != 0 then InputOutputRedir
    else if FindIndexOf(args, "<") != 0 then InputRedir
    else if FindIndexOf(args, ">") != 0 then OutputRedir
    else Simple
  }

  /** The precedence Pipe > Seq > AndIf > OrIf > redirections > Simple, in
      terms of which operators count; both redirections together give
      InputOutputRedir. */
  lemma ClassifyPrecedence(args: seq<string>)
    ensures Classify(args) == Pipe <==> Counts(args, "|")
    ensures Classify(args) == Seq <==> !Counts(args, "|") && Counts(args, ";")
    ensures Classify(args) == AndIf <==>
      !Counts(args, "|") && !Counts(args, ";") && Counts(args, "&&")
    ensures Classify(args) == OrIf <==>
      !Counts(args, "|") && !Counts(args, ";") && !Counts(args, "&&") && Counts(args, "||")
    ensures var control := Counts(args, "|") || Counts(args, ";") || Counts(args, "&&") || Counts(args, "||");
      && (Classify(args) == InputOutputRedir <==> !control && Counts(args, "<") && Counts(args, ">"))
      && (Classify(args) == InputRedir <==> !control && Counts(args, "<") && !Counts(args, ">"))
      && (Classify(args) == OutputRedir <==> !control && !Counts(args, "<") && Counts(args, ">"))
      && (Classify(args) == Simple <==> !control && !Counts(args, "<") && !Counts(args, ">"))
  {
    FindIndexMeaning(args, "|");
    FindIndexMeaning(args, ";");
    FindIndexMeaning(args, "&&");
    FindIndexMeaning(args, "||");
    FindIndexMeaning(args, "<");
    FindIndexMeaning(args, ">");
  }

  /** The operator a compound or redirected mode is split or cut at. */
  function OperatorOf(m: Mode): string
    requires m != Simple && m != InputOutputRedir
  {
    match m
    case Pipe => "|"
    case Seq => ";"
    case AndIf => "&&"
    case OrIf => "||"
    case InputRedir => "<"
    case OutputRedir => ">"
  }

  /** In every mode but Simple, the operator the dispatcher looks up sits at
      index 1 or later: the left command is never empty and the operator is
      really there. */
  lemma OperatorIndexPositive(args: seq<string>)
    requires Classify(args) != Simple
    ensures Classify(args) != InputOutputRedir ==>
      var k := FindIndexOf(args, OperatorOf(Classify(args)));
      1 <= k < |args| && args[k] == OperatorOf(Classify(args))
    ensures Classify(args) == InputOutputRedir ==>
      1 <= FindIndexOf(args, "<") < |args| && 1 <= FindIndexOf(args, ">") < |args|
  {
  }

  /** The value `parseline` returns for `line`. */
  function ParseSpec(line: string): (p: Parsed)
    requires |line| >= 1
    ensures p.shape.Blank? ==> p.argv == []
  {
    FromWords(Tokens(Prepared(line)))
  }

  /** What `parseline` makes of the words it has cut: no words is a blank
      line; otherwise a last word starting with '&' is dropped and sets the
      background flag, and the remaining words are classified. */
  function FromWords(toks: seq<string>): (p: Parsed)
    requires forall i :: 0 <= i < |toks| ==> |toks[i]| > 0
    ensures p.shape.Blank? <==> toks == []
    ensures p.shape.Blank? ==> p.argv == []
    ensures p.shape.Cmd? ==> p.shape.mode == Classify(p.argv)
  {
    if toks == [] then Parsed([], Blank)
    else
      var bg := toks[|toks| - 1][0] == '&';
      var args := if bg then toks[..|toks| - 1] else toks;
      Parsed(args, Cmd(bg, Classify(args)))
  }

  /** Background detection: a last word starting with '&' (also `&&` or `&x`)
      sets the flag and is dropped, leaving the other words unchanged;
      otherwise the words stay as they are. A line without words is Blank. */
  lemma ParseBackground(line: string)
    requires |line| >= 1
    ensures var toks := Tokens(Prepared(line));
      var p := ParseSpec(line);
      && (toks == [] <==> p.shape.Blank?)
      && (toks != [] && toks[|toks| - 1][0] == '&' ==>
            p.shape.bg && |p.argv| == |toks| - 1 && p.argv == toks[..|toks| - 1])
      && (toks != [] && toks[|toks| - 1][0] != '&' ==> !p.shape.bg && p.argv == toks)
  {
  }

  /** A blank or all-space line is Blank, whatever its final character. */
  lemma BlankLine(line: string)
    requires |line| >= 1
    requires forall i :: 0 <= i < |line| - 1 ==> line[i] == ' '
    ensures ParseSpec(line) == Parsed([], Blank)
  {
    BlankHasNoTokens(Prepared(line));
  }

  /** A line of words, each followed by one space, parses to those words when
      the last one does not start with '&'. */
  lemma ParseSpacedWords(ts: seq<string>)
    requires ts != [] && forall i :: 0 <= i < |ts| ==> |ts[i]| > 0 && ' ' !in ts[i]
    requires ts[|ts| - 1][0] != '&'
    ensures |Spaced(ts)| >= 1
    ensures ParseSpec(Spaced(ts)) == Parsed(ts, Cmd(false, Classify(ts)))
  {
    var s := Spaced(ts);
    SpacedEndsWithSpace(ts);
    assert Prepared(s) == s by {
      assert s == s[..|s| - 1] + [' '];
    }
    TokensOfSpaced(ts);
    assert FromWords(ts) == Parsed(ts, Cmd(false, Classify(ts)));
  }

  lemma {:induction false} SpacedEndsWithSpace(ts: seq<string>)
    requires ts != []
    ensures |Spaced(ts)| >= 1 && Spaced(ts)[|Spaced(ts)| - 1] == ' '
    decreases |ts|
  {
    if ts[1..] != [] {
      SpacedEndsWithSpace(ts[1..]);
    }
  }

  /** `parseline` on a NUL-terminated buffer holding the line: overwrite the
      last character with a space, skip leading spaces, cut the buffer into
      words, then drop a background marker and classify. `ptrs` are the word
      pointers, as offsets into `buf`. */
  method ParseLine(buf: array<char>) returns (argv: array<CStr>, argc: nat, shape: Shape, ghost ptrs: seq<nat>)
    requires buf.Length >= 2 && buf[buf.Length - 1] == '\0'
    requires forall i :: 0 <= i < buf.Length - 1 ==> buf[i] != '\0'
    requires |Tokens(Prepared(buf[..buf.Length - 1]))| < MAX_ARGS
    modifies buf
    ensures fresh(argv) && argv.Length == MAX_ARGS
    ensures var p := ParseSpec(old(buf[..buf.Length - 1]));
      Layout(argv[..], p.argv) && argc == |p.argv| && shape == p.shape
    ensures |ptrs| == argc
    ensures forall i :: 0 <= i < argc ==> argv[i].Str? && WordAt(buf[..], ptrs[i], argv[i].text)
  {
    ghost var line := buf[..buf.Length - 1];
    ghost var toks := Tokens(Prepared(line));
    var words;
    argv, words, ptrs := CutLine(buf);
    ghost var cut := argv[..];
    argc, shape := Classified(argv, words, toks);
    ptrs := ptrs[..argc];
    forall i | 0 <= i < argc ensures argv[i].Str? && WordAt(buf[..], ptrs[i], argv[i].text) {
      assert argv[i] == cut[i] == Str(toks[i]);
    }
  }

  /** The first half of `parseline`: put a space over the last character,
      skip leading spaces and cut the buffer into its words. */
  method CutLine(buf: array<char>) returns (argv: array<CStr>, argc: nat, ghost ptrs: seq<nat>)
    requires buf.Length >= 2 && buf[buf.Length - 1] == '\0'
    requires forall i :: 0 <= i < buf.Length - 1 ==> buf[i] != '\0'
    requires |Tokens(Prepared(buf[..buf.Length - 1]))| < MAX_ARGS
    modifies buf
    ensures fresh(argv) && argv.Length == MAX_ARGS
    ensures var toks := Tokens(Prepared(old(buf[..buf.Length - 1])));
      && Layout(argv[..], toks) && argc == |toks| && |ptrs| == argc
      && forall i :: 0 <= i < argc ==> WordAt(buf[..], ptrs[i], toks[i])
  {
    var n := buf.Length - 1;
    ghost var s := Prepared(buf[..n]);
    buf[n - 1] := ' ';
    assert forall i :: 0 <= i < n ==> s[i] != '\0' && buf[i] == s[i];
    var p := SkipSpaces(buf, 0, s);
    assert Unread(buf[..], s, p);
    argv, argc, ptrs := CutWords(buf, p, s);
  }

  /** The end of `parseline` once the words are cut: nothing more for a blank
      line; otherwise drop a background marker and run the mode chain. */
  method Classified(argv: array<CStr>, words: nat, ghost toks: seq<string>) returns (argc: nat, shape: Shape)
    requires argv.Length == MAX_ARGS && Layout(argv[..], toks) && words == |toks|
    requires forall i :: 0 <= i < |toks| ==> |toks[i]| > 0
    modifies argv
    ensures var p := FromWords(toks);
      Layout(argv[..], p.argv) && argc == |p.argv| && shape == p.shape
    ensures argc <= words && forall i :: 0 <= i < argc ==> argv[i] == old(argv[i])
  {
    argc := words;
    if argc == 0 {
      shape := Blank;
      return;
    }
    var bg := argv[argc - 1].text[0] == '&';
    if bg {
      argc := argc - 1;
      argv[argc] := Null;
    }
    ghost var args := FromWords(toks).argv;
    assert Layout(argv[..], args);
    LayoutArgs(argv[..], args, 0);
    var mode := DetectMode(argv, args);
    shape := Cmd(bg, mode);
  }

  /** The NUL-terminated string at offset `at` of `b` is `w`. */
  ghost predicate WordAt(b: seq<char>, at: nat, w: string) {
    && at + |w| < |b|
    && b[at + |w|] == '\0'
    && forall j :: 0 <= j < |w| ==> b[at + j] == w[j]
  }

  /** Writing past a word's terminator leaves the word in place. */
  lemma WordAtAfterWrite(b: seq<char>, at: nat, w: string, d: nat, c: char)
    requires WordAt(b, at, w) && at + |w| < d < |b|
    ensures WordAt(b[d := c], at, w)
  {
  }

  /** From `p` on, `b` still holds the prepared line `s` and its terminator,
      and `p` is at a word or at the end. */
  ghost predicate Unread(b: seq<char>, s: string, p: nat) {
    && |b| == |s| + 1 && b[|s|] == '\0' && p <= |s|
    && (p == |s| || s[p] != ' ')
    && (forall i :: p <= i < |s| ==> b[i] == s[i] && s[i] != '\0')
  }

  /** The state of the word-cutting loop over the prepared line `s` held in
      `b`: the words `toks` found so far sit in the first slots of `a`, each
      NUL-terminated in `b` at its pointer in `ptrs`, the rest of `a` is NULL,
      and the words still to come are the tokens from `p` on. */
  ghost predicate CutState(b: seq<char>, a: seq<CStr>, s: string, p: nat, toks: seq<string>, ptrs: seq<nat>) {
    && Unread(b, s, p)
    && toks + Tokens(s[p..]) == Tokens(s)
    && |toks| == |ptrs| && |Tokens(s)| < |a|
    && (forall i :: 0 <= i < |toks| ==> a[i] == Str(toks[i]))
    && (forall i :: |toks| <= i < |a| ==> a[i] == Null)
    && (forall i :: 0 <= i < |toks| ==> ptrs[i] + |toks[i]| < p && WordAt(b, ptrs[i], toks[i]))
  }

  /** The word-cutting loop of `parseline`, started on the first non-space
      `p0` of the prepared line `s` held in `buf`: while `strchr` finds a
      space, record the word before it and overwrite the space with NUL, then
      skip the spaces that follow. The words are `Tokens(s)`, NULL-terminated. */
  method CutWords(buf: array<char>, p0: nat, ghost s: string) returns (argv: array<CStr>, argc: nat, ghost ptrs: seq<nat>)
    requires Unread(buf[..], s, p0) && |s| >= 1 && s[|s| - 1] == ' '
    requires Tokens(s[p0..]) == Tokens(s) && |Tokens(s)| < MAX_ARGS
    modifies buf
    ensures fresh(argv) && argv.Length == MAX_ARGS
    ensures Layout(argv[..], Tokens(s)) && argc == |Tokens(s)| && |ptrs| == argc
    ensures forall i :: 0 <= i < argc ==> WordAt(buf[..], ptrs[i], Tokens(s)[i])
  {
    var n := buf.Length - 1;
    var p := p0;
    argv := new CStr[MAX_ARGS](_ => Null);
    argc := 0;
    ghost var toks: seq<string> := [];
    ptrs := [];
    CutStart(buf[..], argv[..], s, p);
    var delim := FindSpace(buf, p, s);
    while delim.Some?
      invariant CutState(buf[..], argv[..], s, p, toks, ptrs) && argc == |toks|
      invariant NextSpace(s, p, delim)
      decreases n - p
    {
      p, toks, ptrs := CutStep(buf, argv, argc, p, delim.value, s, toks, ptrs);
      argc := argc + 1;
      delim := FindSpace(buf, p, s);
    }
    CutDone(buf[..], argv[..], s, p, toks, ptrs);
    ghost var before := argv[..];
    argv[argc] := Null;
    assert argv[..] == before[argc := Null] == before;
  }

  /** Before the first word: nothing recorded, every slot NULL. */
  lemma CutStart(b: seq<char>, a: seq<CStr>, s: string, p: nat)
    requires Unread(b, s, p) && Tokens(s[p..]) == Tokens(s) && |Tokens(s)| < |a|
    requires forall i :: 0 <= i < |a| ==> a[i] == Null
    ensures CutState(b, a, s, p, [], [])
  {
  }

  /** `d` is what `strchr(s + p, ' ')` returns: the first space at or after
      `p`, or nothing. */
  ghost predicate NextSpace(s: string, p: nat, d: Option<nat>) {
    && p <= |s|
    && (d.Some? ==> p < d.value < |s| && s[d.value] == ' ' && forall i :: p <= i < d.value ==> s[i] != ' ')
    && (d.None? ==> forall i :: p <= i < |s| ==> s[i] != ' ')
  }

  /** `strchr(buf + p, ' ')` on the part of the buffer that still holds the
      prepared line from `p` on, starting on a non-space. */
  method FindSpace(buf: array<char>, p: nat, ghost s: string) returns (d: Option<nat>)
    requires Unread(buf[..], s, p)
    ensures NextSpace(s, p, d)
  {
    d := StrChr(buf, p, ' ', |s|);
  }

  /** When no space is left after `p`, no token is left either. */
  lemma CutDone(b: seq<char>, a: seq<CStr>, s: string, p: nat, toks: seq<string>, ptrs: seq<nat>)
    requires CutState(b, a, s, p, toks, ptrs) && |s| >= 1 && s[|s| - 1] == ' '
    requires NextSpace(s, p, None)
    ensures toks == Tokens(s) && Layout(a, toks) && a[|toks| := Null] == a && |ptrs| == |toks|
    ensures forall i :: 0 <= i < |toks| ==> WordAt(b, ptrs[i], toks[i])
  {
    assert p == |s|;
    assert s[p..] == [];
  }

  /** One round of the word-cutting loop: the word at `p` ends at the space
      `d`; record it, overwrite the space with NUL and skip the spaces after
      it. */
  method CutStep(buf: array<char>, argv: array<CStr>, argc: nat, p: nat, d: nat,
                 ghost s: string, ghost toks: seq<string>, ghost ptrs: seq<nat>)
    returns (q: nat, ghost toks': seq<string>, ghost ptrs': seq<nat>)
    requires CutState(buf[..], argv[..], s, p, toks, ptrs) && argc == |toks|
    requires NextSpace(s, p, Some(d))
    modifies buf, argv
    ensures d < q && CutState(buf[..], argv[..], s, q, toks', ptrs') && |toks'| == argc + 1
  {
    TokensAt(s, p, d);
    ghost var w := s[p..d];
    ghost var later := Tokens(s[d + 1..]);
    assert toks + ([w] + later) == Tokens(s);
    assert |toks| < |Tokens(s)|;
    RecordWord(buf, argv, argc, p, d, s, toks, ptrs);
    ptrs' := ptrs + [p];
    toks' := toks + [w];
    q := SkipSpaces(buf, d + 1, s);
    assert toks' + later == Tokens(s);
  }

  /** Store the word `s[p..d]` that starts at `p` in slot `argc`, and
      overwrite the space at `d` with NUL. */
  method RecordWord(buf: array<char>, argv: array<CStr>, argc: nat, p: nat, d: nat,
                    ghost s: string, ghost toks: seq<string>, ghost ptrs: seq<nat>)
    requires argc == |toks| == |ptrs| && argc < argv.Length
    requires buf.Length == |s| + 1 && p < d < |s|
    requires forall i :: p <= i < |s| ==> buf[i] == s[i]
    requires forall i :: 0 <= i < argc ==> ptrs[i] + |toks[i]| < p && WordAt(buf[..], ptrs[i], toks[i])
    modifies buf, argv
    ensures argv[..] == old(argv[..])[argc := Str(s[p..d])]
    ensures buf[..] == old(buf[..])[d := '\0']
    ensures forall i :: 0 <= i <= argc ==>
      (ptrs + [p])[i] + |(toks + [s[p..d]])[i]| <= d
      && WordAt(buf[..], (ptrs + [p])[i], (toks + [s[p..d]])[i])
  {
    assert buf[p..d] == s[p..d];
    argv[argc] := Str(buf[p..d]);
    ghost var before := buf[..];
    buf[d] := '\0';
    assert buf[..] == before[d := '\0'];
    forall i | 0 <= i < argc ensures WordAt(buf[..], ptrs[i], toks[i]) {
      WordAtAfterWrite(before, ptrs[i], toks[i], d, '\0');
    }
    assert WordAt(buf[..], p, s[p..d]);
  }

  /** Advance past spaces, stopping at a non-space or at the terminator. */
  method SkipSpaces(buf: array<char>, p: nat, ghost s: string) returns (q: nat)
    requires buf.Length == |s| + 1 && buf[|s|] == '\0' && p <= |s|
    requires forall i :: p <= i < |s| ==> buf[i] == s[i] && s[i] != '\0'
    ensures p <= q <= |s|
    ensures q == |s| || s[q] != ' '
    ensures Tokens(s[q..]) == Tokens(s[p..])
  {
    q := p;
    ghost var rest := Tokens(s[p..]);
    while buf[q] != '\0' && buf[q] == ' '
      invariant p <= q <= |s|
      invariant Tokens(s[q..]) == rest
      decreases |s| - q
    {
      TokensSkipSpace(s, q);
      q := q + 1;
    }
  }

  /** The mode chain of `parseline`, one `find_index` per operator. */
  method DetectMode(argv: array<CStr>, ghost args: seq<string>) returns (mode: Mode)
    requires Layout(argv[..], args) && ArgsAt(argv[..], 0) == args
    ensures mode == Classify(args)
  {
    mode := Simple;
    var i := FindIndex(argv, args, "|");
    if i != 0 {
      mode := Pipe;
    } else {
      i := FindIndex(argv, args, ";");
      if i != 0 {
        mode := Seq;
      } else {
        i := FindIndex(argv, args, "&&");
        if i != 0 {
          mode := AndIf;
        } else {
          i := FindIndex(argv, args, "||");
          if i != 0 {
            mode := OrIf;
          } else {
            i := FindIndex(argv, args, "<");
            if i != 0 {
              mode := InputRedir;
            }
            i := FindIndex(argv, args, ">");
            if i != 0 {
              if mode == InputRedir {
                mode := InputOutputRedir;
              } else {
                mode := OutputRedir;
              }
            }
          }
        }
      }
    }
  }
}
