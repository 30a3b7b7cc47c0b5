/**
  The word structure of a command line: only the space character separates
  words (a tab does not). `Tokens` is the specification `parseline` is proved
  against; `StrChr` is the C library search the parser uses to find each
  delimiter.
 */
module Tokenizer {
  import opened Defs

  /** The line as `parseline` sees it once its last character (normally the
      newline) has been overwritten with a space. */
  function Prepared(line: string): (r: string)
    requires |line| >= 1
    ensures |r| == |line| && r[|r| - 1] == ' '
    ensures forall i :: 0 <= i < |line| - 1 ==> r[i] == line[i]
  {
    line[..|line| - 1] + [' ']
  }

  /** Length of the run of non-space characters at the front of `s`. */
  function RunLength(s: string): (k: nat)
    ensures k <= |s|
    ensures forall i :: 0 <= i < k ==> s[i] != ' '
    ensures k < |s| ==> s[k] == ' '
  {
    if s == [] || s[0] == ' ' then 0 else 1 + RunLength(s[1..])
  }

  /** The maximal runs of non-space characters of `s`, in order; each is
      non-empty and free of spaces. */
  function Tokens(s: string): (toks: seq<string>)
    ensures forall i :: 0 <= i < |toks| ==> |toks[i]| > 0 && ' ' !in toks[i]
    decreases |s|
  {
    if s == [] then []
    else if s[0] == ' ' then Tokens(s[1..])
    else
      var k := RunLength(s);
      [s[..k]] + Tokens(s[k..])
  }

  /** A leading space contributes no token. */
  lemma TokensSkipSpace(s: string, p: nat)
    requires p < |s| && s[p] == ' '
    ensures Tokens(s[p..]) == Tokens(s[p + 1..])
  {
    assert s[p..][1..] == s[p + 1..];
  }

  /** A non-space at `p` whose run ends at the space at `d` contributes the
      token `s[p..d]`, and tokenizing goes on after that space. */
  lemma TokensAt(s: string, p: nat, d: nat)
    requires p < d < |s| && s[p] != ' ' && s[d] == ' '
    requires forall i :: p <= i < d ==> s[i] != ' '
    ensures Tokens(s[p..]) == [s[p..d]] + Tokens(s[d + 1..])
  {
    var u := s[p..];
    var k := RunLength(u);
    assert u[d - p] == ' ';
    assert k == d - p;
    assert u[..k] == s[p..d];
    assert u[k..] == s[d..];
    TokensSkipSpace(s, d);
  }

  /** A line made only of spaces has no tokens. */
  lemma {:induction false} BlankHasNoTokens(s: string)
    requires forall i :: 0 <= i < |s| ==> s[i] == ' '
    ensures Tokens(s) == []
    decreases |s|
  {
    if s != [] {
      BlankHasNoTokens(s[1..]);
    }
  }

  /** Concatenation of words. */
  function Concat(ts: seq<string>): string {
    if ts == [] then [] else ts[0] + Concat(ts[1..])
  }

  /** `s` with every space removed. */
  function NonSpaces(s: string): string {
    if s == [] then []
    else (if s[0] == ' ' then [] else [s[0]]) + NonSpaces(s[1..])
  }

  lemma {:induction false} NonSpacesAppend(u: string, v: string)
    ensures NonSpaces(u + v) == NonSpaces(u) + NonSpaces(v)
    decreases |u|
  {
    if u != [] {
      var h: string := if u[0] == ' ' then [] else [u[0]];
      assert (u + v)[0] == u[0] && (u + v)[1..] == u[1..] + v;
      NonSpacesAppend(u[1..], v);
      calc {
        NonSpaces(u + v);
        h + NonSpaces(u[1..] + v);
        h + (NonSpaces(u[1..]) + NonSpaces(v));
        (h + NonSpaces(u[1..])) + NonSpaces(v);
        NonSpaces(u) + NonSpaces(v);
      }
    } else {
      assert u + v == v;
    }
  }

  lemma {:induction false} NonSpacesOfWord(u: string)
    requires forall i :: 0 <= i < |u| ==> u[i] != ' '
    ensures NonSpaces(u) == u
    decreases |u|
  {
    if u != [] {
      NonSpacesOfWord(u[1..]);
      assert u == [u[0]] + u[1..];
    }
  }

  /** No character other than a space is lost or reordered: the tokens, put
      back together, are the line without its spaces. */
  lemma {:induction false} TokensKeepEveryNonSpace(s: string)
    ensures Concat(Tokens(s)) == NonSpaces(s)
    decreases |s|
  {
    if s == [] {
    } else if s[0] == ' ' {
      TokensKeepEveryNonSpace(s[1..]);
    } else {
      var k := RunLength(s);
      var rest := Tokens(s[k..]);
      assert ([s[..k]] + rest)[1..] == rest;
      TokensKeepEveryNonSpace(s[k..]);
      assert s == s[..k] + s[k..];
      NonSpacesAppend(s[..k], s[k..]);
      NonSpacesOfWord(s[..k]);
    }
  }

  /** Words each followed by one space: the shape of a line `parseline` reads. */
  function Spaced(ts: seq<string>): string {
    if ts == [] then [] else ts[0] + [' '] + Spaced(ts[1..])
  }

  /** A word followed by a space contributes exactly that word. */
  lemma TokensOfWordThen(w: string, rest: string)
    requires |w| > 0 && ' ' !in w
    ensures Tokens(w + [' '] + rest) == [w] + Tokens(rest)
  {
    var s := w + [' '] + rest;
    assert forall i :: 0 <= i < |w| ==> s[i] == w[i];
    TokensAt(s, 0, |w|);
    assert s[0..|w|] == w;
    assert s[|w| + 1..] == rest;
  }

  /** Tokenizing undoes `Spaced` for non-empty, space-free words. */
  lemma {:induction false} TokensOfSpaced(ts: seq<string>)
    requires forall i :: 0 <= i < |ts| ==> |ts[i]| > 0 && ' ' !in ts[i]
    ensures Tokens(Spaced(ts)) == ts
    decreases |ts|
  {
    if ts != [] {
      TokensOfWordThen(ts[0], Spaced(ts[1..]));
      TokensOfSpaced(ts[1..]);
      assert ts == [ts[0]] + ts[1..];
    }
  }

  /** `strchr(buf + p, c)` for a character `c` other than NUL, where `z` is the
      first NUL at or after `p`: the first index holding `c` before `z`, or
      nothing. */
  method StrChr(buf: array<char>, p: nat, c: char, ghost z: nat) returns (r: Option<nat>)
    requires c != '\0'
    requires p <= z < buf.Length && buf[z] == '\0'
    requires forall i :: p <= i < z ==> buf[i] != '\0'
    ensures r.Some? ==> p <= r.value < z && buf[r.value] == c
    ensures r.Some? ==> forall i :: p <= i < r.value ==> buf[i] != c
    ensures r.None? ==> forall i :: p <= i < z ==> buf[i] != c
  {
    var i := p;
    while buf[i] != '\0'
      invariant p <= i <= z
      invariant forall j :: p <= j < i ==> buf[j] != c
      decreases z - i
    {
      if buf[i] == c {
        return Some(i);
      }
      i := i + 1;
    }
    return None;
  }
}
