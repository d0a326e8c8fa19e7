/**
 * Character-level text helpers used by the query transaction:
 * Python's `str.strip()` with no argument, and `''.join` of the lines
 * that `readline` returned.
 */
module Text {

  /** Python's `str.isspace()` on one character: the characters `str.strip()` removes. */
  predicate IsSpace(c: char)
  {
    c == ' ' || ('\t' <= c <= '\r') || ('\U{1C}' <= c <= '\U{1F}')
    || c == '\U{85}' || c == '\U{A0}' || c == '\U{1680}'
    || ('\U{2000}' <= c <= '\U{200A}') || c == '\U{2028}' || c == '\U{2029}'
    || c == '\U{202F}' || c == '\U{205F}' || c == '\U{3000}'
  }

  /**
   * The characters `strip` removes include the blank and the line
   * terminators, and no printable ASCII character besides the blank, so
   * the digits, signs and letters of a reply survive the strip.
   */
  lemma {:induction false} SpaceCharacters(c: char)
    ensures c == ' ' || c == '\t' || c == '\n' || c == '\r' ==> IsSpace(c)
    ensures '!' <= c <= '~' ==> !IsSpace(c)
    ensures c < '\U{80}' ==> (IsSpace(c) <==> c == ' ' || '\t' <= c <= '\r' || '\U{1C}' <= c <= '\U{1F}')
  {
  }

  predicate AllSpace(s: string) {
    forall k :: 0 <= k < |s| ==> IsSpace(s[k])
  }

  /** Neither the first nor the last character of `s` is whitespace. */
  predicate Trimmed(s: string) {
    s == [] || (!IsSpace(s[0]) && !IsSpace(s[|s| - 1]))
  }

  /** `s.lstrip()`: the longest suffix of `s` that does not start with whitespace. */
  function TrimStart(s: string): (r: string)
    ensures |r| <= |s| && r == s[|s| - |r|..]
    ensures AllSpace(s[..|s| - |r|])
    ensures r == [] || !IsSpace(r[0])
  {
    if s != [] && IsSpace(s[0]) then
      var r := TrimStart(s[1..]);
      assert s[..|s| - |r|] == [s[0]] + s[1..][..|s| - 1 - |r|];
      r
    else
      s
  }

  /** `s.rstrip()`: the longest prefix of `s` that does not end with whitespace. */
  function TrimEnd(s: string): (r: string)
    ensures |r| <= |s| && r == s[..|r|]
    ensures AllSpace(s[|r|..])
    ensures r == [] || !IsSpace(r[|r| - 1])
  {
    if s != [] && IsSpace(s[|s| - 1]) then
      var r := TrimEnd(s[..|s| - 1]);
      assert s[|r|..] == s[..|s| - 1][|r|..] + [s[|s| - 1]];
      r
    else
      s
  }

  /** `s.strip()`: leading and trailing whitespace removed. */
  function Strip(s: string): (r: string)
    ensures Trimmed(r)
    ensures |r| <= |s|
  {
    TrimEnd(TrimStart(s))
  }

  /**
   * `r` is what is left of `s` after cutting off a whitespace-only prefix
   * and a whitespace-only suffix, and `r` itself neither starts nor ends
   * with whitespace. This is the meaning of `strip`, stated without saying
   * how the cut points are found.
   */
  ghost predicate IsStripOf(s: string, r: string) {
    exists i, j :: 0 <= i <= j <= |s| && r == s[i..j]
                   && AllSpace(s[..i]) && AllSpace(s[j..]) && Trimmed(r)
  }

  /** Where Strip cuts `s`: the start of the kept part. */
  function StripStart(s: string): (i: nat)
    ensures i <= |s|
  {
    |s| - |TrimStart(s)|
  }

  lemma StripIsCut(s: string)
    ensures StripStart(s) + |Strip(s)| <= |s|
    ensures Strip(s) == s[StripStart(s)..StripStart(s) + |Strip(s)|]
    ensures AllSpace(s[..StripStart(s)])
    ensures AllSpace(s[StripStart(s) + |Strip(s)|..])
  {
    var i := StripStart(s);
    var t := TrimStart(s);
    var r := TrimEnd(t);
    assert t == s[i..];
    assert s[i + |r|..] == t[|r|..];
  }

  /** Every character before a whitespace-only cut point is whitespace. */
  lemma SpaceBefore(s: string, i: nat)
    requires i <= |s| && AllSpace(s[..i])
    ensures forall k :: 0 <= k < i ==> IsSpace(s[k])
  {
    forall k | 0 <= k < i ensures IsSpace(s[k]) { assert s[..i][k] == s[k]; }
  }

  /** Every character after a whitespace-only cut point is whitespace. */
  lemma SpaceAfter(s: string, j: nat)
    requires j <= |s| && AllSpace(s[j..])
    ensures forall k :: j <= k < |s| ==> IsSpace(s[k])
  {
    forall k | j <= k < |s| ensures IsSpace(s[k]) { assert s[j..][k - j] == s[k]; }
  }

  /** Two cuts that both keep a non-empty, trimmed middle part coincide. */
  lemma CutsAgree(s: string, i: nat, j: nat, i': nat, j': nat)
    requires i < j <= |s| && i' < j' <= |s|
    requires AllSpace(s[..i]) && AllSpace(s[j..]) && Trimmed(s[i..j])
    requires AllSpace(s[..i']) && AllSpace(s[j'..]) && Trimmed(s[i'..j'])
    ensures i == i' && j == j'
  {
    assert s[i..j][0] == s[i] && s[i'..j'][0] == s[i'];
    assert s[i..j][j - i - 1] == s[j - 1] && s[i'..j'][j' - i' - 1] == s[j' - 1];
    SpaceBefore(s, i);
    SpaceBefore(s, i');
    SpaceAfter(s, j);
    SpaceAfter(s, j');
  }

  /** In a whitespace-only text every non-empty piece starts with whitespace. */
  lemma AllSpaceNoCut(s: string)
    ensures AllSpace(s) ==> forall i, j :: 0 <= i < j <= |s| ==> !Trimmed(s[i..j])
  {
    forall i, j | 0 <= i < j <= |s| ensures s[i..j][0] == s[i] { }
  }

  /** Strip computes exactly the unique IsStripOf cut: both directions. */
  lemma {:induction false} StripCharacterized(s: string, r: string)
    ensures IsStripOf(s, r) <==> r == Strip(s)
  {
    StripIsAStrip(s);
    if IsStripOf(s, r) {
      StripIsTheOnlyStrip(s, r);
    }
  }

  /** The cut Strip makes is a strip in the sense of IsStripOf. */
  lemma StripIsAStrip(s: string)
    ensures IsStripOf(s, Strip(s))
  {
    StripIsCut(s);
    var a := StripStart(s);
    var b := a + |Strip(s)|;
    assert 0 <= a <= b <= |s| && Strip(s) == s[a..b] && AllSpace(s[..a]) && AllSpace(s[b..]);
  }

  /** Any strip in the sense of IsStripOf is the one Strip computes. */
  lemma StripIsTheOnlyStrip(s: string, r: string)
    requires IsStripOf(s, r)
    ensures r == Strip(s)
  {
    StripIsCut(s);
    var a := StripStart(s);
    var b := a + |Strip(s)|;
    var i, j :| 0 <= i <= j <= |s| && r == s[i..j]
                && AllSpace(s[..i]) && AllSpace(s[j..]) && Trimmed(r);
    AllSpaceNoCut(s);
    SpaceBefore(s, i);
    SpaceAfter(s, j);
    SpaceBefore(s, a);
    SpaceAfter(s, b);
    if i < j && a < b {
      CutsAgree(s, i, j, a, b);
    }
  }

  /** Stripping a stripped text changes nothing. */
  lemma {:induction false} StripIdempotent(s: string)
    ensures Strip(Strip(s)) == Strip(s)
  {
    var r := Strip(s);
    assert TrimStart(r) == r;
    assert TrimEnd(r) == r;
  }

  /** A text that already has no outer whitespace is its own strip. */
  lemma {:induction false} StripOfTrimmed(s: string)
    requires Trimmed(s)
    ensures Strip(s) == s
  {
    assert TrimStart(s) == s;
  }

  /**
   * `''.join(lines)`: the lines glued together with no separator; a single
   * line is joined to itself.
   */
  function Concat(lines: seq<string>): (r: string)
    ensures |lines| == 1 ==> r == lines[0]
  {
    if lines == [] then "" else lines[0] + Concat(lines[1..])
  }

  /** Joining is a monoid homomorphism: no separator appears between two groups of lines. */
  lemma {:induction false} ConcatAppend(a: seq<string>, b: seq<string>)
    ensures Concat(a + b) == Concat(a) + Concat(b)
  {
    if a == [] {
      assert a + b == b;
    } else {
      assert (a + b)[1..] == a[1..] + b;
      ConcatAppend(a[1..], b);
    }
  }

  /** Empty lines (what a timed-out `readline` returns) add nothing to the join. */
  lemma {:induction false} ConcatEmptyLines(lines: seq<string>)
    requires forall k :: 0 <= k < |lines| ==> lines[k] == ""
    ensures Concat(lines) == ""
  {
    if lines != [] { ConcatEmptyLines(lines[1..]); }
  }
}
