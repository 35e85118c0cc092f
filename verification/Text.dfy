/** Python's string trimming, as the client and the agent program use it. */
module Text {

  datatype Option<+T> = None | Some(value: T) {
    function GetOr(default: T): T {
      if Some? then value else default
    }
  }

  /** The characters `str.strip()` removes. */
  predicate IsSpace(c: char) {
    || '\t' <= c <= '\r'
    || '\U{1c}' <= c <= ' '
    || c == '\U{85}'
    || c == '\U{a0}'
    || c == '\U{1680}'
    || '\U{2000}' <= c <= '\U{200a}'
    || c == '\U{2028}'
    || c == '\U{2029}'
    || c == '\U{202f}'
    || c == '\U{205f}'
    || c == '\U{3000}'
  }

  const SPACES: string :=
    "\t\n\U{b}\U{c}\r\U{1c}\U{1d}\U{1e}\U{1f} \U{85}\U{a0}\U{1680}\U{2000}\U{2001}\U{2002}\U{2003}\U{2004}"
    + "\U{2005}\U{2006}\U{2007}\U{2008}\U{2009}\U{200a}\U{2028}\U{2029}\U{202f}\U{205f}\U{3000}"

  lemma SpacesAre(c: char)
    ensures IsSpace(c) <==> c in SPACES
  {
    assert |SPACES| == 29;
    if c in SPACES {
      var i :| 0 <= i < |SPACES| && SPACES[i] == c;
    }
  }

  predicate IsNewline(c: char) {
    c == '\n'
  }

  predicate IsCarriageReturn(c: char) {
    c == '\r'
  }

  /** Whole lines, or nothing. */
  predicate EndsLine(s: string) {
    s == "" || s[|s| - 1] == '\n'
  }

  ghost predicate All(p: char -> bool, s: string) {
    forall i | 0 <= i < |s| :: p(s[i])
  }

  /** The first index from `i` on whose character stays. */
  function SkipLeft(p: char -> bool, s: string, i: nat): (k: nat)
    requires i <= |s|
    ensures i <= k <= |s|
    decreases |s| - i
  {
    if i < |s| && p(s[i]) then SkipLeft(p, s, i + 1) else i
  }

  /** The index behind the last character before `j` that stays. */
  function SkipRight(p: char -> bool, s: string, j: nat): (k: nat)
    requires j <= |s|
    ensures k <= j
  {
    if j > 0 && p(s[j - 1]) then SkipRight(p, s, j - 1) else j
  }

  function TrimLeft(p: char -> bool, s: string): string {
    s[SkipLeft(p, s, 0)..]
  }

  function TrimRight(p: char -> bool, s: string): string {
    s[..SkipRight(p, s, |s|)]
  }

  function Trim(p: char -> bool, s: string): string {
    TrimRight(p, TrimLeft(p, s))
  }

  /** `s.strip()` */
  function Strip(s: string): string {
    Trim(IsSpace, s)
  }

  /** `not s.strip()` */
  predicate IsBlank(s: string) {
    Strip(s) == []
  }

  /** `separator.join(parts)` */
  function Join(separator: string, parts: seq<string>): string {
    if parts == [] then []
    else if |parts| == 1 then parts[0]
    else parts[0] + separator + Join(separator, parts[1..])
  }

  lemma {:induction false} SkipLeftSkips(p: char -> bool, s: string, i: nat)
    requires i <= |s|
    ensures forall k | i <= k < SkipLeft(p, s, i) :: p(s[k])
    ensures SkipLeft(p, s, i) < |s| ==> !p(s[SkipLeft(p, s, i)])
    decreases |s| - i
  {
    if i < |s| && p(s[i]) {
      SkipLeftSkips(p, s, i + 1);
    }
  }

  lemma {:induction false} SkipRightSkips(p: char -> bool, s: string, j: nat)
    requires j <= |s|
    ensures forall k | SkipRight(p, s, j) <= k < j :: p(s[k])
    ensures SkipRight(p, s, j) > 0 ==> !p(s[SkipRight(p, s, j) - 1])
  {
    if j > 0 && p(s[j - 1]) {
      SkipRightSkips(p, s, j - 1);
    }
  }

  lemma {:induction false} SkipLeftIs(p: char -> bool, s: string, i: nat, k: nat)
    requires i <= k <= |s| && (forall x | i <= x < k :: p(s[x])) && (k < |s| ==> !p(s[k]))
    ensures SkipLeft(p, s, i) == k
    decreases k - i
  {
    if i < k {
      SkipLeftIs(p, s, i + 1, k);
    }
  }

  lemma {:induction false} SkipRightIs(p: char -> bool, s: string, j: nat, k: nat)
    requires k <= j <= |s| && (forall x | k <= x < j :: p(s[x])) && (k > 0 ==> !p(s[k - 1]))
    ensures SkipRight(p, s, j) == k
  {
    if k < j {
      SkipRightIs(p, s, j - 1, k);
    }
  }

  /** Trimming respects prefixes: what is left of a prefix is a prefix of what is left. */
  lemma TrimOfPrefix(p: char -> bool, s: string, t: string)
    requires s <= t
    ensures TrimLeft(p, s) <= TrimLeft(p, t)
    ensures TrimRight(p, s) <= TrimRight(p, t)
    ensures Trim(p, s) <= Trim(p, t)
  {
    TrimLeftOfPrefix(p, s, t);
    TrimRightOfPrefix(p, s, t);
    TrimRightOfPrefix(p, TrimLeft(p, s), TrimLeft(p, t));
  }

  lemma TrimLeftOfPrefix(p: char -> bool, s: string, t: string)
    requires s <= t
    ensures TrimLeft(p, s) <= TrimLeft(p, t)
  {
    var k := SkipLeft(p, s, 0);
    SkipLeftSkips(p, s, 0);
    if k < |s| {
      SkipLeftIs(p, t, 0, k);
      assert s[k..] == t[k..][..|s| - k];
    } else {
      assert TrimLeft(p, s) == [];
    }
  }

  lemma TrimRightOfPrefix(p: char -> bool, s: string, t: string)
    requires s <= t
    ensures TrimRight(p, s) <= TrimRight(p, t)
  {
    var k, m := SkipRight(p, s, |s|), SkipRight(p, t, |t|);
    SkipRightSkips(p, s, |s|);
    SkipRightSkips(p, t, |t|);
    assert k > 0 ==> s[k - 1] == t[k - 1];
    assert s[..k] == t[..m][..k];
  }

  lemma TrimRightFixed(p: char -> bool, s: string)
    requires s != [] ==> !p(s[|s| - 1])
    ensures TrimRight(p, s) == s
  {}

  lemma TrimRightPadded(p: char -> bool, s: string, pad: string)
    requires All(p, pad)
    ensures TrimRight(p, s + pad) == TrimRight(p, s)
  {
    var k := SkipRight(p, s, |s|);
    SkipRightSkips(p, s, |s|);
    forall x | k <= x < |s + pad| ensures p((s + pad)[x]) {
      assert (s + pad)[x] == if x < |s| then s[x] else pad[x - |s|];
    }
    SkipRightIs(p, s + pad, |s + pad|, k);
    assert (s + pad)[..k] == s[..k];
  }

  lemma TrimLeftPadded(p: char -> bool, pad: string, s: string)
    requires All(p, pad)
    ensures TrimLeft(p, pad + s) == TrimLeft(p, s)
  {
    var k := SkipLeft(p, s, 0);
    SkipLeftSkips(p, s, 0);
    forall x | 0 <= x < |pad| + k ensures p((pad + s)[x]) {
      assert (pad + s)[x] == if x < |pad| then pad[x] else s[x - |pad|];
    }
    SkipLeftIs(p, pad + s, 0, |pad| + k);
    assert (pad + s)[|pad| + k..] == s[k..];
  }

  /** Padding on either side is invisible to `strip`. */
  lemma StripPadded(before: string, s: string, after: string)
    requires All(IsSpace, before) && All(IsSpace, after)
    ensures Strip(before + s + after) == Strip(s)
  {
    assert before + s + after == before + (s + after);
    TrimLeftPadded(IsSpace, before, s + after);
    var k := SkipLeft(IsSpace, s, 0);
    SkipLeftSkips(IsSpace, s, 0);
    if k < |s| {
      SkipLeftIs(IsSpace, s + after, 0, k);
      assert (s + after)[k..] == s[k..] + after;
      TrimRightPadded(IsSpace, s[k..], after);
    } else {
      assert s + after + [] == s + after;
      TrimLeftPadded(IsSpace, s + after, []);
    }
  }

  lemma TrimLeftSplits(p: char -> bool, s: string) returns (before: string)
    ensures s == before + TrimLeft(p, s)
    ensures All(p, before)
    ensures TrimLeft(p, s) != [] ==> !p(TrimLeft(p, s)[0])
  {
    before := s[..SkipLeft(p, s, 0)];
    SkipLeftSkips(p, s, 0);
  }

  lemma TrimRightSplits(p: char -> bool, s: string) returns (after: string)
    ensures s == TrimRight(p, s) + after
    ensures All(p, after)
    ensures TrimRight(p, s) != [] ==> !p(TrimRight(p, s)[|TrimRight(p, s)| - 1])
  {
    after := s[SkipRight(p, s, |s|)..];
    SkipRightSkips(p, s, |s|);
  }

  /** A string is its stripped form between two runs of white space. */
  lemma StripSplits(s: string) returns (before: string, after: string)
    ensures s == before + Strip(s) + after
    ensures All(IsSpace, before) && All(IsSpace, after)
    ensures Strip(s) != [] ==> !IsSpace(Strip(s)[0]) && !IsSpace(Strip(s)[|Strip(s)| - 1])
  {
    before := TrimLeftSplits(IsSpace, s);
    var middle := TrimLeft(IsSpace, s);
    after := TrimRightSplits(IsSpace, middle);
    assert s == before + (Strip(s) + after);
    assert Strip(s) != [] ==> Strip(s)[0] == middle[0];
  }

  lemma StripIdempotent(s: string)
    ensures Strip(Strip(s)) == Strip(s)
  {
    var before, after := StripSplits(s);
    StripPadded(before, Strip(s), after);
  }

  lemma BlankIsAllSpace(s: string)
    ensures IsBlank(s) <==> All(IsSpace, s)
  {
    var before, after := StripSplits(s);
    if IsBlank(s) {
      assert s == before + after;
    }
    if All(IsSpace, s) {
      assert s + [] + [] == s;
      StripPadded(s, [], []);
    }
  }

  lemma StripFixed(s: string)
    requires s != "" && !IsSpace(s[0]) && !IsSpace(s[|s| - 1])
    ensures Strip(s) == s
  {
    SkipLeftIs(IsSpace, s, 0, 0);
    TrimRightFixed(IsSpace, s);
  }

  /** `s[:n]` */
  function Truncated(s: string, n: nat): (t: string)
    ensures t <= s && |t| <= n && (|t| < n ==> t == s)
  {
    if |s| <= n then s else s[..n]
  }
}
