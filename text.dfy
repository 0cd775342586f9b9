/**
 * The Python `str` built-ins the throw parser relies on (`strip`, `lower`,
 * `split`, `isdecimal`, `int`, `str`), restricted to ASCII text.
 */
module PyText {

  /** `c.isspace()` on ASCII: tab, line feed, vertical tab, form feed,
      carriage return, the separators 0x1C-0x1F and the space. */
  predicate IsSpace(c: char) {
    var k := c as int;
    k == 32 || 9 <= k <= 13 || 28 <= k <= 31
  }

  predicate IsDigit(c: char) {
    '0' <= c <= '9'
  }

  predicate AllDigits(s: string) {
    forall i :: 0 <= i < |s| ==> IsDigit(s[i])
  }

  /** `s.isdecimal()`: non-empty and made of ASCII digits only. */
  predicate IsDecimal(s: string) {
    |s| > 0 && AllDigits(s)
  }

  predicate NoSpace(s: string) {
    forall i :: 0 <= i < |s| ==> !IsSpace(s[i])
  }

  function DigitChar(d: nat): (c: char)
    requires d < 10
    ensures IsDigit(c) && c as int - '0' as int == d
  {
    ('0' as int + d) as char
  }

  /** `int(s)` for a string of decimal digits (leading zeros allowed). */
  function DecimalValue(s: string): nat
    requires AllDigits(s)
    decreases |s|
  {
    if s == [] then 0
    else 10 * DecimalValue(s[..|s| - 1]) + (s[|s| - 1] as int - '0' as int)
  }

  /** `str(n)`: the shortest decimal spelling of a natural number. */
  function Render(n: nat): (s: string)
    ensures IsDecimal(s)
    ensures |s| > 1 ==> s[0] != '0'
    decreases n
  {
    if n < 10 then [DigitChar(n)] else Render(n / 10) + [DigitChar(n % 10)]
  }

  /** `int(str(n)) == n`. */
  lemma {:induction false} RenderRoundTrip(n: nat)
    ensures DecimalValue(Render(n)) == n
    decreases n
  {
    if n >= 10 {
      var s := Render(n);
      assert s[..|s| - 1] == Render(n / 10);
      RenderRoundTrip(n / 10);
    }
  }

  /** `s.lstrip()`: drops the leading whitespace and nothing else. */
  function TrimLeft(s: string): (r: string)
    ensures |r| <= |s| && r == s[|s| - |r|..]
    ensures forall k :: 0 <= k < |s| - |r| ==> IsSpace(s[k])
    ensures r == [] || !IsSpace(r[0])
    decreases |s|
  {
    if |s| > 0 && IsSpace(s[0]) then TrimLeft(s[1..]) else s
  }

  /** `s.rstrip()`: drops the trailing whitespace and nothing else. */
  function TrimRight(s: string): (r: string)
    ensures |r| <= |s| && r == s[..|r|]
    ensures forall k :: |r| <= k < |s| ==> IsSpace(s[k])
    ensures r == [] || !IsSpace(r[|r| - 1])
    decreases |s|
  {
    if |s| > 0 && IsSpace(s[|s| - 1]) then TrimRight(s[..|s| - 1]) else s
  }

  /** `s.strip()`. */
  function Strip(s: string): string {
    TrimRight(TrimLeft(s))
  }

  predicate Stripped(s: string) {
    s == [] || (!IsSpace(s[0]) && !IsSpace(s[|s| - 1]))
  }

  /** The result of `strip` has no surrounding whitespace, is empty exactly
      when the input is all whitespace, and stripping again changes nothing. */
  lemma StripProperties(s: string)
    ensures Stripped(Strip(s))
    ensures Strip(s) == [] <==> forall k :: 0 <= k < |s| ==> IsSpace(s[k])
    ensures Strip(Strip(s)) == Strip(s)
  {
    var l := TrimLeft(s);
    var r := TrimRight(l);
    if r != [] {
      assert r[0] == l[0];
      assert !IsSpace(r[0]);
      assert s[|s| - |l|] == l[0];
    }
  }

  /** A string without surrounding whitespace is left alone by `strip`. */
  lemma StripStripped(s: string)
    requires Stripped(s)
    ensures Strip(s) == s
  {
  }

  function LowerChar(c: char): char {
    if 'A' <= c <= 'Z' then (c as int + 32) as char else c
  }

  /** `s.lower()` on ASCII letters; every other character is kept. */
  function Lower(s: string): (r: string)
    ensures |r| == |s|
    ensures forall i :: 0 <= i < |s| ==> r[i] == LowerChar(s[i])
  {
    if s == [] then [] else [LowerChar(s[0])] + Lower(s[1..])
  }

  /** Lower-casing twice is lower-casing once. */
  lemma LowerIdempotent(s: string)
    ensures Lower(Lower(s)) == Lower(s)
  {
    var t := Lower(s);
    assert forall i :: 0 <= i < |s| ==> Lower(t)[i] == t[i];
  }

  /** Lower-casing keeps whitespace and digits where they are, and it
      commutes with dropping the first character. */
  lemma LowerKeepsClasses(s: string)
    ensures forall i :: 0 <= i < |s| ==> (IsSpace(Lower(s)[i]) <==> IsSpace(s[i]))
    ensures forall i :: 0 <= i < |s| ==> (IsDigit(Lower(s)[i]) <==> IsDigit(s[i]))
    ensures IsDecimal(Lower(s)) <==> IsDecimal(s)
    ensures |s| > 0 ==> Lower(s)[1..] == Lower(s[1..])
  {
    forall i | 0 <= i < |s|
      ensures IsSpace(Lower(s)[i]) <==> IsSpace(s[i])
      ensures IsDigit(Lower(s)[i]) <==> IsDigit(s[i])
    {
      LowerCharKeeps(s[i]);
    }
  }

  /** Lower-casing one character keeps whether it is whitespace or a digit. */
  lemma LowerCharKeeps(c: char)
    ensures IsSpace(LowerChar(c)) <==> IsSpace(c)
    ensures IsDigit(LowerChar(c)) <==> IsDigit(c)
  {
  }

  /** The first character of the lower-case form is the lower-case first character. */
  lemma LowerHead(s: string)
    requires |s| > 0
    ensures Lower(s)[..1] == Lower(s[..1]) == [LowerChar(s[0])]
  {
  }

  /** A digit string is its own lower-case form. */
  lemma LowerDigits(s: string)
    requires AllDigits(s)
    ensures Lower(s) == s
  {
  }

  /** Runs of non-whitespace characters in `s` that begin in `s`; `afterSpace`
      tells whether the character before `s` was whitespace (or absent). */
  function RunStarts(s: string, afterSpace: bool): nat
    decreases |s|
  {
    if s == [] then 0
    else (if afterSpace && !IsSpace(s[0]) then 1 else 0) + RunStarts(s[1..], IsSpace(s[0]))
  }

  /** `len(s.split())`: the number of whitespace-separated tokens. */
  function TokenCount(s: string): nat {
    RunStarts(s, true)
  }

  lemma {:induction false} NoSpaceNoNewRun(s: string)
    requires NoSpace(s)
    ensures RunStarts(s, false) == 0
    decreases |s|
  {
    if s != [] {
      NoSpaceNoNewRun(s[1..]);
    }
  }

  lemma {:induction false} NonSpaceStartsRun(s: string, j: nat)
    requires j < |s| && !IsSpace(s[j])
    ensures RunStarts(s, true) >= 1
    decreases |s|
  {
    if IsSpace(s[0]) {
      NonSpaceStartsRun(s[1..], j - 1);
    }
  }

  lemma {:induction false} SpaceThenNonSpace(s: string, k: nat, j: nat)
    requires k < j < |s| && IsSpace(s[k]) && !IsSpace(s[j])
    ensures RunStarts(s, false) >= 1
    decreases |s|
  {
    if IsSpace(s[0]) {
      NonSpaceStartsRun(s[1..], j - 1);
    } else {
      SpaceThenNonSpace(s[1..], k - 1, j - 1);
    }
  }

  /** A non-empty string without whitespace is exactly one token. */
  lemma NoSpaceOneToken(s: string)
    requires s != [] && NoSpace(s)
    ensures TokenCount(s) == 1
  {
    NoSpaceNoNewRun(s[1..]);
  }

  /** For a stripped string, `len(s.split()) == 1` holds exactly when the
      string is non-empty and contains no whitespace. */
  lemma OneTokenIffNoSpace(s: string)
    requires Stripped(s)
    ensures TokenCount(s) == 1 <==> s != [] && NoSpace(s)
  {
    if s != [] && NoSpace(s) {
      NoSpaceOneToken(s);
    } else if s != [] {
      var k :| 0 <= k < |s| && IsSpace(s[k]);
      assert 0 < k < |s| - 1;
      SpaceThenNonSpace(s[1..], k - 1, |s| - 2);
    }
  }

  lemma {:induction false} SameSpacesSameRuns(a: string, b: string, afterSpace: bool)
    requires |a| == |b|
    requires forall i :: 0 <= i < |a| ==> (IsSpace(a[i]) <==> IsSpace(b[i]))
    ensures RunStarts(a, afterSpace) == RunStarts(b, afterSpace)
    decreases |a|
  {
    if a != [] {
      SameSpacesSameRuns(a[1..], b[1..], IsSpace(a[0]));
    }
  }

  /** Lower-casing splits into the same number of tokens. */
  lemma LowerTokenCount(s: string)
    ensures TokenCount(Lower(s)) == TokenCount(s)
  {
    LowerKeepsClasses(s);
    SameSpacesSameRuns(Lower(s), s, true);
  }
}
