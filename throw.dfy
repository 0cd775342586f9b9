/**
 * One entered dart or round total (src/general/throw.py): the text is
 * stripped and lower-cased, validated against the input method, and scored.
 */
module ThrowInput {

  import opened Wrappers
  import opened PyText
  import opened Options

  /** Why an entry was refused: one case per `raise ValueError` site, except
      that the two "is not a segment" raises (off the board, triple 25) share
      `NotASegment`, as they share their message. */
  datatype ThrowError =
    | DartCount(tokens: nat)      // not exactly one whitespace-separated token
    | NotDecimal                  // a round total that is not a plain number
    | UnknownPrefix               // a single dart that starts with neither `d` nor `t`
    | ImpossibleScore(total: nat) // a round total above 180 or in IMPOSSIBLE_SCORES
    | NotASegment(segment: nat)   // not on the board, or a triple bullseye
    | NoPattern                   // what follows the prefix is not a plain number

  /** A validated entry: its normalised text and the input method it was checked under. */
  datatype Throw = Throw(inputScore: string, inputMethod: InputMethod)

  /** What the constructor does to the text before anything else. */
  function Normalize(raw: string): string {
    Lower(Strip(raw))
  }

  predicate StartsWith(s: string, c: char) {
    |s| > 0 && s[0] == c
  }

  /** `get_and_strip_prefix`: `(s[:1], s[1:])`, both empty for an empty string. */
  function GetAndStripPrefix(s: string): (r: (string, string))
    ensures r.0 + r.1 == s
    ensures |r.0| == if s == [] then 0 else 1
  {
    if s == [] then ("", "") else (s[..1], s[1..])
  }

  /** `is_valid_input`: the checks in the order the source makes them. */
  function ValidateInput(s: string, m: InputMethod): Outcome<ThrowError> {
    var count := TokenCount(s);
    if count != 1 then Fail(DartCount(count))
    else if IsDecimal(s) then CheckNumber(s, false, m)
    else if m == Round then Fail(NotDecimal)
    else if !StartsWith(s, 'd') && !StartsWith(s, 't') then Fail(UnknownPrefix)
    else
      var (prefix, digits) := GetAndStripPrefix(s);
      CheckNumber(digits, prefix == "t", m)
  }

  /** The second half of `is_valid_input`: what is left after the prefix
      must be a number, within the round limits or on the board; `triple`
      tells whether the prefix was `t`. */
  function CheckNumber(digits: string, triple: bool, m: InputMethod): Outcome<ThrowError> {
    if !IsDecimal(digits) then Fail(NoPattern)
    else
      var n := DecimalValue(digits);
      match m
      case Round =>
        if n in IMPOSSIBLE_SCORES || n > 180 then Fail(ImpossibleScore(n)) else Pass
      case ThreeDarts =>
        if n !in SEGMENTS then Fail(NotASegment(n))
        else if triple && n == 25 then Fail(NotASegment(n))
        else Pass
  }

  /** The number check does not depend on the case of letters. */
  lemma CheckNumberLower(digits: string, triple: bool, m: InputMethod)
    ensures CheckNumber(Lower(digits), triple, m) == CheckNumber(digits, triple, m)
  {
    LowerKeepsClasses(digits);
    if AllDigits(digits) {
      LowerDigits(digits);
    }
  }

  /** The legal entries, stated directly: a round total is a plain number of
      at most 180 that is not impossible; a single dart is a board segment,
      written bare or after `d` or `t`, and never a triple bullseye. */
  predicate Accepts(s: string, m: InputMethod) {
    match m
    case Round =>
      IsDecimal(s) && DecimalValue(s) <= 180 && DecimalValue(s) !in IMPOSSIBLE_SCORES
    case ThreeDarts =>
      || (IsDecimal(s) && DecimalValue(s) in SEGMENTS)
      || (&& |s| >= 2 && (s[0] == 'd' || s[0] == 't') && IsDecimal(s[1..])
          && DecimalValue(s[1..]) in SEGMENTS
          && !(s[0] == 't' && DecimalValue(s[1..]) == 25))
  }

  /** The validator passes exactly the entries `Accepts` describes, whether
      or not the text was normalised first. */
  lemma ValidateAccepts(s: string, m: InputMethod)
    ensures ValidateInput(s, m) == Pass <==> Accepts(s, m)
  {
    if Accepts(s, m) {
      if IsDecimal(s) {
        NoSpaceOneToken(s);
      } else {
        assert NoSpace(s) by {
          assert forall i :: 1 <= i < |s| ==> s[1..][i - 1] == s[i];
        }
        NoSpaceOneToken(s);
      }
    }
  }

  /** `Throw(input_score, input_methode)`: normalise, then validate; a
      refused entry builds no Throw. */
  function NewThrow(inputScore: string, inputMethod: InputMethod := ThreeDarts): (r: Result<Throw, ThrowError>)
    ensures r.Success? <==> Accepts(Normalize(inputScore), inputMethod)
    ensures r.Success? ==> r.value == Throw(Normalize(inputScore), inputMethod)
    ensures r.Failure? ==> ValidateInput(Normalize(inputScore), inputMethod) == Fail(r.error)
  {
    var s := Normalize(inputScore);
    ValidateAccepts(s, inputMethod);
    match ValidateInput(s, inputMethod)
    case Pass => Success(Throw(s, inputMethod))
    case Fail(e) => Failure(e)
  }

  /** `calc_score`, defined on the entries the constructor lets through. */
  function CalcScore(t: Throw): nat
    requires Accepts(t.inputScore, t.inputMethod)
  {
    if IsDecimal(t.inputScore) then DecimalValue(t.inputScore)
    else
      var (prefix, digits) := GetAndStripPrefix(t.inputScore);
      if prefix == "d" then 2 * DecimalValue(digits) else 3 * DecimalValue(digits)
  }

  /** The segment number an accepted single-dart entry names. */
  function Segment(s: string): nat
    requires Accepts(s, ThreeDarts)
  {
    if IsDecimal(s) then DecimalValue(s) else DecimalValue(s[1..])
  }

  /** The ring an accepted single-dart entry names: single, double or triple. */
  function Multiplier(s: string): nat
    requires Accepts(s, ThreeDarts)
  {
    if IsDecimal(s) then 1 else if s[0] == 'd' then 2 else 3
  }

  /** Normalising is idempotent, so the constructor treats " D20 " exactly
      like "d20": only the normalised text matters. */
  lemma NormalizeIdempotent(raw: string)
    ensures Normalize(Normalize(raw)) == Normalize(raw)
    ensures NewThrow(Normalize(raw), ThreeDarts) == NewThrow(raw, ThreeDarts)
    ensures NewThrow(Normalize(raw), Round) == NewThrow(raw, Round)
  {
    var s := Strip(raw);
    StripProperties(raw);
    LowerKeepsClasses(s);
    assert Stripped(Lower(s));
    StripStripped(Lower(s));
    LowerIdempotent(s);
  }

  /** The score of an accepted single dart is the segment times the ring,
      with the segment on the board, never a triple bullseye (75), and at
      most 60: it is always the value of one dart. */
  lemma ThreeDartsScore(t: Throw)
    requires t.inputMethod == ThreeDarts && Accepts(t.inputScore, ThreeDarts)
    ensures Segment(t.inputScore) in SEGMENTS
    ensures CalcScore(t) == Multiplier(t.inputScore) * Segment(t.inputScore)
    ensures Multiplier(t.inputScore) == 3 ==> Segment(t.inputScore) != 25
    ensures 1 <= CalcScore(t) <= 60 && CalcScore(t) != 75
    ensures IsDartScore(CalcScore(t))
  {
    var n := Segment(t.inputScore);
    var v := CalcScore(t);
    InSegments(n);
    var mult := Multiplier(t.inputScore);
    if mult == 1 {
      assert v == n;
    } else if mult == 2 {
      assert v == 2 * n && v / 2 == n;
    } else {
      assert v == 3 * n && v / 3 == n;
    }
  }

  /** The score of an accepted round total is the number entered, at most
      180 and never one of the impossible totals. */
  lemma RoundScore(t: Throw)
    requires t.inputMethod == Round && Accepts(t.inputScore, Round)
    ensures CalcScore(t) == DecimalValue(t.inputScore)
    ensures CalcScore(t) <= 180 && CalcScore(t) !in IMPOSSIBLE_SCORES
  {
  }

  /** Entering three single darts never adds up to a total the round mode
      would refuse as impossible. */
  lemma ThreeThrowsNeverImpossible(a: Throw, b: Throw, c: Throw)
    requires a.inputMethod == ThreeDarts && Accepts(a.inputScore, ThreeDarts)
    requires b.inputMethod == ThreeDarts && Accepts(b.inputScore, ThreeDarts)
    requires c.inputMethod == ThreeDarts && Accepts(c.inputScore, ThreeDarts)
    ensures CalcScore(a) + CalcScore(b) + CalcScore(c) <= 180
    ensures CalcScore(a) + CalcScore(b) + CalcScore(c) !in IMPOSSIBLE_SCORES
  {
    ThreeDartsScore(a);
    ThreeDartsScore(b);
    ThreeDartsScore(c);
    ImpossibleScoresUnreachable(CalcScore(a), CalcScore(b), CalcScore(c));
  }

  /** Every possible round total, typed as a number, is accepted and
      scores itself. */
  lemma RoundTotalsAccepted(n: nat)
    requires n <= 180 && n !in IMPOSSIBLE_SCORES
    ensures NewThrow(Render(n), Round).Success?
    ensures CalcScore(NewThrow(Render(n), Round).value) == n
  {
    var s := Render(n);
    StripStripped(s);
    LowerDigits(s);
    RenderRoundTrip(n);
  }

  /** Round totals above 180 or in IMPOSSIBLE_SCORES are refused with the
      total as the reason. */
  lemma RoundTotalsRefused(n: nat)
    requires n > 180 || n in IMPOSSIBLE_SCORES
    ensures NewThrow(Render(n), Round) == Failure(ImpossibleScore(n))
  {
    var s := Render(n);
    StripStripped(s);
    LowerDigits(s);
    RenderRoundTrip(n);
    NoSpaceOneToken(s);
  }

  /** The spelling of a single dart: bare for a single, `d` or `t` before
      the segment for a double or triple. */
  function Spell(n: nat, ring: nat): string
    requires 1 <= ring <= 3
  {
    (if ring == 1 then "" else if ring == 2 then "d" else "t") + Render(n)
  }

  /** A bare number typed in its shortest form is already normalised,
      is one token, and reads back as itself. */
  lemma RenderShape(n: nat)
    ensures Normalize(Render(n)) == Render(n)
    ensures TokenCount(Render(n)) == 1
    ensures DecimalValue(Render(n)) == n
  {
    var d := Render(n);
    RenderRoundTrip(n);
    LowerDigits(d);
    StripStripped(d);
    NoSpaceOneToken(d);
  }

  /** The same for a number after a lower-case `d` or `t` prefix. */
  lemma PrefixedShape(c: char, n: nat)
    requires c == 'd' || c == 't'
    ensures Normalize([c] + Render(n)) == [c] + Render(n)
    ensures TokenCount([c] + Render(n)) == 1
    ensures !IsDecimal([c] + Render(n))
    ensures GetAndStripPrefix([c] + Render(n)) == ([c], Render(n))
  {
    PrefixedDigits(c, Render(n));
  }

  /** The same for any digit string after the prefix. */
  lemma PrefixedDigits(c: char, d: string)
    requires c == 'd' || c == 't'
    requires IsDecimal(d)
    ensures Normalize([c] + d) == [c] + d
    ensures TokenCount([c] + d) == 1
    ensures !IsDecimal([c] + d)
    ensures GetAndStripPrefix([c] + d) == ([c], d)
  {
    var s := [c] + d;
    assert s[1..] == d;
    assert s[..1] == [c];
    assert !IsDigit(s[0]);
    PrefixedNormal(c, d);
    assert NoSpace(s) by {
      assert forall i :: 1 <= i < |s| ==> s[i] == d[i - 1];
    }
    NoSpaceOneToken(s);
  }

  lemma PrefixedNormal(c: char, d: string)
    requires c == 'd' || c == 't'
    requires IsDecimal(d)
    ensures Normalize([c] + d) == [c] + d
  {
    var s := [c] + d;
    assert s[1..] == d;
    assert Stripped(s);
    StripStripped(s);
    LowerKeepsClasses(s);
    LowerDigits(d);
    assert Lower(s) == s;
  }

  /** `Spell` puts the ring's prefix in front of `str(n)`. */
  lemma SpellPrefix(n: nat, ring: nat)
    requires 1 <= ring <= 3
    ensures ring == 1 ==> Spell(n, ring) == Render(n)
    ensures ring == 2 ==> Spell(n, ring) == ['d'] + Render(n)
    ensures ring == 3 ==> Spell(n, ring) == ['t'] + Render(n)
  {
  }

  /** A bare segment number is a legal single and scores itself; any other
      bare number is refused as not a segment. */
  lemma BareDart(n: nat)
    ensures n in SEGMENTS ==> NewThrow(Render(n), ThreeDarts) == Success(Throw(Render(n), ThreeDarts))
    ensures n in SEGMENTS ==> CalcScore(Throw(Render(n), ThreeDarts)) == n
    ensures n !in SEGMENTS ==> NewThrow(Render(n), ThreeDarts) == Failure(NotASegment(n))
  {
    RenderShape(n);
  }

  /** A segment number after `d` or `t` is a legal double or triple, except
      the triple bullseye, and scores two or three times the segment. */
  lemma PrefixedDart(c: char, n: nat)
    requires c == 'd' || c == 't'
    ensures var legal := n in SEGMENTS && !(c == 't' && n == 25);
      && (legal ==> NewThrow([c] + Render(n), ThreeDarts) == Success(Throw([c] + Render(n), ThreeDarts)))
      && (!legal ==> NewThrow([c] + Render(n), ThreeDarts) == Failure(NotASegment(n)))
    ensures n in SEGMENTS && !(c == 't' && n == 25) ==>
      CalcScore(Throw([c] + Render(n), ThreeDarts)) == (if c == 'd' then 2 else 3) * n
  {
    var d := Render(n);
    var s := [c] + d;
    RenderShape(n);
    PrefixedShape(c, n);
    ValidatePrefixed(s, c, d, n);
    var legal := n in SEGMENTS && !(c == 't' && n == 25);
    assert Normalize(s) == s;
    assert Accepts(s, ThreeDarts) <==> legal by {
      ValidateAccepts(s, ThreeDarts);
    }
    if legal {
      PrefixedScore(s, c, d, n);
    }
  }

  /** The score of an accepted `d`/`t` entry, given its parts. */
  lemma PrefixedScore(s: string, c: char, d: string, n: nat)
    requires c == 'd' || c == 't'
    requires Accepts(s, ThreeDarts) && !IsDecimal(s)
    requires GetAndStripPrefix(s) == ([c], d) && IsDecimal(d) && DecimalValue(d) == n
    ensures CalcScore(Throw(s, ThreeDarts)) == (if c == 'd' then 2 else 3) * n
  {
    assert ([c] == "d") == (c == 'd');
  }

  /** The validator on a one-token entry `c` + digits, given its parts. */
  lemma ValidatePrefixed(s: string, c: char, d: string, n: nat)
    requires c == 'd' || c == 't'
    requires TokenCount(s) == 1 && !IsDecimal(s) && |s| > 0 && s[0] == c
    requires GetAndStripPrefix(s) == ([c], d) && IsDecimal(d) && DecimalValue(d) == n
    ensures ValidateInput(s, ThreeDarts) ==
      if n in SEGMENTS && !(c == 't' && n == 25) then Pass else Fail(NotASegment(n))
  {
    assert ([c] == "t") == (c == 't');
  }

  /** Every legal single dart, spelled out, is accepted and scores segment
      times ring. */
  lemma DartsAccepted(n: nat, ring: nat)
    requires n in SEGMENTS && 1 <= ring <= 3 && !(n == 25 && ring == 3)
    ensures NewThrow(Spell(n, ring), ThreeDarts) == Success(Throw(Spell(n, ring), ThreeDarts))
    ensures CalcScore(Throw(Spell(n, ring), ThreeDarts)) == ring * n
  {
    SpellPrefix(n, ring);
    if ring == 1 {
      BareDart(n);
    } else {
      PrefixedDart(if ring == 2 then 'd' else 't', n);
    }
  }

  /** A spelled-out dart off the board (0, 21..24, above 25) or a triple
      bullseye is refused, naming the segment. */
  lemma OffBoardRefused(n: nat, ring: nat)
    requires 1 <= ring <= 3
    requires n !in SEGMENTS || (n == 25 && ring == 3)
    ensures NewThrow(Spell(n, ring), ThreeDarts) == Failure(NotASegment(n))
  {
    SpellPrefix(n, ring);
    if ring == 1 {
      BareDart(n);
    } else {
      PrefixedDart(if ring == 2 then 'd' else 't', n);
    }
  }

  /** An empty or all-blank entry is zero tokens and is refused, in either mode. */
  lemma BlankRefused(raw: string, m: InputMethod)
    requires forall k :: 0 <= k < |raw| ==> IsSpace(raw[k])
    ensures NewThrow(raw, m) == Failure(DartCount(0))
  {
    StripProperties(raw);
  }

  /** A stripped text without capitals is its own normal form. */
  lemma NormalizeFixed(s: string)
    requires Stripped(s)
    requires forall i :: 0 <= i < |s| ==> LowerChar(s[i]) == s[i]
    ensures Normalize(s) == s
  {
    StripStripped(s);
    assert Lower(s) == s;
  }

  /** Two darts typed as one entry are refused as two tokens. */
  lemma TwoTokensRefused()
    ensures NewThrow("t 20", ThreeDarts) == Failure(DartCount(2))
  {
    NormalizeFixed("t 20");
    TwoTokens();
  }

  lemma TwoTokens()
    ensures TokenCount("t 20") == 2
  {
    var s := "t 20";
    assert s[1..] == " 20" && s[2..] == "20" && s[3..] == "0" && s[4..] == "";
  }

  /** A lone prefix has no number after it and does not match the pattern. */
  lemma LonePrefixRefused()
    ensures NewThrow("d", ThreeDarts) == Failure(NoPattern)
  {
    NormalizeFixed("d");
    LonePrefixInvalid();
  }

  lemma LonePrefixInvalid()
    ensures ValidateInput("d", ThreeDarts) == Fail(NoPattern)
  {
    var s := "d";
    NoSpaceOneToken(s);
    assert !IsDigit(s[0]);
    assert s[..1] == s && s[1..] == [];
  }

  /** A letter other than `d` or `t` is not a prefix. */
  lemma UnknownPrefixRefused()
    ensures NewThrow("x5", ThreeDarts) == Failure(UnknownPrefix)
  {
    NormalizeFixed("x5");
    UnknownPrefixInvalid();
  }

  lemma UnknownPrefixInvalid()
    ensures ValidateInput("x5", ThreeDarts) == Fail(UnknownPrefix)
  {
    var s := "x5";
    NoSpaceOneToken(s);
    assert !IsDigit(s[0]);
    assert !StartsWith(s, 'd') && !StartsWith(s, 't');
  }

  /** In round mode any prefix is refused: only plain numbers are totals. */
  lemma RoundRefusesPrefix(c: char, n: nat)
    requires c == 'd' || c == 't'
    ensures NewThrow([c] + Render(n), Round) == Failure(NotDecimal)
  {
    PrefixedShape(c, n);
  }

  /** Surrounding blanks and capitals make no difference: " D20 " is "d20". */
  lemma PaddedUpperCase(m: InputMethod)
    ensures Normalize(" D20 ") == "d20"
    ensures NewThrow(" D20 ", m) == NewThrow("d20", m)
  {
    PaddedNormalize();
    NormalizeIdempotent(" D20 ");
  }

  lemma PaddedNormalize()
    ensures Normalize(" D20 ") == "d20"
  {
    assert TrimLeft(" D20 ") == "D20 " by {
      assert " D20 "[1..] == "D20 ";
    }
    assert TrimRight("D20 ") == "D20" by {
      assert "D20 "[..3] == "D20";
    }
    assert Lower("D20") == "d20";
  }
}
