/**
 * The older throw entry (definitions.py). Its constructor only strips the
 * text; validation is a separate call, and the prefix test ignores case.
 * Its SEGMENTS, IMPOSSIBLE_SCORES and option enums are the same expressions
 * as in src/game_options.py and are taken from the Options module.
 */
module Definitions {

  import opened Wrappers
  import opened PyText
  import opened Options
  import opened ThrowInput

  /** An entry as the older constructor stores it: stripped, case kept, unchecked. */
  datatype LegacyThrow = LegacyThrow(inputScore: string, inputMethod: InputMethod)

  /** `Throw(input_score, input_methode)`: never fails, keeps the letters' case. */
  function NewLegacyThrow(inputScore: string, inputMethod: InputMethod := ThreeDarts): (t: LegacyThrow)
    ensures t.inputScore == Strip(inputScore)
    ensures Stripped(t.inputScore) && t.inputMethod == inputMethod
  {
    StripProperties(inputScore);
    LegacyThrow(Strip(inputScore), inputMethod)
  }

  /** The older constructor drops the blanks but keeps the capitals, and
      checks single darts unless told otherwise. */
  lemma LegacyKeepsCase()
    ensures NewLegacyThrow(" D20 ") == LegacyThrow("D20", ThreeDarts)
  {
    assert TrimLeft(" D20 ") == "D20 " by {
      assert " D20 "[1..] == "D20 ";
    }
    assert TrimRight("D20 ") == "D20" by {
      assert "D20 "[..3] == "D20";
    }
  }

  /** `is_valid_input` of the older class: the prefix is compared in lower case. */
  function LegacyValidateInput(t: LegacyThrow): Outcome<ThrowError> {
    var s := t.inputScore;
    var count := TokenCount(s);
    if count != 1 then Fail(DartCount(count))
    else if IsDecimal(s) then CheckNumber(s, false, t.inputMethod)
    else if t.inputMethod == Round then Fail(NotDecimal)
    else if !StartsWith(Lower(s), 'd') && !StartsWith(Lower(s), 't') then Fail(UnknownPrefix)
    else
      var (prefix, digits) := GetAndStripPrefix(s);
      CheckNumber(digits, Lower(prefix) == "t", t.inputMethod)
  }

  /** Wherever `calc_score` calls `int`, it is handed plain digits. */
  predicate IntArgumentsDecimal(s: string) {
    || IsDecimal(s)
    || !(StartsWith(Lower(s), 'd') || StartsWith(Lower(s), 't'))
    || IsDecimal(s[1..])
  }

  /** `calc_score` of the older class; it returns `None` for text that is
      neither a number nor `d`/`t` (either case) followed by one. */
  function LegacyCalcScore(t: LegacyThrow): (r: Option<int>)
    requires IntArgumentsDecimal(t.inputScore)
    ensures r.None? <==> !IsDecimal(t.inputScore) && !StartsWith(Lower(t.inputScore), 'd')
                         && !StartsWith(Lower(t.inputScore), 't')
  {
    var s := t.inputScore;
    if IsDecimal(s) then Some(DecimalValue(s))
    else if StartsWith(Lower(s), 'd') then Some(DecimalValue(s[1..]) * 2)
    else if StartsWith(Lower(s), 't') then Some(DecimalValue(s[1..]) * 3)
    else None
  }

  /** The older validator on a text agrees with the newer one on its
      lower-case form. */
  lemma LegacyValidationAgreesOn(s: string, m: InputMethod)
    ensures LegacyValidateInput(LegacyThrow(s, m)) == ValidateInput(Lower(s), m)
  {
    var l := Lower(s);
    LowerTokenCount(s);
    LowerKeepsClasses(s);
    if IsDecimal(s) {
      LowerDigits(s);
    } else if |s| > 0 {
      LowerHead(s);
      CheckNumberLower(s[1..], Lower(s[..1]) == "t", m);
    }
  }

  /** On every input the older validator reaches the same verdict, with the
      same reason, as the newer one does after lower-casing. */
  lemma LegacyValidationAgrees(raw: string, m: InputMethod)
    ensures LegacyValidateInput(NewLegacyThrow(raw, m)) == ValidateInput(Normalize(raw), m)
  {
    LegacyValidationAgreesOn(Strip(raw), m);
  }

  /** Where the newer class accepts the lower-case form of a text, the
      older class scores the text itself the same way. */
  lemma LegacyScoreAgreesOn(s: string, m: InputMethod)
    requires Accepts(Lower(s), m)
    ensures IntArgumentsDecimal(s)
    ensures LegacyCalcScore(LegacyThrow(s, m)) == Some(CalcScore(Throw(Lower(s), m)))
  {
    LowerKeepsClasses(s);
    if IsDecimal(s) {
      LegacyNumberScore(s, m);
    } else {
      LegacyPrefixScore(s, m);
    }
  }

  /** A plain number scores its value in both classes. */
  lemma LegacyNumberScore(s: string, m: InputMethod)
    requires IsDecimal(s) && Accepts(Lower(s), m)
    ensures IntArgumentsDecimal(s)
    ensures LegacyCalcScore(LegacyThrow(s, m)) == Some(CalcScore(Throw(Lower(s), m)))
  {
    LowerDigits(s);
  }

  /** A `d`/`t` entry, in either case, scores the same multiple in both classes. */
  lemma LegacyPrefixScore(s: string, m: InputMethod)
    requires !IsDecimal(s) && !IsDecimal(Lower(s)) && Accepts(Lower(s), m)
    ensures IntArgumentsDecimal(s)
    ensures LegacyCalcScore(LegacyThrow(s, m)) == Some(CalcScore(Throw(Lower(s), m)))
  {
    var l := Lower(s);
    assert m == ThreeDarts && |l| >= 2 && (l[0] == 'd' || l[0] == 't') && IsDecimal(l[1..]);
    var d := s[1..];
    assert l[1..] == d by {
      LowerKeepsClasses(s);
      LowerKeepsClasses(d);
      LowerDigits(d);
    }
    assert GetAndStripPrefix(l) == ([l[0]], d) by {
      assert l[..1] == [l[0]];
    }
    var n := DecimalValue(d);
    PrefixedScore(l, l[0], d, n);
    var modern := CalcScore(Throw(l, m));
    var legacy := LegacyCalcScore(LegacyThrow(s, m));
    if l[0] == 'd' {
      assert modern == 2 * n;
      assert legacy == Some(n * 2);
      assert n * 2 == modern;
    } else {
      assert modern == 3 * n;
      assert legacy == Some(n * 3);
      assert n * 3 == modern;
    }
  }

  /** On every accepted input both classes compute the same score. */
  lemma LegacyScoreAgrees(raw: string, m: InputMethod)
    requires Accepts(Normalize(raw), m)
    ensures IntArgumentsDecimal(NewLegacyThrow(raw, m).inputScore)
    ensures LegacyCalcScore(NewLegacyThrow(raw, m)) == Some(CalcScore(Throw(Normalize(raw), m)))
  {
    LegacyScoreAgreesOn(Strip(raw), m);
  }

  /** An upper-case prefix before `str(n)` normalises to the lower-case prefix. */
  lemma UpperPrefixNormalizes(c: char, n: nat)
    requires c == 'D' || c == 'T'
    ensures Strip([c] + Render(n)) == [c] + Render(n)
    ensures Lower([c] + Render(n)) == [LowerChar(c)] + Render(n)
  {
    var d := Render(n);
    var raw := [c] + d;
    assert Stripped(raw);
    StripStripped(raw);
    LowerDigits(d);
    LowerKeepsClasses(raw);
    assert Lower(raw)[1..] == d;
  }

  /** Upper-case prefixes are accepted by the older class just like
      lower-case ones, and refused for the same segments. */
  lemma LegacyUpperCasePrefix(c: char, n: nat)
    requires c == 'D' || c == 'T'
    ensures LegacyValidateInput(NewLegacyThrow([c] + Render(n), ThreeDarts)) ==
      if n in SEGMENTS && !(c == 'T' && n == 25) then Pass else Fail(NotASegment(n))
  {
    var low := [LowerChar(c)] + Render(n);
    UpperPrefixNormalizes(c, n);
    RenderShape(n);
    PrefixedShape(LowerChar(c), n);
    ValidatePrefixed(low, LowerChar(c), Render(n), n);
    LegacyValidationAgreesOn([c] + Render(n), ThreeDarts);
  }

  /** The older class scores `D` and `T` entries two and three times the segment. */
  lemma LegacyUpperCaseScore(c: char, n: nat)
    requires c == 'D' || c == 'T'
    requires n in SEGMENTS && !(c == 'T' && n == 25)
    ensures NewLegacyThrow([c] + Render(n), ThreeDarts).inputScore == [c] + Render(n)
    ensures IntArgumentsDecimal([c] + Render(n))
    ensures LegacyCalcScore(NewLegacyThrow([c] + Render(n), ThreeDarts)) == Some((if c == 'D' then 2 else 3) * n)
  {
    var low := [LowerChar(c)] + Render(n);
    UpperPrefixNormalizes(c, n);
    PrefixedDart(LowerChar(c), n);
    assert Accepts(low, ThreeDarts) by {
      PrefixedShape(LowerChar(c), n);
    }
    LegacyScoreAgreesOn([c] + Render(n), ThreeDarts);
  }
}
