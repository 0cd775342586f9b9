/**
 * Game constants and the option enums of an X01 match
 * (src/game_options.py; definitions.py declares the same ones),
 * plus the option record the scoreboard and the game loop read.
 */
module Options {

  import opened Wrappers

  /** The list comprehension `[x+1 for x in range(n) if x+1 <= 20 or x+1 == 25]`. */
  function SegmentsBelow(n: nat): seq<int>
    decreases n
  {
    if n == 0 then []
    else SegmentsBelow(n - 1) + (if n <= 20 || n == 25 then [n] else [])
  }

  /** The scoring segments of a dartboard. */
  const SEGMENTS: seq<int> := SegmentsBelow(25)

  /** Round totals that no three darts can reach. */
  const IMPOSSIBLE_SCORES: seq<int> := [163, 166, 169, 172, 173, 175, 176, 178, 179]

  /** Remaining scores from which no two-dart finish exists; no shown code reads them. */
  const BOGEY_NUMBERS: seq<int> := [169, 168, 166, 165, 163, 162, 159]

  /** How many darts one entry stands for: a whole round or a single dart. */
  datatype InputMethod = Round | ThreeDarts {
    /** The enum's value, which is also the number of darts per turn. */
    function Value(): (v: nat)
      ensures v == 1 || v == 3
    {
      match this
      case Round => 1
      case ThreeDarts => 3
    }
  }

  /** `InputMethod(v)`: the enum member with value `v`, if any. */
  function InputMethodOf(v: int): (m: Option<InputMethod>)
    ensures m.Some? <==> v == 1 || v == 3
    ensures m.Some? ==> m.value.Value() == v
  {
    if v == 1 then Some(Round) else if v == 3 then Some(ThreeDarts) else None
  }

  /** Value lookup and `.value` are inverse to each other. */
  lemma InputMethodRoundTrip(m: InputMethod)
    ensures InputMethodOf(m.Value()) == Some(m)
  {
  }

  /** Check-in and check-out rules: any dart, a double, or a double or triple. */
  datatype CheckInOut = Straight | Double | Master

  datatype GameMode = X01

  datatype SetLegMode = FirstTo | BestOf

  /** The option fields the scoreboard and the game loop read. */
  datatype GameOptions = GameOptions(
    startPoints: int,
    legs: int,
    sets: int,
    inputMethod: InputMethod,
    startPlayer: int)

  lemma {:induction false} SegmentsBelowTwenty(n: nat)
    requires n <= 20
    ensures SegmentsBelow(n) == seq(n, i => i + 1)
    decreases n
  {
    if n > 0 {
      SegmentsBelowTwenty(n - 1);
    }
  }

  /** SEGMENTS is 1..20 followed by 25: 21 values, without 0 or 21..24. */
  lemma SegmentsExact()
    ensures SEGMENTS == seq(20, i => i + 1) + [25]
    ensures |SEGMENTS| == 21
    ensures forall x :: x in SEGMENTS <==> 1 <= x <= 20 || x == 25
  {
    SegmentsBelowTwenty(20);
    assert SegmentsBelow(24) == SegmentsBelow(20);
    var s := seq(20, i => i + 1) + [25];
    assert SEGMENTS == s;
    forall x ensures x in s <==> 1 <= x <= 20 || x == 25 {
      if 1 <= x <= 20 {
        assert s[x - 1] == x;
      }
    }
  }

  /** Membership in SEGMENTS, the form the proofs use. */
  lemma InSegments(x: int)
    ensures x in SEGMENTS <==> 1 <= x <= 20 || x == 25
  {
    SegmentsExact();
  }

  /** The value of one dart: a miss, or a segment hit once, twice or three
      times, where the bullseye has no triple ring. */
  predicate IsDartScore(v: int) {
    || v == 0
    || v in SEGMENTS
    || (v % 2 == 0 && v / 2 in SEGMENTS)
    || (v % 3 == 0 && v / 3 in SEGMENTS && v != 75)
  }

  /** Every dart scores 0..60, and the only dart values of 43 or more are the
      bullseye double (50) and the triples 45..60. */
  lemma DartScoreShape(v: int)
    requires IsDartScore(v)
    ensures 0 <= v <= 60
    ensures v >= 43 ==> v == 50 || (v % 3 == 0 && 45 <= v)
  {
    if v == 0 {
    } else if v in SEGMENTS {
      InSegments(v);
      assert v <= 25;
    } else if v % 2 == 0 && v / 2 in SEGMENTS {
      var q := v / 2;
      InSegments(q);
      assert v == 2 * q;
      assert v <= 40 || v == 50;
    } else {
      var q := v / 3;
      assert v % 3 == 0 && q in SEGMENTS && v != 75;
      InSegments(q);
      assert v == 3 * q;
      assert 1 <= q <= 20;
      assert v >= 43 ==> q >= 15;
    }
  }

  predicate HighDart(v: int) {
    v == 50 || (v % 3 == 0 && 45 <= v <= 60)
  }

  /** Three darts of 43 points or more never total an impossible score:
      without the bullseye double the total is a multiple of three, with one
      it is at most 170 and 2 modulo 3, with two it is at most 160. */
  lemma HighDartsTotal(a: int, b: int, c: int)
    requires HighDart(a) && HighDart(b) && HighDart(c)
    ensures a + b + c !in IMPOSSIBLE_SCORES
  {
    HighDartsTotalShape(a, b, c);
  }

  /** The total of three high darts, by the number of bullseye doubles. */
  lemma HighDartsTotalShape(a: int, b: int, c: int)
    requires HighDart(a) && HighDart(b) && HighDart(c)
    ensures var t := a + b + c; t % 3 == 0 || t <= 160 || (t <= 170 && t % 3 == 2)
  {
    var t := a + b + c;
    if a == 50 && b == 50 && c == 50 {
      assert t == 150;
    } else if a != 50 && b != 50 && c != 50 {
      var qa, qb, qc := a / 3, b / 3, c / 3;
      assert a == 3 * qa && b == 3 * qb && c == 3 * qc;
      assert t == 3 * (qa + qb + qc);
    } else {
      // one or two bullseye doubles
      var qa := if a == 50 then 0 else a / 3;
      var qb := if b == 50 then 0 else b / 3;
      var qc := if c == 50 then 0 else c / 3;
      var fifties := (if a == 50 then 50 else 0) + (if b == 50 then 50 else 0) + (if c == 50 then 50 else 0);
      assert t == 3 * (qa + qb + qc) + fifties;
      if fifties == 50 {
        assert t <= 170 && t % 3 == 2;
      } else {
        assert t <= 160;
      }
    }
  }

  /** No value of IMPOSSIBLE_SCORES is the total of three darts. */
  lemma ImpossibleScoresUnreachable(a: int, b: int, c: int)
    requires IsDartScore(a) && IsDartScore(b) && IsDartScore(c)
    ensures a + b + c !in IMPOSSIBLE_SCORES
    ensures 0 <= a + b + c <= 180
  {
    DartScoreShape(a);
    DartScoreShape(b);
    DartScoreShape(c);
    if a + b + c >= 163 {
      // each dart is then at least 163 - 120 = 43
      assert a >= 43 && b >= 43 && c >= 43;
      assert HighDart(a) && HighDart(b) && HighDart(c);
      HighDartsTotal(a, b, c);
    }
  }

  /** The nine impossible totals all lie below the 180 maximum. */
  lemma ImpossibleScoresShape()
    ensures |IMPOSSIBLE_SCORES| == 9
    ensures forall x :: x in IMPOSSIBLE_SCORES ==> 160 < x < 180 && x % 3 != 0
  {
  }
}
