/**
 * Who opens the next leg (src/darts.py, `set_start_player`): the player
 * list rotated left by the start index plus every set and leg won so far.
 */
module Darts {

  /** Some key of a non-empty map. */
  ghost function Pick(m: map<string, int>): (k: string)
    requires m != map[]
    ensures k in m
  {
    var k :| k in m; k
  }

  lemma MapRemoveSize(m: map<string, int>, k: string)
    requires k in m
    ensures |m - {k}| == |m| - 1
  {
    assert (m - {k}).Keys == m.Keys - {k};
  }

  /** `sum(m.values())`. */
  ghost function SumValues(m: map<string, int>): int
    decreases |m|
  {
    if m == map[] then 0
    else
      var k := Pick(m);
      MapRemoveSize(m, k);
      m[k] + SumValues(m - {k})
  }

  /** The sum does not depend on which entry is taken out first. */
  lemma {:induction false} SumValuesRemove(m: map<string, int>, k: string)
    requires k in m
    ensures SumValues(m) == m[k] + SumValues(m - {k})
    decreases |m|
  {
    var j := Pick(m);
    if j != k {
      var mj := m - {j};
      var mk := m - {k};
      MapRemoveSize(m, j);
      MapRemoveSize(m, k);
      SumValuesRemove(mj, k);
      SumValuesRemove(mk, j);
      assert mj - {k} == mk - {j};
    }
  }

  /** Setting one entry changes the sum by the difference: only the values
      count, not which player holds them. */
  lemma SumValuesUpdate(m: map<string, int>, k: string, v: int)
    ensures SumValues(m[k := v]) == SumValues(m) - (if k in m then m[k] else 0) + v
  {
    var u := m[k := v];
    SumValuesRemove(u, k);
    assert u - {k} == m - {k};
    if k in m {
      SumValuesRemove(m, k);
    } else {
      assert m - {k} == m;
    }
  }

  /** `s` rotated left by `k` places. */
  function RotateLeft(s: seq<string>, k: nat): seq<string>
    requires k <= |s|
  {
    s[k..] + s[..k]
  }

  /** The rotation the source applies, from the start index and the totals. */
  function StartShift(n: nat, startPlayer: int, setTotal: int, legTotal: int): (k: nat)
    requires n > 0
    ensures k < n
  {
    (startPlayer + setTotal + legTotal) % n
  }

  /** Reducing the totals modulo `n` first does not change the shift. */
  lemma ShiftOfReducedTotals(n: nat, startPlayer: int, setTotal: int, legTotal: int)
    requires n > 0
    ensures (setTotal % n + legTotal % n + startPlayer) % n == StartShift(n, startPlayer, setTotal, legTotal)
  {
    var qs, ql := setTotal / n, legTotal / n;
    assert setTotal == n * qs + setTotal % n;
    assert legTotal == n * ql + legTotal % n;
    var x := setTotal % n + legTotal % n + startPlayer;
    assert startPlayer + setTotal + legTotal == x + n * (qs + ql);
    ModAddMultiple(x, qs + ql, n);
  }

  lemma ModAddMultiple(x: int, q: int, n: nat)
    requires n > 0
    ensures (x + n * q) % n == x % n
  {
    var r := x % n;
    assert x == n * (x / n) + r;
    assert x + n * q == n * (x / n + q) + r;
    DivModUnique(x + n * q, n, x / n + q, r);
  }

  lemma MulAtLeast(a: int, b: int)
    requires a > 0 && b > 0
    ensures a * b >= a
    decreases b
  {
    if b > 1 {
      MulAtLeast(a, b - 1);
      assert a * b == a * (b - 1) + a;
    }
  }

  /** Euclidean division has one quotient and one remainder. */
  lemma DivModUnique(a: int, n: nat, q: int, r: int)
    requires n > 0 && 0 <= r < n && a == n * q + r
    ensures a % n == r && a / n == q
  {
    var q', r' := a / n, a % n;
    assert a == n * q' + r';
    assert n * (q - q') == r' - r;
    if q > q' {
      MulAtLeast(n, q - q');
    } else if q < q' {
      MulAtLeast(n, q' - q);
    }
  }

  /** Rotation keeps the names and their number, and moves the name at
      place `(i + k) % n` to place `i`. */
  lemma RotateLeftAt(s: seq<string>, k: nat)
    requires k < |s|
    ensures |RotateLeft(s, k)| == |s|
    ensures multiset(RotateLeft(s, k)) == multiset(s)
    ensures forall i :: 0 <= i < |s| ==> RotateLeft(s, k)[i] == s[(i + k) % |s|]
  {
    RotateLeftMultiset(s, k);
    RotateLeftIndex(s, k);
  }

  lemma RotateLeftMultiset(s: seq<string>, k: nat)
    requires k <= |s|
    ensures multiset(RotateLeft(s, k)) == multiset(s)
  {
    assert s == s[..k] + s[k..];
  }

  lemma RotateLeftIndex(s: seq<string>, k: nat)
    requires k < |s|
    ensures forall i :: 0 <= i < |s| ==> RotateLeft(s, k)[i] == s[(i + k) % |s|]
  {
    var r := RotateLeft(s, k);
    forall i | 0 <= i < |s| ensures r[i] == s[(i + k) % |s|] {
      if i < |s| - k {
        assert (i + k) % |s| == i + k;
      } else {
        DivModUnique(i + k, |s|, 1, i + k - |s|);
      }
    }
  }

  /** `set_start_player`: copy the list, then move its first name to the
      end as many times as the shift says. */
  method SetStartPlayer(players: seq<string>, startPlayer: int, sets: map<string, int>, legs: map<string, int>)
    returns (rotated: seq<string>)
    requires |players| > 0
    ensures rotated == RotateLeft(players, StartShift(|players|, startPlayer, SumValues(sets), SumValues(legs)))
  {
    var n := |players|;
    var legTotal := Sum(legs);
    var setTotal := Sum(sets);
    var shiftLegs := legTotal % n;
    var shiftSets := setTotal % n;
    var shift := (shiftSets + shiftLegs + startPlayer) % n;
    ShiftOfReducedTotals(n, startPlayer, setTotal, legTotal);
    rotated := players;
    var i := 0;
    while i < shift
      invariant 0 <= i <= shift
      invariant rotated == players[i..] + players[..i]
    {
      assert players[i..] == [players[i]] + players[i + 1..];
      assert players[..i + 1] == players[..i] + [players[i]];
      rotated := rotated[1..] + [rotated[0]];
      i := i + 1;
    }
  }

  /** `sum(m.values())`, adding the entries one at a time. */
  method Sum(m: map<string, int>) returns (total: int)
    ensures total == SumValues(m)
  {
    total := 0;
    var rest := m;
    while rest != map[]
      invariant rest.Keys <= m.Keys
      invariant forall k :: k in rest ==> rest[k] == m[k]
      invariant total + SumValues(rest) == SumValues(m)
      decreases |rest|
    {
      var k :| k in rest;
      SumValuesRemove(rest, k);
      total := total + rest[k];
      rest := rest - {k};
    }
  }

  /** With no sets and no legs won, the configured start player opens. */
  lemma ZeroWinsStartPlayer(players: seq<string>, startPlayer: int, sets: map<string, int>, legs: map<string, int>)
    requires |players| > 0
    requires forall p :: p in sets ==> sets[p] == 0
    requires forall p :: p in legs ==> legs[p] == 0
    ensures RotateLeft(players, StartShift(|players|, startPlayer, SumValues(sets), SumValues(legs)))[0]
            == players[startPlayer % |players|]
  {
    AllZeroSum(sets);
    AllZeroSum(legs);
    RotateLeftAt(players, startPlayer % |players|);
  }

  lemma {:induction false} AllZeroSum(m: map<string, int>)
    requires forall p :: p in m ==> m[p] == 0
    ensures SumValues(m) == 0
    decreases |m|
  {
    if |m| > 0 {
      var k :| k in m;
      SumValuesRemove(m, k);
      AllZeroSum(m - {k});
    }
  }

  /** A win counts the same whoever holds it: crediting `d` more legs to
      player `a` or to player `b` gives the same starting order. */
  lemma WinHolderIrrelevant(players: seq<string>, startPlayer: int, sets: map<string, int>,
                            legs: map<string, int>, a: string, b: string, d: int)
    requires |players| > 0 && a in legs && b in legs
    ensures StartShift(|players|, startPlayer, SumValues(sets), SumValues(legs[a := legs[a] + d]))
         == StartShift(|players|, startPlayer, SumValues(sets), SumValues(legs[b := legs[b] + d]))
  {
    SumValuesUpdate(legs, a, legs[a] + d);
    SumValuesUpdate(legs, b, legs[b] + d);
  }

  /** Each further set or leg won moves the opener one place on. */
  lemma OneMoreWinShiftsByOne(n: nat, startPlayer: int, setTotal: int, legTotal: int)
    requires n > 0
    ensures StartShift(n, startPlayer, setTotal, legTotal + 1) == (StartShift(n, startPlayer, setTotal, legTotal) + 1) % n
    ensures StartShift(n, startPlayer, setTotal + 1, legTotal) == (StartShift(n, startPlayer, setTotal, legTotal) + 1) % n
  {
    var x := startPlayer + setTotal + legTotal;
    var r := x % n;
    assert x == n * (x / n) + r;
    ModAddMultiple(r + 1, x / n, n);
  }

  /** One row of the start-player table: three players, start index 1,
      one set won by "a" and three legs won by "c" rotate by 5 = 2 places. */
  lemma StartPlayerExample()
    ensures RotateLeft(["a", "b", "c"],
                       StartShift(3, 1, SumValues(map["a" := 1, "b" := 0, "c" := 0]),
                                        SumValues(map["a" := 0, "b" := 0, "c" := 3])))
            == ["c", "a", "b"]
  {
    SetsExampleSum();
    LegsExampleSum();
    assert StartShift(3, 1, 1, 3) == 2;
    assert RotateLeft(["a", "b", "c"], 2) == ["c"] + ["a", "b"];
  }

  lemma SetsExampleSum()
    ensures SumValues(map["a" := 1, "b" := 0, "c" := 0]) == 1
  {
    var e: map<string, int> := map[];
    assert SumValues(e) == 0;
    SumValuesUpdate(e, "a", 1);
    SumValuesUpdate(e["a" := 1], "b", 0);
    SumValuesUpdate(e["a" := 1]["b" := 0], "c", 0);
    assert map["a" := 1, "b" := 0, "c" := 0] == e["a" := 1]["b" := 0]["c" := 0];
  }

  lemma LegsExampleSum()
    ensures SumValues(map["a" := 0, "b" := 0, "c" := 3]) == 3
  {
    var e: map<string, int> := map[];
    assert SumValues(e) == 0;
    SumValuesUpdate(e, "a", 0);
    SumValuesUpdate(e["a" := 0], "b", 0);
    SumValuesUpdate(e["a" := 0]["b" := 0], "c", 3);
    assert map["a" := 0, "b" := 0, "c" := 3] == e["a" := 0]["b" := 0]["c" := 3];
  }
}
