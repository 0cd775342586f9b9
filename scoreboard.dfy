/**
 * The scoreboard of one match (src/scoreboard.py): per-player remaining
 * points, won legs and won sets, and the history of recorded turns.
 */
module Scoring {

  import opened Options
  import opened ThrowInput

  /** One recorded turn: the player, their points after it, and the sets
      and legs they had won at that moment; the scoreboard leaves both break
      counters at their default 0. */
  datatype Turn = Turn(
    player: string,
    score: int,
    wonSets: int,
    wonLegs: int,
    legBreaks: int,
    setBreaks: int)

  /** The map that sends every key of `keys` to `v`. */
  function AllSetTo(keys: set<string>, v: int): (m: map<string, int>)
    ensures m.Keys == keys
    ensures forall p :: p in m ==> m[p] == v
  {
    map p | p in keys :: v
  }

  class Scoreboard {
    var history: seq<Turn>
    const gameOpt: GameOptions
    var points: map<string, int>
    var wonLegs: map<string, int>
    var wonSets: map<string, int>

    /** Every registered player has an entry in all three maps. */
    ghost predicate Valid()
      reads this
    {
      points.Keys == wonLegs.Keys == wonSets.Keys
    }

    /** The registered players. */
    ghost function Players(): set<string>
      reads this
    {
      points.Keys
    }

    /** Remaining points stay between 0 and the starting points. */
    ghost predicate PointsInRange()
      reads this
    {
      forall p :: p in points ==> 0 <= points[p] <= gameOpt.startPoints
    }

    constructor (gameOpt: GameOptions)
      ensures Valid() && this.gameOpt == gameOpt
      ensures history == [] && points == map[] && wonLegs == map[] && wonSets == map[]
      ensures PointsInRange()
    {
      this.history := [];
      this.gameOpt := gameOpt;
      this.points := map[];
      this.wonLegs := map[];
      this.wonSets := map[];
    }

    /** `register_player`: a player (new or already there) starts afresh. */
    method RegisterPlayer(player: string)
      requires Valid()
      modifies this`points, this`wonLegs, this`wonSets
      ensures Valid() && Players() == old(Players()) + {player}
      ensures points == old(points)[player := gameOpt.startPoints]
      ensures wonLegs == old(wonLegs)[player := 0]
      ensures wonSets == old(wonSets)[player := 0]
      ensures old(PointsInRange()) && gameOpt.startPoints >= 0 ==> PointsInRange()
    {
      points := points[player := gameOpt.startPoints];
      wonLegs := wonLegs[player := 0];
      wonSets := wonSets[player := 0];
    }

    /** `subtract_score`: a score larger than the remaining points is an
        overthrow and leaves them unchanged; otherwise the points drop by
        exactly the score. Either way one turn is recorded. */
    method SubtractScore(player: string, score: int, dart: int) returns (overthrow: bool)
      requires Valid() && player in Players()
      modifies this`points, this`history
      ensures Valid() && Players() == old(Players())
      ensures overthrow <==> old(points[player]) - score < 0
      ensures points == if overthrow then old(points) else old(points)[player := old(points[player]) - score]
      ensures history == old(history) + [Turn(player, points[player], wonSets[player], wonLegs[player], 0, 0)]
      ensures old(PointsInRange()) && score >= 0 ==> PointsInRange()
    {
      if points[player] - score < 0 {
        history := history + [Turn(player, points[player], wonSets[player], wonLegs[player], 0, 0)];
        return true;
      }
      points := points[player := points[player] - score];
      history := history + [Turn(player, points[player], wonSets[player], wonLegs[player], 0, 0)];
      return false;
    }

    /** `check_if_leg_win`: a player at zero wins the leg; then every
        player's points go back to the start and the winner's leg count
        rises by one. Otherwise nothing changes. */
    method CheckIfLegWin(player: string) returns (won: bool)
      requires Valid() && player in Players()
      modifies this`points, this`wonLegs
      ensures Valid() && Players() == old(Players())
      ensures won <==> old(points[player]) == 0
      ensures won ==> points == AllSetTo(old(Players()), gameOpt.startPoints)
      ensures won ==> wonLegs == old(wonLegs)[player := old(wonLegs[player]) + 1]
      ensures !won ==> points == old(points) && wonLegs == old(wonLegs)
      ensures (old(PointsInRange()) || won) && gameOpt.startPoints >= 0 ==> PointsInRange()
    {
      if points[player] == 0 {
        ResetPoints();
        wonLegs := wonLegs[player := wonLegs[player] + 1];
        return true;
      }
      return false;
    }

    /** `check_if_set_win`: a player with enough legs wins the set; then
        every player's leg count goes back to 0 and the winner's set count
        rises by one. Otherwise nothing changes. */
    method CheckIfSetWin(player: string) returns (won: bool)
      requires Valid() && player in Players()
      modifies this`wonLegs, this`wonSets
      ensures Valid() && Players() == old(Players())
      ensures won <==> old(wonLegs[player]) >= gameOpt.legs
      ensures won ==> wonLegs == AllSetTo(old(Players()), 0)
      ensures won ==> wonSets == old(wonSets)[player := old(wonSets[player]) + 1]
      ensures !won ==> wonLegs == old(wonLegs) && wonSets == old(wonSets)
    {
      if wonLegs[player] >= gameOpt.legs {
        ResetLegs();
        wonSets := wonSets[player := wonSets[player] + 1];
        return true;
      }
      return false;
    }

    /** `check_if_game_win`: whether the player has won enough sets. */
    method CheckIfGameWin(player: string) returns (won: bool)
      requires Valid() && player in Players()
      ensures won <==> wonSets[player] >= gameOpt.sets
    {
      if wonSets[player] >= gameOpt.sets {
        return true;
      }
      return false;
    }

    /** `reset_points`: every player's points back to the start. */
    method ResetPoints()
      requires Valid()
      modifies this`points
      ensures Valid() && Players() == old(Players())
      ensures points == AllSetTo(old(Players()), gameOpt.startPoints)
      ensures gameOpt.startPoints >= 0 ==> PointsInRange()
    {
      var todo := points.Keys;
      while todo != {}
        invariant points.Keys == old(points.Keys)
        invariant todo <= points.Keys
        invariant forall p :: p in points && p !in todo ==> points[p] == gameOpt.startPoints
        decreases todo
      {
        var p :| p in todo;
        points := points[p := gameOpt.startPoints];
        todo := todo - {p};
      }
      assert points == AllSetTo(old(Players()), gameOpt.startPoints);
    }

    /** `reset_legs`: every player's leg count back to 0. */
    method ResetLegs()
      requires Valid()
      modifies this`wonLegs
      ensures Valid() && Players() == old(Players())
      ensures wonLegs == AllSetTo(old(Players()), 0)
    {
      var todo := wonLegs.Keys;
      while todo != {}
        invariant wonLegs.Keys == old(wonLegs.Keys)
        invariant todo <= wonLegs.Keys
        invariant forall p :: p in wonLegs && p !in todo ==> wonLegs[p] == 0
        decreases todo
      {
        var p :| p in todo;
        wonLegs := wonLegs[p := 0];
        todo := todo - {p};
      }
      assert wonLegs == AllSetTo(old(Players()), 0);
    }

    /** `get_history`. */
    method GetHistory() returns (h: seq<Turn>)
      ensures h == history
    {
      h := history;
    }

    /** `get_points`. */
    method GetPoints() returns (m: map<string, int>)
      ensures m == points
    {
      m := points;
    }

    /** `get_points_of_player`. */
    method GetPointsOfPlayer(player: string) returns (n: int)
      requires player in points
      ensures n == points[player]
    {
      n := points[player];
    }

    /** `get_sets_and_legs`. */
    method GetSetsAndLegs() returns (sets: map<string, int>, legs: map<string, int>)
      ensures sets == wonSets && legs == wonLegs
    {
      sets, legs := wonSets, wonLegs;
    }

    /** `get_sets_and_legs_of_player`. */
    method GetSetsAndLegsOfPlayer(player: string) returns (sets: int, legs: int)
      requires Valid() && player in Players()
      ensures sets == wonSets[player] && legs == wonLegs[player]
    {
      sets, legs := wonSets[player], wonLegs[player];
    }
  }

  /** The three entries the examples below use: "t10", "d5" and "25". */
  lemma ExampleThrows()
    ensures NewThrow(Spell(10, 3), ThreeDarts).Success? && CalcScore(NewThrow(Spell(10, 3), ThreeDarts).value) == 30
    ensures NewThrow(Spell(5, 2), ThreeDarts).Success? && CalcScore(NewThrow(Spell(5, 2), ThreeDarts).value) == 10
    ensures NewThrow(Spell(25, 1), ThreeDarts).Success? && CalcScore(NewThrow(Spell(25, 1), ThreeDarts).value) == 25
  {
    InSegments(10);
    InSegments(5);
    InSegments(25);
    DartsAccepted(10, 3);
    DartsAccepted(5, 2);
    DartsAccepted(25, 1);
  }

  /** The score the throw parser gives one of the example entries. */
  method EntryScore(raw: string) returns (score: nat)
    requires raw == Spell(10, 3) || raw == Spell(5, 2) || raw == Spell(25, 1)
    ensures raw == Spell(10, 3) ==> score == 30
    ensures raw == Spell(5, 2) ==> score == 10
    ensures raw == Spell(25, 1) ==> score == 25
  {
    ExampleThrows();
    var r := NewThrow(raw);
    assert r.Success?;
    score := CalcScore(r.value);
  }

  /** A checkout as the contracts describe it: from 40 points, "t10" and
      "d5" bring the player to zero and win the leg, which resets the points. */
  method CheckoutExample() {
    var first := EntryScore(Spell(10, 3));   // "t10"
    var second := EntryScore(Spell(5, 2));   // "d5"

    var board := new Scoreboard(GameOptions(40, 1, 1, ThreeDarts, 0));
    board.RegisterPlayer("a");
    assert board.wonLegs["a"] == 0;
    var over := board.SubtractScore("a", first, 0);
    assert !over && board.points["a"] == 10 && |board.history| == 1;
    assert board.wonLegs["a"] == 0;
    over := board.SubtractScore("a", second, 1);
    assert !over && board.points["a"] == 0 && |board.history| == 2;
    assert board.wonLegs["a"] == 0;
    var leg := board.CheckIfLegWin("a");
    assert leg && board.points["a"] == 40 && board.wonLegs["a"] == 1;
  }

  /** With one leg and one set to play, the leg won wins the set, which
      resets the legs, and the set won wins the game. */
  method MatchWinExample() {
    var board := new Scoreboard(GameOptions(25, 1, 1, ThreeDarts, 0));
    board.RegisterPlayer("a");
    assert board.wonLegs["a"] == 0 && board.wonSets["a"] == 0;
    var over := board.SubtractScore("a", 25, 0);
    assert !over && board.points["a"] == 0;
    assert board.wonLegs["a"] == 0 && board.wonSets["a"] == 0;
    var leg := board.CheckIfLegWin("a");
    assert leg && board.wonLegs["a"] == 1 && board.wonSets["a"] == 0;
    var setWon := board.CheckIfSetWin("a");
    assert setWon && board.wonLegs["a"] == 0 && board.wonSets["a"] == 1;
    var game := board.CheckIfGameWin("a");
    assert game;
  }

  /** From 20 points a bullseye is an overthrow that keeps the 20 and
      still records the turn. */
  method OverthrowExample() {
    var bull := EntryScore(Spell(25, 1));    // "25"

    var board := new Scoreboard(GameOptions(20, 1, 1, ThreeDarts, 0));
    board.RegisterPlayer("b");
    var over := board.SubtractScore("b", bull, 0);
    assert over && board.points["b"] == 20;
    assert board.history == [Turn("b", 20, 0, 0, 0, 0)];
    var leg := board.CheckIfLegWin("b");
    assert !leg;
  }
}
