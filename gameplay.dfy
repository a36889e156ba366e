/** The match screen's component state (src/pages/GamePlay.tsx) as an object
    whose methods are the screen's handlers. Each input handler, and the
    submission, is proved to keep `Turns.Valid` and to move the state exactly
    as its `Turns` function does; `NextPlayer` moves the state as
    `Turns.NextPlayer`, and `SetMultiplier` changes only the ring. */
module GamePlay {

  import opened Wrappers
  import opened Roster
  import opened Scoring
  import opened Turns
  import Setup

  class Match {
    var players: seq<Player>
    var currentPlayerIndex: int
    var multiplier: Multiplier
    var currentDarts: seq<Dart>
    var winner: Option<Player>
    var showBustConfirm: bool
    const rules: Rules

    /** The component state as a value. */
    function State(): Board
      reads this
    {
      Board(players, currentPlayerIndex, multiplier, currentDarts, winner, showBustConfirm)
    }

    ghost predicate Valid()
      reads this
    {
      Turns.Valid(State(), rules)
    }

    /** The `useState` initialisers: every roster entry at the start score;
        an empty roster is sent back to the setup screen and never reaches here. */
    constructor (roster: seq<Profile>, settings: Option<Setup.GameSettings>)
      requires |roster| > 0 && StartScore(settings) >= 1
      ensures rules == RulesOf(settings)
      ensures State() == Init(roster, rules)
      ensures Valid()
    {
      rules := RulesOf(settings);
      var ps: seq<Player> := [];
      var start := StartScore(settings);
      for i := 0 to |roster|
        invariant |ps| == i
        invariant forall j | 0 <= j < i :: ps[j] == NewPlayer(roster[j], start)
      {
        ps := ps + [NewPlayer(roster[i], start)];
      }
      players := ps;
      currentPlayerIndex := 0;
      multiplier := Single;
      currentDarts := [];
      winner := None;
      showBustConfirm := false;
      InitValid(roster, RulesOf(settings));
    }

    /** The ring buttons. */
    method SetMultiplier(m: Multiplier)
      requires Valid()
      modifies this
      ensures Valid()
      ensures State() == old(State()).(multiplier := m)
    {
      multiplier := m;
    }

    /** `nextPlayer`. */
    method NextPlayer()
      requires |players| > 0 && 0 <= currentPlayerIndex
      modifies this
      ensures State() == Turns.NextPlayer(old(State()))
    {
      currentPlayerIndex := (currentPlayerIndex + 1) % |players|;
      multiplier := Single;
    }

    /** `submitDartsWithArray`, called only by the auto-submit with the three darts of the turn. */
    method SubmitDartsWithArray(darts: seq<Dart>)
      requires Valid() && !showBustConfirm
      requires |darts| == 3 && LegalDarts(darts)
      modifies this
      ensures Valid()
      ensures State() == Submit(old(State()), rules, darts)
    {
      SubmitPreservesValid(State(), rules, darts);
      if |darts| == 0 || winner.Some? {
        return;
      }
      var currentPlayer := players[currentPlayerIndex];
      var totalScore := TurnTotal(darts);
      var newScore := currentPlayer.score - totalScore;
      if newScore < 0 || (newScore == 0 && rules.requiresDouble && darts[|darts| - 1].multiplier != Double) {
        currentDarts := [];
        NextPlayer();
        return;
      }
      if newScore == 0 {
        winner := Some(currentPlayer);
        return;
      }
      players := players[currentPlayerIndex := currentPlayer.(
        score := newScore,
        lastScore := totalScore,
        dartsThrown := currentPlayer.dartsThrown + |darts|,
        total := currentPlayer.total + totalScore)];
      currentDarts := [];
      NextPlayer();
    }

    /** The part of `handleNumberClick` that records the dart: append it on
        the selected ring and, on the first dart of the turn, raise the
        warning when that dart alone would bust. */
    method RecordDart(number: int) returns (newDarts: seq<Dart>)
      requires Valid() && !showBustConfirm
      requires |currentDarts| < 3 && winner.None? && LegalSegment(number)
      modifies this`currentDarts, this`showBustConfirm
      ensures Valid()
      ensures State() == Recorded(old(State()), rules, number)
      ensures newDarts == currentDarts
      ensures |newDarts| == 3 ==> !showBustConfirm
    {
      var value := DartValue(number, multiplier);
      newDarts := currentDarts + [Dart(number, multiplier)];
      currentDarts := newDarts;
      if |newDarts| == 1 {
        var newScore := players[currentPlayerIndex].score - value;
        if newScore < 0 || (newScore == 0 && rules.requiresDouble && multiplier != Double) {
          showBustConfirm := true;
        }
      }
      assert LegalDarts(newDarts);
    }

    /** `handleNumberClick` for the keys 1..20, and for 25 through the bull key. */
    method HandleNumberClick(number: int)
      requires Valid() && !showBustConfirm
      requires 1 <= number <= 20 || number == 25
      modifies this
      ensures Valid()
      ensures State() == NumberClick(old(State()), rules, number)
    {
      if |currentDarts| >= 3 || winner.Some? {
        return;
      }
      var newDarts := RecordDart(number);
      if |newDarts| == 3 {
        SubmitDartsWithArray(newDarts);
      }
    }

    /** `handleMiss`. */
    method HandleMiss()
      requires Valid() && !showBustConfirm
      modifies this
      ensures Valid()
      ensures State() == Miss(old(State()))
    {
      StepPreservesValid(State(), rules, MissKey);
      if |currentDarts| >= 3 || winner.Some? {
        return;
      }
      currentDarts := currentDarts + [Dart(0, Single)];
    }

    /** `handleBull`. */
    method HandleBull()
      requires Valid() && !showBustConfirm
      modifies this
      ensures Valid()
      ensures State() == Bull(old(State()), rules)
    {
      if multiplier == Triple {
        return;
      }
      HandleNumberClick(25);
    }

    /** `removeLastDart`; the Undo button is disabled while the bust warning shows. */
    method RemoveLastDart()
      requires Valid() && !showBustConfirm
      modifies this
      ensures Valid()
      ensures State() == Turns.RemoveLastDart(old(State()))
    {
      StepPreservesValid(State(), rules, Undo);
      if |currentDarts| > 0 {
        currentDarts := currentDarts[..|currentDarts| - 1];
      }
    }

    /** `confirmBust`, offered only while the bust warning shows. */
    method ConfirmBust()
      requires Valid() && showBustConfirm
      modifies this
      ensures Valid()
      ensures State() == Turns.ConfirmBust(old(State()))
    {
      StepPreservesValid(State(), rules, Confirm);
      showBustConfirm := false;
      currentDarts := [];
      NextPlayer();
    }
  }
}
