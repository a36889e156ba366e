/** The turn engine of the match screen (src/pages/GamePlay.tsx) as a pure
    reducer: the component state is a `Board` value and every input handler
    is a function from the old board to the new one. The `GamePlay.Match`
    class is proved against these functions; the properties of the engine
    are proved here. */
module Turns {

  import opened Wrappers
  import opened Roster
  import opened Scoring
  import Setup

  /** A roster entry with its match statistics. */
  datatype Player = Player(profile: Profile, score: int, dartsThrown: int, lastScore: int, total: int)

  /** What the engine reads from the settings: the start score after the
      `|| 501` fallback, and whether a double finish is required. */
  datatype Rules = Rules(startScore: int, requiresDouble: bool)

  /** The component state: `players`, `currentPlayerIndex`, `multiplier`,
      `currentDarts`, `winner` and `showBustConfirm`. */
  datatype Board = Board(
    players: seq<Player>,
    current: int,
    multiplier: Multiplier,
    darts: seq<Dart>,
    winner: Option<Player>,
    bustPending: bool)

  /** `settings?.startScore || 501`: a missing settings record, NaN and 0 all fall back to 501. */
  function StartScore(settings: Option<Setup.GameSettings>): (s: int)
    ensures s != 0
    ensures settings.Some? && settings.value.startScore.Some? && settings.value.startScore.value != 0
            ==> s == settings.value.startScore.value
    ensures !(settings.Some? && settings.value.startScore.Some? && settings.value.startScore.value != 0)
            ==> s == 501
  {
    if settings.Some? && settings.value.startScore.Some? && settings.value.startScore.value != 0
    then settings.value.startScore.value
    else 501
  }

  function RulesOf(settings: Option<Setup.GameSettings>): Rules
  {
    Rules(StartScore(settings), settings.Some? && RequiresDouble(settings.value.finishType))
  }

  function NewPlayer(p: Profile, start: int): Player
  {
    Player(p, start, 0, 0, 0)
  }

  /** The initial state: every roster entry at the start score with no statistics. */
  function Init(roster: seq<Profile>, rules: Rules): (b: Board)
    ensures |b.players| == |roster|
    ensures forall i | 0 <= i < |roster| ::
              && b.players[i].profile == roster[i] && b.players[i].score == rules.startScore
              && b.players[i].dartsThrown == 0 && b.players[i].lastScore == 0 && b.players[i].total == 0
    ensures b.current == 0 && b.multiplier == Single && b.darts == [] && b.winner == None && !b.bustPending
  {
    Board(seq(|roster|, i requires 0 <= i < |roster| => NewPlayer(roster[i], rules.startScore)),
          0, Single, [], None, false)
  }

  // ----- the invariant -----------------------------------------------------

  /** What holds of every player: the score and the points scored add up to
      the start score, the score never reaches 0, and darts are counted in
      whole three-dart turns worth at most 60 a dart. */
  predicate PlayerValid(p: Player, start: int)
  {
    && p.score + p.total == start
    && p.score >= 1
    && p.dartsThrown >= 0
    && p.dartsThrown % 3 == 0
    && 0 <= p.total <= 60 * p.dartsThrown
    && 0 <= p.lastScore <= 180
  }

  predicate Valid(b: Board, rules: Rules)
  {
    && rules.startScore >= 1
    && |b.players| > 0
    && 0 <= b.current < |b.players|
    && |b.darts| <= 3
    && LegalDarts(b.darts)
    && (forall i | 0 <= i < |b.players| :: PlayerValid(b.players[i], rules.startScore))
    && (b.bustPending ==> |b.darts| == 1 && b.winner.None?)
    && (b.winner.Some? ==> b.winner.value == b.players[b.current] && !b.bustPending)
  }

  // ----- the handlers ------------------------------------------------------

  /** `nextPlayer`: the turn passes to the next player in roster order and the ring resets. */
  function NextPlayer(b: Board): (r: Board)
    requires |b.players| > 0 && 0 <= b.current
    ensures 0 <= r.current < |r.players|
    ensures b.current < |b.players| - 1 ==> r.current == b.current + 1
    ensures b.current == |b.players| - 1 ==> r.current == 0
    ensures r == b.(current := r.current, multiplier := Single)
  {
    b.(current := (b.current + 1) % |b.players|, multiplier := Single)
  }

  /** The current player's statistics after a turn worth `t` points with `n` darts. */
  function Credit(p: Player, t: int, n: int): Player
  {
    p.(score := p.score - t, lastScore := t, dartsThrown := p.dartsThrown + n, total := p.total + t)
  }

  /** `submitDartsWithArray`. */
  function Submit(b: Board, rules: Rules, darts: seq<Dart>): Board
    requires 0 <= b.current < |b.players|
  {
    if |darts| == 0 || b.winner.Some? then b
    else
      var p := b.players[b.current];
      var t := TurnTotal(darts);
      match Judge(p.score, darts, rules.requiresDouble)
      case Bust => NextPlayer(b.(darts := []))
      case Checkout => b.(winner := Some(p))
      case Scored =>
        NextPlayer(b.(players := b.players[b.current := Credit(p, t, |darts|)], darts := []))
  }

  /** `handleNumberClick`: record a dart, raise the bust warning on a first
      dart that would bust, and submit the turn at the third dart. */
  function NumberClick(b: Board, rules: Rules, n: int): Board
    requires 0 <= b.current < |b.players|
  {
    if |b.darts| >= 3 || b.winner.Some? then b
    else
      var r := Recorded(b, rules, n);
      if |r.darts| == 3 then Submit(r, rules, r.darts) else r
  }

  /** The board once `handleNumberClick` has appended the dart and, on a
      first dart, possibly raised the warning; the auto-submit comes after. */
  function Recorded(b: Board, rules: Rules, n: int): (r: Board)
    requires 0 <= b.current < |b.players|
    ensures r.darts == b.darts + [Dart(n, b.multiplier)]
    ensures r == b.(darts := r.darts, bustPending := r.bustPending)
  {
    var value := DartValue(n, b.multiplier);
    var darts := b.darts + [Dart(n, b.multiplier)];
    var newScore := b.players[b.current].score - value;
    var preview := |darts| == 1 &&
      (newScore < 0 || (newScore == 0 && rules.requiresDouble && b.multiplier != Double));
    b.(darts := darts, bustPending := b.bustPending || preview)
  }

  /** `handleMiss`: a zero on the single ring, with neither the preview nor the auto-submit. */
  function Miss(b: Board): Board
  {
    if |b.darts| >= 3 || b.winner.Some? then b
    else b.(darts := b.darts + [Dart(0, Single)])
  }

  /** `handleBull`: refused on the triple ring, otherwise a click on 25. */
  function Bull(b: Board, rules: Rules): Board
    requires 0 <= b.current < |b.players|
  {
    if b.multiplier == Triple then b else NumberClick(b, rules, 25)
  }

  /** `removeLastDart`. */
  function RemoveLastDart(b: Board): Board
  {
    if |b.darts| > 0 then b.(darts := b.darts[..|b.darts| - 1]) else b
  }

  /** `confirmBust`: drop the turn's darts and pass the turn on. */
  function ConfirmBust(b: Board): Board
    requires |b.players| > 0 && 0 <= b.current
  {
    NextPlayer(b.(bustPending := false, darts := []))
  }

  // ----- inputs, as the screen offers them ---------------------------------

  /** The controls of the screen: a number key (1..20), Bull, Miss, Undo,
      Confirm Bust and the three ring buttons. */
  datatype Input = Number(n: int) | BullKey | MissKey | Undo | Confirm | Select(m: Multiplier)

  /** Whether the control is on screen and enabled: once a winner is set only
      the winner card is shown, so no control exists; otherwise the keys and
      Undo are disabled while the bust warning shows, and Confirm Bust is shown
      only then. */
  predicate Enabled(b: Board, input: Input)
  {
    b.winner.None? &&
    match input
    case Number(n) => !b.bustPending && 1 <= n <= 20
    case BullKey => !b.bustPending
    case MissKey => !b.bustPending
    case Undo => !b.bustPending
    case Confirm => b.bustPending
    case Select(_) => true
  }

  /** One user input; a disabled control does nothing. */
  function Step(b: Board, rules: Rules, input: Input): Board
    requires 0 <= b.current < |b.players|
  {
    if !Enabled(b, input) then b
    else
      match input
      case Number(n) => NumberClick(b, rules, n)
      case BullKey => Bull(b, rules)
      case MissKey => Miss(b)
      case Undo => RemoveLastDart(b)
      case Confirm => ConfirmBust(b)
      case Select(m) => b.(multiplier := m)
  }

  /** A sequence of inputs; the invariant holds after every one of them. */
  function Run(b: Board, rules: Rules, inputs: seq<Input>): (r: Board)
    requires Valid(b, rules)
    ensures Valid(r, rules)
    decreases |inputs|
  {
    if inputs == [] then b
    else
      StepPreservesValid(b, rules, inputs[0]);
      Run(Step(b, rules, inputs[0]), rules, inputs[1..])
  }

  // ----- the invariant is kept ---------------------------------------------

  lemma InitValid(roster: seq<Profile>, rules: Rules)
    requires |roster| > 0 && rules.startScore >= 1
    ensures Valid(Init(roster, rules), rules)
  {
  }

  lemma SubmitPreservesValid(b: Board, rules: Rules, darts: seq<Dart>)
    requires Valid(b, rules) && !b.bustPending
    requires |darts| == 3 && LegalDarts(darts)
    ensures Valid(Submit(b, rules, darts), rules)
  {
    if b.winner.None? {
      var p := b.players[b.current];
      var t := TurnTotal(darts);
      if Judge(p.score, darts, rules.requiresDouble) == Scored {
        var q := Credit(p, t, 3);
        assert PlayerValid(q, rules.startScore);
        var ps := b.players[b.current := q];
        assert forall i | 0 <= i < |ps| :: PlayerValid(ps[i], rules.startScore);
      }
    }
  }

  lemma NumberClickPreservesValid(b: Board, rules: Rules, n: int)
    requires Valid(b, rules) && !b.bustPending && LegalSegment(n)
    ensures Valid(NumberClick(b, rules, n), rules)
  {
    if |b.darts| < 3 && b.winner.None? {
      var darts := b.darts + [Dart(n, b.multiplier)];
      assert LegalDarts(darts);
      if |darts| == 3 {
        var b1 := b.(darts := darts);
        SubmitPreservesValid(b1, rules, darts);
      }
    }
  }

  lemma StepPreservesValid(b: Board, rules: Rules, input: Input)
    requires Valid(b, rules)
    ensures Valid(Step(b, rules, input), rules)
  {
    if Enabled(b, input) {
      match input
      case Number(n) => NumberClickPreservesValid(b, rules, n);
      case BullKey =>
        if b.multiplier != Triple { NumberClickPreservesValid(b, rules, 25); }
      case MissKey =>
      case Undo =>
      case Confirm =>
      case Select(_) =>
    }
  }

  // ----- what the handlers do ----------------------------------------------

  /** A full turn or a decided match ignores number keys, the bull and misses. */
  lemma RecordingGuard(b: Board, rules: Rules, n: int)
    requires 0 <= b.current < |b.players|
    requires |b.darts| >= 3 || b.winner.Some?
    ensures NumberClick(b, rules, n) == b && Miss(b) == b && Bull(b, rules) == b
  {
  }

  /** Before the third dart a click appends exactly one dart, on the selected
      ring, and touches neither the players, the turn nor the winner. */
  lemma NumberClickAppends(b: Board, rules: Rules, n: int)
    requires 0 <= b.current < |b.players|
    requires |b.darts| < 2 && b.winner.None?
    ensures var r := NumberClick(b, rules, n);
      && r.darts == b.darts + [Dart(n, b.multiplier)]
      && r.players == b.players && r.current == b.current
      && r.winner == b.winner && r.multiplier == b.multiplier
  {
  }

  /** The third dart submits the turn at once. */
  lemma ThirdDartSubmits(b: Board, rules: Rules, n: int)
    requires 0 <= b.current < |b.players|
    requires |b.darts| == 2 && b.winner.None? && !b.bustPending
    ensures var darts := b.darts + [Dart(n, b.multiplier)];
      NumberClick(b, rules, n) == Submit(b.(darts := darts), rules, darts)
  {
  }

  /** The first-dart warning is raised exactly when that dart alone, submitted
      as a turn, would be judged a bust. */
  lemma PreviewMatchesSubmitRule(b: Board, rules: Rules, n: int)
    requires 0 <= b.current < |b.players|
    requires b.darts == [] && b.winner.None? && !b.bustPending
    ensures NumberClick(b, rules, n).bustPending <==>
            Judge(b.players[b.current].score, [Dart(n, b.multiplier)], rules.requiresDouble) == Bust
  {
    TurnTotalOne(Dart(n, b.multiplier));
  }

  /** A miss appends a zero on the single ring and changes nothing else: it
      neither warns nor submits, even as the third dart. */
  lemma MissAppendsZero(b: Board)
    requires |b.darts| < 3 && b.winner.None?
    ensures Miss(b) == b.(darts := b.darts + [Dart(0, Single)])
    ensures ValueOf(Dart(0, Single)) == 0
  {
  }

  /** The bull key does nothing on the triple ring (the value function alone would score 25). */
  lemma TripleBullRefused(b: Board, rules: Rules)
    requires 0 <= b.current < |b.players|
    requires b.multiplier == Triple
    ensures Bull(b, rules) == b
    ensures DartValue(25, Triple) == 25
  {
  }

  /** Undo drops exactly the last dart of a non-empty turn, does nothing on an
      empty one, and never touches the players, the turn or the winner. */
  lemma RemoveLastDartSpec(b: Board)
    ensures |b.darts| > 0 ==> RemoveLastDart(b).darts + [b.darts[|b.darts| - 1]] == b.darts
    ensures |b.darts| == 0 ==> RemoveLastDart(b) == b
    ensures RemoveLastDart(b) == b.(darts := RemoveLastDart(b).darts)
  {
  }

  /** Confirming the warning clears the turn and passes it on, with every player untouched. */
  lemma ConfirmBustSkipsTurn(b: Board)
    requires |b.players| > 0 && 0 <= b.current < |b.players|
    ensures var r := ConfirmBust(b);
      && r.players == b.players && r.darts == [] && !r.bustPending
      && r.current == (b.current + 1) % |b.players| && r.multiplier == Single
      && r.winner == b.winner
  {
  }

  /** A bust changes no player, clears the turn, passes it on and resets the ring. */
  lemma SubmitBust(b: Board, rules: Rules, darts: seq<Dart>)
    requires 0 <= b.current < |b.players| && |darts| > 0 && b.winner.None?
    requires Judge(b.players[b.current].score, darts, rules.requiresDouble) == Bust
    ensures var r := Submit(b, rules, darts);
      && r.players == b.players && r.darts == []
      && r.current == (b.current + 1) % |b.players| && r.multiplier == Single
      && r.winner == None && r.bustPending == b.bustPending
  {
  }

  /** An ordinary turn takes its total off the current player's score and
      adds it to that player's statistics; every other player is unchanged. */
  lemma SubmitScored(b: Board, rules: Rules, darts: seq<Dart>)
    requires 0 <= b.current < |b.players| && |darts| > 0 && b.winner.None?
    requires Judge(b.players[b.current].score, darts, rules.requiresDouble) == Scored
    ensures var r := Submit(b, rules, darts);
      var p := b.players[b.current];
      var t := TurnTotal(darts);
      && |r.players| == |b.players|
      && r.players[b.current].profile == p.profile
      && r.players[b.current].score == p.score - t > 0
      && r.players[b.current].lastScore == t
      && r.players[b.current].dartsThrown == p.dartsThrown + |darts|
      && r.players[b.current].total == p.total + t
      && (forall i | 0 <= i < |b.players| && i != b.current :: r.players[i] == b.players[i])
      && r.darts == [] && r.current == (b.current + 1) % |b.players|
      && r.multiplier == Single && r.winner == None
  {
  }

  /** A checkout records the current player, as they stood before the turn,
      as the winner; players, turn and darts stay as they were. */
  lemma SubmitCheckout(b: Board, rules: Rules, darts: seq<Dart>)
    requires 0 <= b.current < |b.players| && |darts| > 0 && b.winner.None?
    requires Judge(b.players[b.current].score, darts, rules.requiresDouble) == Checkout
    ensures var r := Submit(b, rules, darts);
      && r.winner == Some(b.players[b.current])
      && r.players == b.players && r.current == b.current && r.darts == b.darts
  {
  }

  /** Once a winner is set, only the winner card is on screen: no input changes
      the board, in particular not the players, the turn or the winner. */
  lemma {:induction false} WinnerIsFinal(b: Board, rules: Rules, inputs: seq<Input>)
    requires Valid(b, rules) && b.winner.Some?
    ensures var r := Run(b, rules, inputs);
      r.winner == b.winner && r.players == b.players && r.current == b.current
    ensures Run(b, rules, inputs) == b
    decreases |inputs|
  {
    if inputs != [] {
      var b1 := Step(b, rules, inputs[0]);
      assert b1 == b;
      StepPreservesValid(b, rules, inputs[0]);
      WinnerIsFinal(b1, rules, inputs[1..]);
    }
  }

  /** Every score stays between 1 and the start score, and every three-dart
      average between 0 and 180. */
  lemma ScoresInRange(b: Board, rules: Rules, i: int)
    requires Valid(b, rules) && 0 <= i < |b.players|
    ensures 1 <= b.players[i].score <= rules.startScore
    ensures 0.0 <= ThreeDartAverage(b.players[i].total, b.players[i].dartsThrown) <= 180.0
  {
    assert PlayerValid(b.players[i], rules.startScore);
  }

  /** Whatever the setup form holds, the match it starts never asks for a double finish. */
  lemma FormSettingsNeverRequireDouble(setup: Setup.MatchSetup)
    requires setup.Valid()
    ensures !RulesOf(Some(setup.Settings())).requiresDouble
  {
    Setup.SettingsFromForm(setup);
    SetupFinishTypesNeverRequireDouble(setup.Settings().finishType);
  }

  /** Three treble 20s total 180. */
  lemma ThreeTrebleTwenties()
    ensures TurnTotal([Dart(20, Triple), Dart(20, Triple), Dart(20, Triple)]) == 180
  {
    var t20 := Dart(20, Triple);
    assert [t20][..0] == [];
    assert [t20, t20][..1] == [t20];
    assert [t20, t20, t20][..2] == [t20, t20];
  }

  /** A treble 20 as the first or second dart of a turn, with more than 60
      left, is only recorded. */
  lemma TrebleTwentyRecorded(b: Board, rules: Rules)
    requires 0 <= b.current < |b.players| && b.winner.None? && !b.bustPending
    requires b.multiplier == Triple && |b.darts| < 2 && b.players[b.current].score > 60
    ensures Step(b, rules, Number(20)) == b.(darts := b.darts + [Dart(20, Triple)])
  {
  }

  /** A third treble 20 after two, from 501, scores 180 and passes the turn. */
  lemma ThirdTrebleTwenty(b: Board, rules: Rules)
    requires 0 <= b.current < |b.players| && b.winner.None? && !b.bustPending
    requires b.multiplier == Triple && b.darts == [Dart(20, Triple), Dart(20, Triple)]
    requires b.players[b.current].score == 501
    ensures Step(b, rules, Number(20))
            == NextPlayer(b.(players := b.players[b.current := Credit(b.players[b.current], 180, 3)], darts := []))
  {
    var t20 := Dart(20, Triple);
    ThreeTrebleTwenties();
    var r := b.(darts := [t20, t20, t20]);
    assert Recorded(b, rules, 20) == r;
    assert Judge(501, r.darts, rules.requiresDouble) == Scored;
  }

  /** Two players at 501: the first throws treble 20 three times, scores 180
      and is left on 321, and the turn passes to the second player. */
  lemma OpeningTurnScenario(a: Profile, b: Profile, rules: Rules)
    requires rules.startScore == 501
    ensures var r := Run(Init([a, b], rules), rules, [Select(Triple), Number(20), Number(20), Number(20)]);
      && r.players[0].score == 321 && r.players[0].lastScore == 180 && r.players[0].dartsThrown == 3
      && r.players[1] == Init([a, b], rules).players[1]
      && r.current == 1 && r.darts == [] && r.multiplier == Single
  {
    var b0 := Init([a, b], rules);
    InitValid([a, b], rules);
    var t20 := Dart(20, Triple);
    var b1 := Step(b0, rules, Select(Triple));
    StepPreservesValid(b0, rules, Select(Triple));
    TrebleTwentyRecorded(b1, rules);
    var b2 := Step(b1, rules, Number(20));
    StepPreservesValid(b1, rules, Number(20));
    TrebleTwentyRecorded(b2, rules);
    var b3 := Step(b2, rules, Number(20));
    StepPreservesValid(b2, rules, Number(20));
    ThirdTrebleTwenty(b3, rules);
    var b4 := Step(b3, rules, Number(20));
    StepPreservesValid(b3, rules, Number(20));
    var inputs := [Select(Triple), Number(20), Number(20), Number(20)];
    assert inputs[1..][1..][1..][1..] == [];
    assert Run(b3, rules, inputs[1..][1..][1..]) == b4;
    assert Run(b2, rules, inputs[1..][1..]) == b4;
    assert Run(b1, rules, inputs[1..]) == b4;
  }
}
