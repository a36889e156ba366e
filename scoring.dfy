/** The pure scoring rules of the match screen (src/pages/GamePlay.tsx):
    the value of one dart, the total of a turn, the finish rule and the
    bust test of the turn submission. The first-dart preview writes the same
    condition out separately, as the source does; `Turns.PreviewMatchesSubmitRule`
    proves the two agree. */
module Scoring {

  datatype Multiplier = Single | Double | Triple

  /** One recorded dart: the segment pressed (0 for a miss, 1..20, or 25 for
      the bull) and the ring that was selected when it was recorded. */
  datatype Dart = Dart(number: int, multiplier: Multiplier)

  /** The segments the keypad can produce, with 0 standing for a miss. */
  predicate LegalSegment(n: int)
  {
    0 <= n <= 20 || n == 25
  }

  predicate LegalDarts(darts: seq<Dart>)
  {
    forall i | 0 <= i < |darts| :: LegalSegment(darts[i].number)
  }

  function Factor(m: Multiplier): nat
  {
    match m
    case Single => 1
    case Double => 2
    case Triple => 3
  }

  /** `calculateDartValue`: the bull is worth 50 on the double ring and 25
      otherwise (a triple bull is not rejected here); any other segment is
      multiplied by its ring. */
  function DartValue(number: int, mult: Multiplier): (v: int)
    ensures LegalSegment(number) ==> 0 <= v <= 60
    ensures number == 0 ==> v == 0
  {
    if number == 25 then (if mult == Double then 50 else 25)
    else number * Factor(mult)
  }

  function ValueOf(d: Dart): int
  {
    DartValue(d.number, d.multiplier)
  }

  /** The double ring is worth twice the single ring on every segment, the
      bull included: a double bull scores 50. */
  lemma DoubleIsTwiceSingle(n: int)
    ensures DartValue(n, Double) == 2 * DartValue(n, Single)
    ensures DartValue(25, Double) == 50
  {
  }

  /** Off the bull the single ring scores the face value and the triple ring
      three times that; on the bull a triple scores like a single. */
  lemma TripleScoring(n: int)
    ensures n != 25 ==> DartValue(n, Single) == n
    ensures n != 25 ==> DartValue(n, Triple) == 3 * DartValue(n, Single)
    ensures DartValue(25, Triple) == DartValue(25, Single) == 25
  {
  }

  /** The `reduce` over a turn's darts, accumulated from the first dart to the last. */
  function TurnTotal(darts: seq<Dart>): (t: int)
    ensures LegalDarts(darts) ==> 0 <= t <= 60 * |darts|
  {
    if darts == [] then 0
    else TurnTotal(darts[..|darts| - 1]) + ValueOf(darts[|darts| - 1])
  }

  /** A one-dart turn totals that dart's value. */
  lemma TurnTotalOne(d: Dart)
    ensures TurnTotal([d]) == DartValue(d.number, d.multiplier)
  {
    assert [d][..0] == [];
  }

  /** `requiresDouble`, verbatim: only the strings "double" and "master" ask for a double finish. */
  predicate RequiresDouble(finishType: string)
  {
    finishType == "double" || finishType == "master"
  }

  /** The finish rules the setup screen can send ("double-out", "master-out",
      "straight-out") never ask for a double finish. */
  lemma SetupFinishTypesNeverRequireDouble(finishType: string)
    requires finishType in {"double-out", "master-out", "straight-out"}
    ensures !RequiresDouble(finishType)
  {
  }

  /** The bust condition written out twice in the source (first-dart preview and submission):
      below zero, or exactly zero without the required double. */
  predicate IsBust(score: int, total: int, requiresDouble: bool, last: Multiplier)
  {
    score - total < 0 || (score - total == 0 && requiresDouble && last != Double)
  }

  /** How a submitted turn is judged, in the order the submission tests it. */
  datatype Verdict = Bust | Checkout | Scored

  function Judge(score: int, darts: seq<Dart>, requiresDouble: bool): (v: Verdict)
    requires |darts| > 0
    ensures v == Bust <==> IsBust(score, TurnTotal(darts), requiresDouble, darts[|darts| - 1].multiplier)
    ensures v == Checkout ==> TurnTotal(darts) == score
    ensures v == Scored ==> TurnTotal(darts) < score
    ensures TurnTotal(darts) > score ==> v == Bust
  {
    var t := TurnTotal(darts);
    if IsBust(score, t, requiresDouble, darts[|darts| - 1].multiplier) then Bust
    else if score - t == 0 then Checkout
    else Scored
  }

  /** Reaching exactly zero without a double requirement always wins. */
  lemma StraightFinishWins(score: int, darts: seq<Dart>)
    requires |darts| > 0 && TurnTotal(darts) == score
    ensures Judge(score, darts, false) == Checkout
  {
  }

  /** With the double requirement, reaching zero wins exactly when the last dart is a double;
      a triple (as master-out would allow) is a bust. */
  lemma DoubleFinishNeedsDouble(score: int, darts: seq<Dart>)
    requires |darts| > 0 && TurnTotal(darts) == score
    ensures Judge(score, darts, true) == Checkout <==> darts[|darts| - 1].multiplier == Double
    ensures darts[|darts| - 1].multiplier == Triple ==> Judge(score, darts, RequiresDouble("master")) == Bust
  {
  }

  /** As written, the "double-out" setting accepts any finishing ring. */
  lemma DoubleOutSettingAcceptsAnyFinish(score: int, darts: seq<Dart>)
    requires |darts| > 0 && TurnTotal(darts) == score
    ensures Judge(score, darts, RequiresDouble("double-out")) == Checkout
  {
    SetupFinishTypesNeverRequireDouble("double-out");
  }

  /** `calculate3DartAvg` before its two-decimal formatting: three times the
      points per dart, and 0 before the first dart. */
  function ThreeDartAverage(total: int, dartsThrown: nat): (avg: real)
    ensures dartsThrown == 0 ==> avg == 0.0
    ensures dartsThrown > 0 && 0 <= total <= 60 * dartsThrown ==> 0.0 <= avg <= 180.0
  {
    if dartsThrown == 0 then 0.0
    else
      var avg := (total as real / dartsThrown as real) * 3.0;
      AverageBound(total, dartsThrown);
      avg
  }

  lemma AverageBound(total: int, dartsThrown: int)
    requires dartsThrown > 0
    ensures 0 <= total <= 60 * dartsThrown ==> 0.0 <= (total as real / dartsThrown as real) * 3.0 <= 180.0
  {
    if 0 <= total <= 60 * dartsThrown {
      var q := total as real / dartsThrown as real;
      assert q * dartsThrown as real == total as real;
      assert q <= 60.0 by {
        if q > 60.0 {
          assert q * dartsThrown as real > 60.0 * dartsThrown as real;
        }
      }
    }
  }

  /** Nine darts for 405 points average 135. */
  lemma AverageExample()
    ensures ThreeDartAverage(405, 9) == 135.0
  {
  }
}
