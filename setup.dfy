/** The match-setup screen (src/pages/MatchSetup.tsx): the roster being
    built, the settings form and the settings record handed to the match. */
module Setup {

  import opened Wrappers
  import opened Roster

  /** The record built by `handleStartGame`; `startScore` is `None` where
      `parseInt` yields NaN. */
  datatype GameSettings = GameSettings(
    gameType: string,
    matchType: string,
    scoreType: string,
    startScore: Option<int>,
    startType: string,
    finishType: string)

  // The options each control of the form offers.
  const GameTypes: set<string> := {"singles", "teams"}
  const MatchTypes: set<string> := {"best-of", "first-to"}
  const ScoreTypes: set<string> := {"legs", "sets"}
  const PlayToOptions: set<string> := {"301", "501", "701", "custom"}
  const StartRules: set<string> := {"straight-in", "double-in", "master-in"}
  const EndRules: set<string> := {"double-out", "master-out", "straight-out"}

  predicate IsDigit(c: char)
  {
    '0' <= c <= '9'
  }

  predicate AllDigits(s: string)
  {
    forall i | 0 <= i < |s| :: IsDigit(s[i])
  }

  /** The longest run of digits at the front of `s`. */
  function LeadingDigits(s: string): (p: string)
    ensures p <= s && AllDigits(p)
    ensures |p| < |s| ==> !IsDigit(s[|p|])
  {
    if s == [] || !IsDigit(s[0]) then []
    else [s[0]] + LeadingDigits(s[1..])
  }

  /** The value of a run of decimal digits, most significant first. */
  function DigitsValue(s: string): nat
    requires AllDigits(s)
  {
    if s == [] then 0
    else DigitsValue(s[..|s| - 1]) * 10 + (s[|s| - 1] as int - '0' as int)
  }

  /** `parseInt(s)` for the strings the form holds: an optional sign, then
      the leading digits; no digits at all gives NaN (`None`). */
  function ParseInt(s: string): (r: Option<int>)
    ensures r.None? <==> LeadingDigits(Unsigned(s)) == []
    ensures r.Some? && !(|s| > 0 && s[0] == '-') ==> r.value >= 0
  {
    var digits := LeadingDigits(Unsigned(s));
    if digits == [] then None
    else if |s| > 0 && s[0] == '-' then Some(0 - DigitsValue(digits) as int)
    else Some(DigitsValue(digits))
  }

  /** `s` without its leading sign. */
  function Unsigned(s: string): string
  {
    if |s| > 0 && (s[0] == '-' || s[0] == '+') then s[1..] else s
  }

  function Digit(d: nat): (c: char)
    requires d < 10
    ensures IsDigit(c)
  {
    ('0' as int + d) as char
  }

  /** The decimal rendering of a natural number, as a number field holds it. */
  function DecimalString(n: nat): (s: string)
    ensures |s| > 0 && AllDigits(s)
  {
    if n < 10 then [Digit(n)] else DecimalString(n / 10) + [Digit(n % 10)]
  }

  lemma {:induction false} DecimalValue(n: nat)
    ensures DigitsValue(DecimalString(n)) == n
  {
    var s := DecimalString(n);
    if n >= 10 {
      DecimalValue(n / 10);
      assert s[..|s| - 1] == DecimalString(n / 10);
    } else {
      assert s[..|s| - 1] == [];
    }
  }

  lemma {:induction false} LeadingDigitsStop(s: string, t: string)
    requires AllDigits(s)
    requires t == [] || !IsDigit(t[0])
    ensures LeadingDigits(s + t) == s
  {
    if s == [] {
      assert s + t == t;
    } else {
      assert (s + t)[1..] == s[1..] + t;
      LeadingDigitsStop(s[1..], t);
    }
  }

  /** `parseInt` reads back every rendered natural number. */
  lemma ParseIntDecimal(n: nat)
    ensures ParseInt(DecimalString(n)) == Some(n)
  {
    var s := DecimalString(n);
    assert IsDigit(s[0]);
    LeadingDigitsStop(s, []);
    assert s + [] == s;
    DecimalValue(n);
  }

  /** `parseInt` stops at the first character that is not a digit. */
  lemma ParseIntStopsAtNonDigit(s: string, t: string)
    requires |s| > 0 && AllDigits(s)
    requires t == [] || !IsDigit(t[0])
    ensures ParseInt(s + t) == ParseInt(s)
  {
    assert (s + t)[0] == s[0];
    LeadingDigitsStop(s, t);
    LeadingDigitsStop(s, []);
    assert s + [] == s;
  }

  /** The three presets parse to their face values. */
  lemma PresetScores()
    ensures ParseInt("301") == Some(301)
    ensures ParseInt("501") == Some(501)
    ensures ParseInt("701") == Some(701)
  {
    assert DecimalString(301) == "301";
    assert DecimalString(501) == "501";
    assert DecimalString(701) == "701";
    ParseIntDecimal(301);
    ParseIntDecimal(501);
    ParseIntDecimal(701);
  }

  /** The component state of the setup screen. */
  class MatchSetup {
    var gameType: string
    var players: seq<Profile>
    var addPlayerOpen: bool
    var matchType: string
    var scoreType: string
    var playTo: string
    var customScore: string
    var startRule: string
    var endRule: string

    /** Every select and radio group holds one of its own options. */
    ghost predicate Valid()
      reads this
    {
      && gameType in GameTypes
      && matchType in MatchTypes
      && scoreType in ScoreTypes
      && playTo in PlayToOptions
      && startRule in StartRules
      && endRule in EndRules
    }

    /** The initial `useState` values. */
    constructor ()
      ensures Valid()
      ensures gameType == "singles" && players == [] && !addPlayerOpen
      ensures matchType == "best-of" && scoreType == "legs"
      ensures playTo == "501" && customScore == ""
      ensures startRule == "straight-in" && endRule == "double-out"
    {
      gameType := "singles";
      players := [];
      addPlayerOpen := false;
      matchType := "best-of";
      scoreType := "legs";
      playTo := "501";
      customScore := "";
      startRule := "straight-in";
      endRule := "double-out";
    }

    /** The form controls: each takes one of the values its control offers
        (the custom score field takes any text). */
    method Configure(gameType': string, matchType': string, scoreType': string,
                     playTo': string, customScore': string, startRule': string, endRule': string)
      requires gameType' in GameTypes && matchType' in MatchTypes && scoreType' in ScoreTypes
      requires playTo' in PlayToOptions && startRule' in StartRules && endRule' in EndRules
      modifies this`gameType, this`matchType, this`scoreType, this`playTo,
               this`customScore, this`startRule, this`endRule
      ensures Valid()
      ensures gameType == gameType' && matchType == matchType' && scoreType == scoreType'
      ensures playTo == playTo' && customScore == customScore'
      ensures startRule == startRule' && endRule == endRule'
    {
      gameType, matchType, scoreType := gameType', matchType', scoreType';
      playTo, customScore := playTo', customScore';
      startRule, endRule := startRule', endRule';
    }

    /** `handleAddPlayer`: append at the end, with no duplicate check. */
    method AddPlayer(player: Profile)
      modifies this`players
      ensures players == old(players) + [player]
    {
      players := players + [player];
    }

    /** `handleRemovePlayer`: drop every entry with that id. */
    method RemovePlayer(id: string)
      modifies this`players
      ensures players == RemoveId(old(players), id)
      ensures !HasId(old(players), id) ==> players == old(players)
    {
      players := RemoveId(players, id);
      if !HasId(old(players), id) {
        RemoveAbsentId(old(players), id);
      }
    }

    /** `onOpenChange` handed to the add-player dialog. */
    method SetAddPlayerOpen(open: bool)
      modifies this`addPlayerOpen
      ensures addPlayerOpen == open
    {
      addPlayerOpen := open;
    }

    /** The settings record of `handleStartGame`. */
    function Settings(): (s: GameSettings)
      reads this
      ensures s.startType == startRule && s.finishType == endRule
      ensures playTo == "custom" ==> s.startScore == ParseInt(customScore)
      ensures playTo != "custom" ==> s.startScore == ParseInt(playTo)
    {
      GameSettings(gameType, matchType, scoreType,
                   ParseInt(if playTo == "custom" then customScore else playTo),
                   startRule, endRule)
    }

    /** `handleStartGame`, reachable only with at least one player: hands the
        roster and the settings record to the match screen. */
    method StartGame() returns (roster: seq<Profile>, settings: GameSettings)
      requires |players| >= 1
      ensures roster == players && |roster| >= 1
      ensures settings == Settings()
    {
      roster := players;
      settings := Settings();
    }
  }

  /** A preset sends its face value; any setting the form can hold sends a
      finish rule that does not require a double. */
  lemma SettingsFromForm(setup: MatchSetup)
    requires setup.Valid()
    ensures setup.playTo == "301" ==> setup.Settings().startScore == Some(301)
    ensures setup.playTo == "501" ==> setup.Settings().startScore == Some(501)
    ensures setup.playTo == "701" ==> setup.Settings().startScore == Some(701)
    ensures setup.Settings().finishType in EndRules
  {
    PresetScores();
  }
}
