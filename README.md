# Darts scorekeeper: verified model of the countdown turn engine

This project models the logic of a darts scorekeeping prototype in Dafny.

The main part is the "x01" countdown engine of the match screen (`src/pages/GamePlay.tsx`). Each player starts from a configured score. Each turn of three darts subtracts its total. A turn that goes below zero, or reaches zero without a required double, is a bust. A player who reaches exactly zero wins. The model also covers the list updates of the setup screen (`src/pages/MatchSetup.tsx`), the teams view (`src/components/TeamsView.tsx`) and the add-player dialog (`src/components/AddPlayerDialog.tsx`).

## Layout

- `wrappers.dfy`, module `Wrappers`: `Option`.
- `roster.dfy`, module `Roster`: the roster entry `{ id, name, type }` and the filter-by-id update that the setup screen and the teams view use.
- `scoring.dfy`, module `Scoring`: the pure rules of the match screen. These are the value of a dart, the turn total, the `requiresDouble` test, the bust test, the verdict on a turn and the three-dart average.
- `turns.dfy`, module `Turns`: the match screen's state as a `Board` value. Every handler is a function from the old board to the new one. `Step` and `Run` replay user inputs. A click on a control that is disabled or not on screen does nothing. Once a winner is set, only the winner card is shown, so no control of the match is on screen. The invariant `Valid` and the properties of the engine are proved here.
- `gameplay.dfy`, module `GamePlay`: class `Match`. It has the component's state fields, and its methods are the handlers written imperatively. Each input handler, and the submission, is proved to keep `Valid` and to move the state exactly as its `Turns` function does. `NextPlayer` is proved to move the state as `Turns.NextPlayer`, and `SetMultiplier` is proved to change only the ring.
- `setup.dfy`, module `Setup`: class `MatchSetup` (the roster list and the settings form), `parseInt` on the form's strings, and the settings record.
- `teams.dfy`, module `Teams`: the unassigned filter, the greedy team placement (the `forEach` loop as a method with loop invariants) and class `TeamsView` with its move and remove handlers.
- `addplayer.dfy`, module `AddPlayer`: the friend-selection toggle, the batch add of the selected friends, the guest form and class `AddPlayerDialog`.

## Behaviour as written

The model follows the code, including these behaviours:

- `requiresDouble` is true only for the finish types `"double"` and `"master"`. The setup form only sends `"double-out"`, `"master-out"` or `"straight-out"`. So every match started from the form accepts any finishing ring (`Turns.FormSettingsNeverRequireDouble`, `Scoring.DoubleOutSettingAcceptsAnyFinish`).
- When a double is required, only the double ring satisfies it. A triple does not, even under "master".
- A winning turn only records the winner. The winner's score, darts, total and last score are not updated. The turn index and the darts on display stay as they were.
- A miss neither raises the first-dart warning nor triggers the automatic submission. A third dart that is a miss therefore leaves a full turn that only Undo can change.
- The value function scores a triple bull as 25. Only the bull key refuses the triple ring.
- A turn is submitted only by the automatic submission after the third dart.
- The UI disables the keys and Undo while the bust warning shows, and shows Confirm Bust only then. The class methods have these as preconditions. Once a winner is set, the screen shows only the winner card. `Turns.Step` treats a click on a disabled or hidden control as doing nothing.
- The start score is `settings?.startScore || 501`. A missing settings record, NaN and 0 all give 501.

## Model

| member | source | states |
|---|---|---|
| `Roster.RemoveId` | src/pages/MatchSetup.tsx:37-39 | the result holds exactly the entries whose id differs from the removed one, and no entry with that id remains |
| `Roster.RemoveIdAppend` | src/pages/MatchSetup.tsx:38 | removal distributes over concatenation, so the remaining entries keep their relative order |
| `Roster.RemoveAbsentId` | src/pages/MatchSetup.tsx:38 | removing an id that no entry carries leaves the list unchanged |
| `Scoring.DartValue` | src/pages/GamePlay.tsx:53-56 | a dart on a keypad segment is worth 0 to 60, and a miss is worth 0 |
| `Scoring.DoubleIsTwiceSingle` | src/pages/GamePlay.tsx:53-56 | the double ring is worth twice the single ring on every segment, the bull included: a double bull scores 50 |
| `Scoring.TripleScoring` | src/pages/GamePlay.tsx:53-56 | off the bull a single scores the face value and a triple three times that; a triple bull scores 25 like a single bull |
| `Scoring.TurnTotal` | src/pages/GamePlay.tsx:124 | the total of legal darts is between 0 and 60 per dart |
| `Scoring.RequiresDouble` | src/pages/GamePlay.tsx:126 | no contract of its own: true only for the finish types "double" and "master"; `SetupFinishTypesNeverRequireDouble` and `Turns.FormSettingsNeverRequireDouble` state that the setup form's values never make it true |
| `Scoring.IsBust` | src/pages/GamePlay.tsx:129 | no contract of its own: the bust condition (below zero, or zero without a required double on the last dart); `Judge` states that a turn is a bust exactly when it holds, and `Turns.PreviewMatchesSubmitRule` ties the first-dart preview of line 78 to it |
| `Scoring.SetupFinishTypesNeverRequireDouble` | src/pages/GamePlay.tsx:126 | none of "double-out", "master-out" or "straight-out" makes `requiresDouble` true |
| `Scoring.Judge` | src/pages/GamePlay.tsx:128-148 | a turn is a bust exactly under the bust rule; a checkout leaves exactly 0; an ordinary turn leaves a positive score; overshooting is always a bust |
| `Scoring.StraightFinishWins` | src/pages/GamePlay.tsx:129-141 | without the double requirement, reaching exactly 0 always wins |
| `Scoring.DoubleFinishNeedsDouble` | src/pages/GamePlay.tsx:126-129 | with the double requirement, reaching 0 wins exactly when the last dart is a double; a triple finish under "master" is a bust |
| `Scoring.DoubleOutSettingAcceptsAnyFinish` | src/pages/GamePlay.tsx:126-129 | under the "double-out" setting, reaching 0 wins whatever the last ring |
| `Scoring.ThreeDartAverage` | src/pages/GamePlay.tsx:169-172 | the average is 0 before any dart, and between 0 and 180 when the total is at most 60 per dart |
| `Scoring.AverageExample` | src/pages/GamePlay.tsx:169-172 | 405 points in 9 darts average 135 |
| `Setup.ParseInt` | src/pages/MatchSetup.tsx:46 | NaN exactly when no digit follows the optional sign; an unsigned result is non-negative |
| `Setup.ParseIntDecimal` | src/pages/MatchSetup.tsx:46 | parsing the decimal rendering of any natural number gives that number back |
| `Setup.ParseIntStopsAtNonDigit` | src/pages/MatchSetup.tsx:46 | parsing stops at the first non-digit, so trailing text does not change the result |
| `Setup.PresetScores` | src/pages/MatchSetup.tsx:190-192 | the presets "301", "501" and "701" parse to 301, 501 and 701 |
| `Setup.MatchSetup.constructor` | src/pages/MatchSetup.tsx:21-31 | the defaults: singles, an empty roster, best-of, legs, play to "501", straight-in, double-out |
| `Setup.MatchSetup.Configure` | src/pages/MatchSetup.tsx:185-233 | every control takes one of its own options (end rule in double-out, master-out, straight-out), and the form invariant holds |
| `Setup.MatchSetup.AddPlayer` | src/pages/MatchSetup.tsx:33-35 | the entry is appended at the end and earlier entries are unchanged; there is no duplicate check |
| `Setup.MatchSetup.RemovePlayer` | src/pages/MatchSetup.tsx:37-39 | every entry with the id is removed, in order; an absent id leaves the roster unchanged |
| `Setup.MatchSetup.SetAddPlayerOpen` | src/pages/MatchSetup.tsx:248-252 | the dialog's open flag takes the given value |
| `Setup.MatchSetup.Settings` | src/pages/MatchSetup.tsx:41-49 | `startType` is the start rule and `finishType` is the end rule; `startScore` parses the custom field when "custom" is chosen and the preset otherwise |
| `Setup.MatchSetup.StartGame` | src/pages/MatchSetup.tsx:239-244 | the game can start only with at least one player, and it hands over the roster and the settings record |
| `Setup.SettingsFromForm` | src/pages/MatchSetup.tsx:41-49 | a preset sends its face value as the start score, and the finish type is always one of the three end rules |
| `Turns.StartScore` | src/pages/GamePlay.tsx:35 | a missing settings record, NaN and 0 fall back to 501; any other start score is used as given |
| `Turns.Init` | src/pages/GamePlay.tsx:32-45 | every roster entry starts at the start score with no darts thrown, last score 0 and total 0; the turn is player 0's, on the single ring, with no darts, no winner and no warning |
| `Turns.Valid` | src/pages/GamePlay.tsx:32-45 | no contract of its own: the invariant over the match state (index in range, at most 3 legal darts, per-player score + total = start, score >= 1, darts thrown a multiple of 3, total at most 60 per dart, warning only on a lone first dart, winner is the current player); `InitValid`, `StepPreservesValid` and `Run` state that it holds initially and after every input |
| `Turns.InitValid` | src/pages/GamePlay.tsx:32-45 | the initial state satisfies the invariant for a non-empty roster and a positive start score |
| `Turns.NextPlayer` | src/pages/GamePlay.tsx:164-167 | the turn passes to the next player in roster order, wrapping to 0 after the last, and the ring resets to single; nothing else changes |
| `Turns.Recorded` | src/pages/GamePlay.tsx:69-81 | recording appends exactly the pressed segment on the selected ring and changes only the darts and the warning flag |
| `Turns.Submit` | src/pages/GamePlay.tsx:120-162 | no contract of its own; `SubmitBust`, `SubmitScored`, `SubmitCheckout` and `SubmitPreservesValid` state its three outcomes and the invariant |
| `Turns.NumberClick` | src/pages/GamePlay.tsx:58-89 | no contract of its own; `RecordingGuard`, `NumberClickAppends`, `ThirdDartSubmits`, `PreviewMatchesSubmitRule` and `NumberClickPreservesValid` state its guard, recording, warning, automatic submission and the invariant |
| `Turns.Miss` | src/pages/GamePlay.tsx:91-94 | no contract of its own; `RecordingGuard` and `MissAppendsZero` state its guard and its effect |
| `Turns.Bull` | src/pages/GamePlay.tsx:96-106 | no contract of its own; `TripleBullRefused` states the refusal on the triple ring, and otherwise it is `NumberClick` on 25 |
| `Turns.RemoveLastDart` | src/pages/GamePlay.tsx:108-112 | no contract of its own; `RemoveLastDartSpec` states its effect |
| `Turns.ConfirmBust` | src/pages/GamePlay.tsx:114-118 | no contract of its own; `ConfirmBustSkipsTurn` states its effect |
| `Turns.Enabled` | src/pages/GamePlay.tsx:174-330 | no contract of its own: no control of the match exists once a winner is shown (lines 174-195); the keys, bull, miss and Undo are disabled while the warning shows (lines 299, 312, 319, 326), and Confirm Bust is shown only then (line 264). The further `disabled` conditions on the dart count are left to the handlers' own guards, which make those clicks no-ops (`RecordingGuard`, `RemoveLastDartSpec`) |
| `Turns.Step` | src/pages/GamePlay.tsx:174-330 | no contract of its own; `StepPreservesValid` states that every input keeps the invariant, and `WinnerIsFinal` that no input changes a won board |
| `Turns.Run` | src/pages/GamePlay.tsx:58-167 | after any sequence of inputs the invariant holds: a valid index, at most 3 legal darts, score + total = start score, score >= 1, darts thrown a multiple of 3, total at most 60 per dart, and the winner is the current player |
| `Turns.StepPreservesValid` | src/pages/GamePlay.tsx:58-167 | every input keeps the invariant |
| `Turns.SubmitPreservesValid` | src/pages/GamePlay.tsx:120-162 | a three-dart submission keeps the invariant; an ordinary turn leaves the score at least 1 |
| `Turns.NumberClickPreservesValid` | src/pages/GamePlay.tsx:58-89 | a key press keeps the invariant, including the automatic submission it may trigger |
| `Turns.RecordingGuard` | src/pages/GamePlay.tsx:59 | with 3 darts already recorded or a winner set, number keys, the bull and misses change nothing |
| `Turns.NumberClickAppends` | src/pages/GamePlay.tsx:69-70 | before the third dart, a key press appends exactly one dart on the selected ring and leaves the players, the turn, the winner and the ring unchanged |
| `Turns.ThirdDartSubmits` | src/pages/GamePlay.tsx:84-87 | the third dart submits the turn with all three darts at once |
| `Turns.PreviewMatchesSubmitRule` | src/pages/GamePlay.tsx:73-80 | the first-dart warning is raised exactly when that dart alone, as a submitted turn, would be judged a bust |
| `Turns.MissAppendsZero` | src/pages/GamePlay.tsx:91-94 | a miss appends a 0 on the single ring and changes nothing else: no warning and no submission |
| `Turns.TripleBullRefused` | src/pages/GamePlay.tsx:96-105 | the bull key on the triple ring changes nothing, although the value function would score it 25 |
| `Turns.RemoveLastDartSpec` | src/pages/GamePlay.tsx:108-112 | Undo drops exactly the last dart of a non-empty turn, does nothing on an empty one, and touches nothing but the darts |
| `Turns.ConfirmBustSkipsTurn` | src/pages/GamePlay.tsx:114-118 | confirming the warning clears the darts and the flag and passes the turn on; no player changes |
| `Turns.SubmitBust` | src/pages/GamePlay.tsx:129-137 | a bust leaves every player unchanged, clears the darts, sets the index to (i+1) mod n and resets the ring |
| `Turns.SubmitScored` | src/pages/GamePlay.tsx:150-161 | an ordinary turn subtracts T from the current player's score and adds it to the total, sets lastScore to T and adds the number of darts; all other players are unchanged and the turn passes on |
| `Turns.SubmitCheckout` | src/pages/GamePlay.tsx:141-147 | a checkout makes the current player, as they stood before the turn, the winner; players, index and darts are unchanged |
| `Turns.WinnerIsFinal` | src/pages/GamePlay.tsx:174-195 | once a winner is set, only the winner card is shown: no sequence of inputs changes the board, in particular not the winner, the players or the turn |
| `Turns.ScoresInRange` | src/pages/GamePlay.tsx:151-158 | every stored score stays between 1 and the start score, and every three-dart average between 0 and 180 |
| `Turns.FormSettingsNeverRequireDouble` | src/pages/GamePlay.tsx:126 | a match started from any state of the setup form never requires a double finish |
| `Turns.ThreeTrebleTwenties` | src/pages/GamePlay.tsx:124 | three treble 20s total 180 |
| `Turns.TrebleTwentyRecorded` | src/pages/GamePlay.tsx:58-81 | a treble 20 as the first or second dart, with more than 60 left, is only appended to the turn: no warning, no submission |
| `Turns.ThirdTrebleTwenty` | src/pages/GamePlay.tsx:84-87 | a third treble 20 after two, from 501, credits 180 in 3 darts to the current player and passes the turn |
| `Turns.OpeningTurnScenario` | src/pages/GamePlay.tsx:151-161 | two players at 501: treble 20 three times leaves the first on 321, records 180 and 3 darts, and passes the turn to the second player |
| `GamePlay.Match.constructor` | src/pages/GamePlay.tsx:32-45 | builds the initial state from the roster and settings, and the invariant holds |
| `GamePlay.Match.SetMultiplier` | src/pages/GamePlay.tsx:272-289 | only the selected ring changes |
| `GamePlay.Match.NextPlayer` | src/pages/GamePlay.tsx:164-167 | moves the state as `Turns.NextPlayer` |
| `GamePlay.Match.SubmitDartsWithArray` | src/pages/GamePlay.tsx:120-162 | keeps the invariant and moves the state as `Turns.Submit` (bust, checkout or ordinary turn) |
| `GamePlay.Match.RecordDart` | src/pages/GamePlay.tsx:62-81 | appends the dart on the selected ring and raises the warning only when a first dart alone would bust; keeps the invariant; a third dart never raises the warning |
| `GamePlay.Match.HandleNumberClick` | src/pages/GamePlay.tsx:58-89 | keeps the invariant and moves the state as `Turns.NumberClick` (guard, record, warning, automatic submission) |
| `GamePlay.Match.HandleMiss` | src/pages/GamePlay.tsx:91-94 | keeps the invariant and moves the state as `Turns.Miss` |
| `GamePlay.Match.HandleBull` | src/pages/GamePlay.tsx:96-106 | keeps the invariant and moves the state as `Turns.Bull` |
| `GamePlay.Match.RemoveLastDart` | src/pages/GamePlay.tsx:108-112 | keeps the invariant and moves the state as `Turns.RemoveLastDart` |
| `GamePlay.Match.ConfirmBust` | src/pages/GamePlay.tsx:114-118 | keeps the invariant and moves the state as `Turns.ConfirmBust` |
| `Teams.Unassigned` | src/components/TeamsView.tsx:23-25 | the result holds exactly the roster entries whose id is in neither team |
| `Teams.UnassignedAppend` | src/components/TeamsView.tsx:23-25 | the filter distributes over concatenation, so roster order is kept |
| `Teams.Greedy` | src/components/TeamsView.tsx:32-38 | existing members keep their positions; the team sizes grow by exactly the number placed; every placed entry ends up in a team, and nothing else is added; a size difference of 0 or 1 stays 0 or 1 |
| `Teams.Distribute` | src/components/TeamsView.tsx:29-38 | the loop places the entries exactly as the greedy rule does |
| `Teams.GreedyCoversRoster` | src/components/TeamsView.tsx:28-42 | after placement every roster id is in team 1 or team 2 |
| `Teams.NoneUnassigned` | src/components/TeamsView.tsx:28 | when every roster id is in a team, nobody is unassigned |
| `Teams.TeamsView.constructor` | src/components/TeamsView.tsx:19-20 | both teams start empty |
| `Teams.TeamsView.AutoAssign` | src/components/TeamsView.tsx:27-42 | only appends to the teams, places every unassigned entry greedily, covers the whole roster and leaves nobody unassigned |
| `Teams.TeamsView.MoveToTeam2` | src/components/TeamsView.tsx:44-47 | removes the id from team 1 and appends the entry to team 2 |
| `Teams.TeamsView.MoveToTeam1` | src/components/TeamsView.tsx:49-52 | removes the id from team 2 and appends the entry to team 1 |
| `Teams.TeamsView.HandleRemove` | src/components/TeamsView.tsx:54-58 | removes the id from both teams and from the setup screen's roster |
| `AddPlayer.FindFriend` | src/components/AddPlayerDialog.tsx:55 | a friend that is found carries the id; nothing is found exactly when no friend carries the id |
| `AddPlayer.FindFriendIsFirst` | src/components/AddPlayerDialog.tsx:55 | the friend found is the first one in the list with that id |
| `AddPlayer.Without` | src/components/AddPlayerDialog.tsx:48 | the result holds exactly the other ids, and is unchanged when the id is absent |
| `AddPlayer.Toggle` | src/components/AddPlayerDialog.tsx:45-51 | no contract of its own; `ToggleMembership`, `ToggleTwice` and `ToggleKeepsDistinct` state its effect |
| `AddPlayer.ToggleMembership` | src/components/AddPlayerDialog.tsx:45-51 | the id is selected afterwards exactly when it was not before; no other id changes membership |
| `AddPlayer.ToggleTwice` | src/components/AddPlayerDialog.tsx:45-51 | toggling twice restores the membership of every id, and restores the selection itself when the id was absent |
| `AddPlayer.ToggleKeepsDistinct` | src/components/AddPlayerDialog.tsx:47-49 | a selection without duplicates stays without duplicates |
| `AddPlayer.FriendEntry` | src/components/AddPlayerDialog.tsx:55-62 | a known id gives one "friend" entry with id "friend-" + id and the friend's name; an unknown id gives nothing |
| `AddPlayer.FriendPlayers` | src/components/AddPlayerDialog.tsx:53-63 | there are at most as many entries as selected ids, and every one has type "friend" |
| `AddPlayer.FriendPlayersAppend` | src/components/AddPlayerDialog.tsx:54-63 | entries come out in selection order |
| `AddPlayer.FriendPlayersAllKnown` | src/components/AddPlayerDialog.tsx:54-63 | when every selected id is known, entry i is "friend-" + id i with that friend's name |
| `AddPlayer.BatchedAdds` | src/pages/MatchSetup.tsx:33-35 | as written, each add of one click sets the roster to the same render-time roster plus its own entry, so after a non-empty batch the roster is that snapshot plus the last entry only |
| `AddPlayer.RosterAfterBatchedAdds` | src/components/AddPlayerDialog.tsx:54-63 | as written, one click adding several entries leaves the old roster plus only the last of them; the first entry is lost when it differs from the last |
| `AddPlayer.BatchedAddsDropAllButLast` | src/components/AddPlayerDialog.tsx:54-63 | selecting friends 1 and 2 and adding them to an empty roster leaves only friend 2 |
| `AddPlayer.AddPlayerDialog.constructor` | src/components/AddPlayerDialog.tsx:22-31 | an empty guest name, an empty selection and the four mock friends |
| `AddPlayer.AddPlayerDialog.SetGuestName` | src/components/AddPlayerDialog.tsx:122-123 | the field holds the typed name |
| `AddPlayer.Blank` | src/components/AddPlayerDialog.tsx:34 | no contract of its own: every character is in JavaScript's `trim` whitespace set, i.e. `trim()` gives the empty string; `AddPlayerDialog.HandleAddGuest` states that such a name adds nothing |
| `AddPlayer.AddPlayerDialog.HandleAddGuest` | src/components/AddPlayerDialog.tsx:33-43 | a blank or whitespace-only name changes nothing; otherwise a "guest" entry with the untrimmed name is appended, the name is cleared and the dialog closes |
| `AddPlayer.AddPlayerDialog.ToggleFriend` | src/components/AddPlayerDialog.tsx:45-51 | the selection becomes the toggled selection |
| `AddPlayer.AddPlayerDialog.HandleAddFriends` | src/components/AddPlayerDialog.tsx:53-66 | the roster grows by exactly the friend entries of the selection, in order; the selection is emptied and the dialog closes (corrected: each add sees the previous one; as written, see `AddPlayer.RosterAfterBatchedAdds`) |

## Left out

- Rendering, routing and notifications: the JSX, `useNavigate` and the `toast` calls are presentation only. The redirect to the setup screen when no roster arrives is modelled as the precondition of `GamePlay.Match.constructor`, which requires a non-empty roster.
- The 100 ms `setTimeout` before the automatic submission: the submission is modelled as an immediate call. So the model does not capture an Undo pressed inside that window. Undo stays enabled and removes a dart from the display, but the pending submission still uses all three darts. A dart entered after the Undo schedules a second submission over the same stale `players`. That submission overwrites the first one's update and advances the turn twice. None of this is modelled.
- The display strings of a dart ("D20", "T20", "Miss") are cosmetic and are not modelled.
- `calculate3DartAvg` is modelled as a `real`; the `toFixed(2)` rounding and string conversion are left out.
- `Date.now()` in guest ids: the clock reading is the parameter `now` of `HandleAddGuest`.
- `Setup.ParseInt`: does not skip leading whitespace and does not model floating-point precision above 2^53. The number field never produces leading whitespace, and the presets are small.
- `Teams.TeamsView.AutoAssign`: the source calls the state setters while rendering. The model is an explicit method over the roster, which the render would call each time.
- `GamePlay.Match.SubmitDartsWithArray`: requires three legal darts and no pending bust warning. The automatic submission, its only caller, always passes exactly that. The source function itself accepts an array of any length; its empty-array guard is kept.
- `GamePlay.Match.constructor`: requires a start score of at least 1, because the invariant counts scores down from a positive start. The custom number field can hold a negative value such as "-5". `parseInt` then gives -5, and `-5 || 501` is -5. In the source every scoring dart of such a match busts, so no score ever changes and nobody can win. The model does not cover such a match.
- `GamePlay.Match.HandleNumberClick`: requires a segment from 1 to 20 or 25. These are the only values the keypad and the bull key pass.
- The start rule (`startType`), match type and score type are copied into the settings but never read by the engine. No double-in, master-in, legs or sets logic exists, and none is modelled.
- `src/pages/Home.tsx`, `src/pages/GameModes.tsx`, `src/pages/Stats.tsx` and `src/pages/Index.tsx` hold mock data and navigation only, and are not part of this model.

## Findings

| source | as written | input that shows it | evidently intended | confidence | as-written member | corrected member |
|---|---|---|---|---|---|---|
| src/components/AddPlayerDialog.tsx:54-63 | every selected friend is passed to `handleAddPlayer`. That handler sets the roster to the render-time `players` plus its one entry, so each call overwrites the one before | an empty roster, friends "1" and "2" selected, then Add Selected: the roster becomes [friend-2] only | every selected friend is appended, in selection order | high; not executed | `AddPlayer.BatchedAdds` and `AddPlayer.RosterAfterBatchedAdds` (shown by `AddPlayer.BatchedAddsDropAllButLast`) | `AddPlayer.AddPlayerDialog.HandleAddFriends` |
