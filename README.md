# sereniSphere comfort kit: a Dafny model

sereniSphere watches a user through the webcam and listens to them. When it
sees a sad face, or hears low voice confidence, it activates a
"comfort kit": a sound, a background, an activity prompt, a support prompt
and an anchor reminder, all picked on a form beforehand. It also has a Stress
Relief Zone with a breathing pacer and a bubble-popping game, and a checkbox
list of preferred interventions.

This project models the decision logic of those three parts. The camera, the
speech engine and React's rendering are replaced by explicit events.

- `Emotion` (emotion.dfy): the dominant expression of one detection. It is the
  `reduce` over the expression map. On a tie the later entry wins.
- `Confidence` (confidence.dfy): the voice-confidence scorer's pure part.
  - The transcript is joined with spaces, split on single spaces, and the
    empty tokens are dropped.
  - The words-per-minute figure is rounded to a tenth, as `toFixed(1)`
    rounds. It becomes NaN or Infinity when no time has passed.
  - The three-rule deduction table gives the score, and the score gives the
    label text.
- `Text` (text.dfy): `String.prototype.includes` and the decimal form of a
  number. The trigger tests the label text, not a bucket value.
- `ComfortKit` (comfort_kit.dfy): the form and the intervention dispatcher.
  Each field decides its own effect. Effects are values, not actions.
- `App` (app.dfy): class `Session`. It holds the page state, the scorer's
  closure state (`pauseCount`, `lastTimestamp`, `startTime`) and the
  `activated` latch. Its methods are the component's events: a field
  change, a detection tick, a speech result, submit and "Edit Again".
  - In the component, the trigger effect re-runs only when `emotion`,
    `confidence`, `activated` or `form` changes (src/App.jsx:175).
  - `Trigger` checks the latch and sets it in one step. It runs at the end
    of every event that can change one of those four: a field change, a
    detection tick, a speech result and submit.
  - "Edit Again" changes only `preview`, so it does not run the trigger.
  - Some of these runs happen when nothing the trigger reads has changed.
    They do nothing: `Valid()` holds before each event, and its clause
    `Qualifies ==> activated` means an unchanged state cannot fire.
- `StressRelief` (stress_relief.dfy): class `Zone`.
  - The pacer state is `(index, timeLeft)` over the phase table
    Inhale 4, Hold 4, Exhale 6, Hold 2.
  - The bubble list grows by appending and shrinks by filtering.
- `Interventions` (interventions.dfy): `toggle(key)`. It rebuilds the list
  through an insertion-ordered `Set`, modelled as a sequence without
  duplicates.

Main results:
- The deduction table only yields 60, 70, 80, 90 or 100, because the two
  speed rules exclude each other. So the label is always "Confident" or
  "Moderate" and never contains "Low". The voice channel can therefore never
  activate the kit; only a sad face can (`Confidence.ScoredTextNeverLow`,
  the `Session` invariant).
- The latch fires at most once between two submits (`App.FiresAtMostOnce`).
  The `Session` invariant states the same with the ghost dispatch count
  `fires`: `fires <= 1`, and `fires == 1` only with the latch set. A submit
  re-arms the latch, and it fires again at once if the face is still "sad".
- The pacer is back at (Inhale, 4) exactly after a multiple of 16 ticks.

Facts about the code that the model keeps:
- One detection decides the emotion (src/App.jsx:54-58).
- On a tie between expressions, the later entry wins (src/App.jsx:56).
- An elapsed time of 0 gives NaN or Infinity, which compare as in
  JavaScript (src/App.jsx:96-101).
- Submit keeps the emotion and the confidence text (src/App.jsx:179-183).
- The "Low Confidence" branch (src/App.jsx:105) is unreachable.

## Model

| member | source | states |
|---|---|---|
| `Emotion.BestIndex` | src/App.jsx:55-57 | the reduce ends on an entry whose probability is at least every other's, and every later entry is strictly smaller (a tie goes to the later entry) |
| `Emotion.LastMaximumUnique` | src/App.jsx:55-57 | only one index meets both conditions, so the dominant entry is fully determined |
| `Emotion.NextEmotion` | src/App.jsx:54-59 | without a detection or with an empty map the emotion is kept; otherwise it becomes the name of the last maximal entry |
| `Confidence.Split` | src/App.jsx:95 | `split(" ")` gives at least one piece and no piece contains a space |
| `Confidence.JoinWithSpace` | src/App.jsx:84-86 | the joined text starts with the first transcript, followed by a space when more transcripts follow |
| `Confidence.JoinSplitRoundTrip` | src/App.jsx:84-95 | splitting the join of space-free transcripts gives the transcripts back |
| `Confidence.NoSpaceSplit` | src/App.jsx:95 | a text without spaces splits into one piece, itself |
| `Confidence.NonEmpty` | src/App.jsx:95 | the filter keeps every non-empty piece as often as it occurs and drops every empty one (as multisets), so its length is the number of non-empty pieces |
| `Confidence.Words` | src/App.jsx:95 | the words are the non-empty tokens of `split(" ")`, none containing a space |
| `Confidence.WordCount` | src/App.jsx:95-96 | `words.length` is the number of pieces of `split(" ")` minus the empty ones, and at most the text's length |
| `Confidence.SplitExample` | src/App.jsx:95 | `"a  b ".split(" ")` is `["a", "", "b", ""]` |
| `Confidence.WordCountExample` | src/App.jsx:95 | `"a  b "` has two words: a double space and a trailing space add none |
| `Confidence.SplitJoinRoundTrip` | src/App.jsx:95 | joining the pieces of a split with spaces gives the text back |
| `Confidence.SplitAtSpace` | src/App.jsx:84-86 | the pieces of `a + " " + b` are the pieces of `a` followed by those of `b` |
| `Confidence.NonEmptyAppend` | src/App.jsx:95 | filtering a concatenation filters each part |
| `Confidence.WordCountOfJoin` | src/App.jsx:84-95 | the word count of segments joined with `" "` is the sum of their counts |
| `Confidence.WordCountAtMostLength` | src/App.jsx:95 | a text has no more words than characters |
| `Confidence.WordsPerMinute` | src/App.jsx:96 | for elapsed time above 0 the result is ten times the rate rounded half-up to an integer; at 0 elapsed it is NaN for no words and Infinity otherwise; below 0 elapsed it is not positive |
| `Confidence.SpeedRulesExact` | src/App.jsx:96-101 | with positive elapsed time, "wpm < 80" holds iff 1200000·words < 1599·ms and "wpm > 200" iff 1200000·words ≥ 4001·ms |
| `Confidence.SpeedRulesExclusive` | src/App.jsx:100-101 | no rate is both too slow and too fast |
| `Confidence.TooSlow` | src/App.jsx:100 | `wpm < 80` is false for NaN and for Infinity |
| `Confidence.TooFast` | src/App.jsx:101 | `wpm > 200` is true for Infinity and false for NaN |
| `Confidence.DivBelow` | src/App.jsx:96-101 | the floor-division fact behind the speed thresholds: n / d < m iff n < m·d |
| `Confidence.Score` | src/App.jsx:98-101 | the score is a multiple of 10 between 60 and 100, and at least 80 with at most three pauses |
| `Confidence.ScoreValues` | src/App.jsx:98-101 | the score is one of 60, 70, 80, 90, 100, and each value is characterised: 100 iff no rule applies; 90 iff at most three pauses and too fast; 80 iff at most three pauses and too slow, or more than three pauses at a normal speed; 70 iff more than three pauses and too fast; 60 iff more than three pauses and too slow |
| `Confidence.BucketPrefix` | src/App.jsx:103-105 | the three label prefixes, "✅ Confident (", "⚠️ Moderate (" and "❌ Low Confidence ("; that only the last includes "Low" is `LowTextIffLowBucket` |
| `Confidence.BucketOf` | src/App.jsx:103-105 | 80 and up is Confident, 50 to 79 Moderate, below 50 Low |
| `Confidence.ConfidenceText` | src/App.jsx:103-105 | the label starts with its bucket's prefix (the emoji and the bucket's word) and ends with "%)" |
| `Confidence.LabelShowsScore` | src/App.jsx:103-105 | for a non-negative score, the characters between the prefix and "%)" are digits that read back as the score |
| `Confidence.LowTextIffLowBucket` | src/App.jsx:103-114 | the label text includes "Low" exactly when the score is in the Low bucket |
| `Confidence.ScoredTextNeverLow` | src/App.jsx:98-114 | no pause count and rate give the Low bucket, so the scorer's text never includes "Low" |
| `Confidence.AnalyzingNotLow` | src/App.jsx:16 | the initial "Analyzing..." text does not include "Low" |
| `Confidence.ResultText` | src/App.jsx:83-106 | the label one speech result sets never includes "Low" |
| `Confidence.ResultTextBucket` | src/App.jsx:83-106 | the label one speech result sets starts with the Confident or the Moderate prefix |
| `Text.Includes` | src/App.jsx:114 | `includes` holds only when the pattern fits in the text |
| `Text.MissingFirstCharNotIncluded` | src/App.jsx:114 | a text without the pattern's first character does not include the pattern |
| `Text.IncludedAfterPrefix` | src/App.jsx:114 | a pattern placed after any prefix is included |
| `Text.NatToDecimal` | src/App.jsx:103-105 | the score's decimal form is non-empty, made of digits, and has no leading zero |
| `Text.DecimalRoundTrip` | src/App.jsx:103-105 | reading the decimal form back gives the number |
| `Text.IntToDecimal` | src/App.jsx:103-105 | a number's text holds only digits and the minus sign |
| `ComfortKit.WithField` | src/App.jsx:177 | `handleChange` sets the named field and keeps the other four |
| `ComfortKit.AudioFile` | src/App.jsx:121-124 | the file the three consecutive `if`s choose, "" for any other label; its properties are `AudioFileChosen` |
| `ComfortKit.AudioFileChosen` | src/App.jsx:121-124 | a file is chosen exactly for the three offered music labels, and it is one of the three sound files |
| `ComfortKit.BackgroundImage` | src/App.jsx:134-137 | the image the three consecutive `if`s choose, "" for any other label; its properties are `BackgroundImageChosen` |
| `ComfortKit.BackgroundImageChosen` | src/App.jsx:134-137 | an image is chosen exactly for the three offered visual labels, and it is one of the three image files |
| `ComfortKit.MusicEffects` | src/App.jsx:120-130 | music gives at most one effect, an audio file, and none when empty |
| `ComfortKit.VisualEffects` | src/App.jsx:133-144 | visual gives at most one effect, a background, and none when empty |
| `ComfortKit.ActivityEffects` | src/App.jsx:147-157 | activity gives at most one prompt, and none when empty |
| `ComfortKit.SupportEffects` | src/App.jsx:160-168 | support gives at most one prompt, and none when empty |
| `ComfortKit.Contribution` | src/App.jsx:119-173 | each field contributes at most one effect, of its own kind, and none when empty |
| `ComfortKit.ContributesIffOffered` | src/App.jsx:119-168 | a select field gives an effect iff its value is one of the options the form offers (lines 214-264); other labels give none |
| `ComfortKit.AlertText` | src/App.jsx:148-172 | the text an effect shows in an alert: a prompt's message, or the anchor after "📷 Anchor Reminder: " (line 172, stated by `AnchorCarriesText`); audio and background show none |
| `ComfortKit.AnchorCarriesText` | src/App.jsx:171-173 | a non-empty anchor gives one reminder carrying the anchor text, shown after "📷 Anchor Reminder: " |
| `ComfortKit.Dispatch` | src/App.jsx:119-173 | at most five effects, and none for an empty form |
| `ComfortKit.FromField` | src/App.jsx:119-173 | selecting one field's effects keeps only effects of that field that were there |
| `ComfortKit.FromFieldComplete` | src/App.jsx:119-173 | selecting one field's effects drops none of that field's effects |
| `ComfortKit.FromFieldAppend` | src/App.jsx:119-173 | selecting by field distributes over concatenation |
| `ComfortKit.FromFieldSourced` | src/App.jsx:119-173 | effects that all come from one field are kept whole by that field's selection and dropped by any other |
| `ComfortKit.FromFieldOfParts` | src/App.jsx:119-173 | selecting a field from the five parts in dispatch order yields exactly that field's part |
| `ComfortKit.DispatchByField` | src/App.jsx:119-173 | the dispatched effects of a field are exactly that field's own contribution |
| `ComfortKit.DispatchIndependent` | src/App.jsx:119-173 | two forms that agree on a field dispatch the same effects for that field |
| `App.Qualifies` | src/App.jsx:114-116 | the emotion is "sad" or the text includes "Low"; its properties are `QualifiesOnlySad` |
| `App.QualifiesOnlySad` | src/App.jsx:114-116 | a sad face always qualifies; a text without "Low", and so every label the scorer sets, qualifies only together with a sad face |
| `App.Fires` | src/App.jsx:116 | the trigger dispatches only when its condition holds and the latch is open (`&& !activated`); `Session.Trigger` uses it |
| `App.FireCount` | src/App.jsx:113-117 | the number of dispatches in a run of trigger evaluations, each setting the latch when it qualifies; bounded by `FiresAtMostOnce` |
| `App.FiresAtMostOnce` | src/App.jsx:113-117 | between re-arms the latch fires at most once, never once set, and exactly once from open when any evaluation qualifies |
| `App.Session.constructor` | src/App.jsx:6-17 | the initial form, page, emotion "neutral", text "Analyzing...", open latch, and the settled invariant |
| `App.Session.Trigger` | src/App.jsx:113-117 | the latch becomes set iff it was set or the condition holds; the dispatch happens only on the open-to-set step, and the dispatch count grows by one exactly then |
| `App.Session.HandleChange` | src/App.jsx:177 | the form changes in one field; the re-run trigger emits nothing; all else unchanged |
| `App.Session.OnDetection` | src/App.jsx:42-59 | on the detection page the emotion follows `NextEmotion`; effects are dispatched only when the emotion is "sad" and the latch was open, and the latch is set afterwards |
| `App.Session.ScoreResult` | src/App.jsx:83-106 | the pause count grows by exactly one iff more than 2000 ms passed since the previous result, `lastTimestamp` becomes `now`, and the text is the label scored from the new count, the joined transcripts and the time since the start |
| `App.Session.OnSpeechResult` | src/App.jsx:79-106 | while listening, the pause count grows by exactly one iff more than 2000 ms passed, `lastTimestamp` becomes `now`, and the text is the scored label; never any effect |
| `App.Session.HandleSubmit` | src/App.jsx:179-183 | shows the page, re-arms the latch, starts a fresh scorer when speech is supported, and fires at once iff the emotion is "sad"; the dispatch count since this submit is then 1 or 0 accordingly |
| `App.Session.EditAgain` | src/App.jsx:339 | changes only `preview` and `listening`: it leaves the page and stops listening, and the latch is not re-armed |
| `App.SadFaceScenario` | src/App.jsx:113-183 | a worked session: a sad face fires the kit once, later detections and a speech result do not, "Edit Again" keeps the latch, and the next submit fires again |
| `StressRelief.Advance` | src/StressReliefZone.jsx:24-32 | a tick keeps the index below 4 and preserves the pacer invariant |
| `StressRelief.AdvanceBy` | src/StressReliefZone.jsx:24-33 | any number of ticks keeps the index in the table |
| `StressRelief.PhaseTable` | src/StressReliefZone.jsx:10-22 | the `phases` table has four phases of at least a second each, 16 seconds in all, and begins with the state `Start` (index 0, 4 seconds) |
| `StressRelief.AdvanceByValid` | src/StressReliefZone.jsx:10-32 | `0 ≤ i < 4` and `1 ≤ timeLeft ≤ phases[i].duration` hold after any number of ticks |
| `StressRelief.AdvanceByLast` | src/StressReliefZone.jsx:24-33 | n + 1 ticks are n ticks then one more |
| `StressRelief.AdvanceByAdd` | src/StressReliefZone.jsx:24-33 | a + b ticks are a ticks then b ticks |
| `StressRelief.CycleState` | src/StressReliefZone.jsx:10-15 | each second of the 16-second cycle has a valid pacer state |
| `StressRelief.AdvanceCycleState` | src/StressReliefZone.jsx:10-32 | one tick moves one second along the cycle, wrapping after 16 |
| `StressRelief.AdvanceWithinCycle` | src/StressReliefZone.jsx:19-32 | for n < 16, n ticks from (0, 4) reach the cycle's state for n |
| `StressRelief.FullCycle` | src/StressReliefZone.jsx:19-32 | 16 ticks from (0, 4) bring the pacer back to (0, 4) |
| `StressRelief.AdvanceFromStart` | src/StressReliefZone.jsx:19-32 | after n ticks from (0, 4) the pacer is at the cycle's state for n mod 16 |
| `StressRelief.FourTicksToHold` | src/StressReliefZone.jsx:10-32 | four ticks from (0, 4) give (1, 4), "Hold" |
| `StressRelief.ReturnsToStartEvery16` | src/StressReliefZone.jsx:10-32 | the pacer is at (0, 4) after n ticks iff n is a multiple of 16 |
| `StressRelief.HoldsShareName` | src/StressReliefZone.jsx:10-15 | indices 1 and 3 are both "Hold", distinct from "Inhale" and "Exhale" |
| `StressRelief.Without` | src/StressReliefZone.jsx:57-59 | the popped list holds exactly the bubbles with another id, and is no longer |
| `StressRelief.WithoutAppend` | src/StressReliefZone.jsx:57-59 | popping keeps the remaining bubbles in order: it filters each part of a concatenation |
| `StressRelief.WithoutAbsent` | src/StressReliefZone.jsx:57-59 | popping an id no bubble has changes nothing |
| `StressRelief.WithoutIdempotent` | src/StressReliefZone.jsx:57-59 | popping the same id twice equals popping it once |
| `StressRelief.PopUndoesSpawn` | src/StressReliefZone.jsx:42-59 | popping a just-spawned bubble with a new id restores the list |
| `StressRelief.Zone.constructor` | src/StressReliefZone.jsx:4-7 | no mode, no bubbles, "Inhale" with 4 seconds |
| `StressRelief.Zone.SelectMode` | src/StressReliefZone.jsx:18-23 | entering breathing puts the pacer at (0, 4) "Inhale"; other changes keep the pacer; bubbles are kept |
| `StressRelief.Zone.Tick` | src/StressReliefZone.jsx:24-33 | in breathing mode the pacer makes one `Advance` step and the shown name is the phase's; otherwise nothing changes |
| `StressRelief.Zone.Spawn` | src/StressReliefZone.jsx:42-52 | in bubbles mode one bubble is appended and earlier ones are unchanged; otherwise nothing changes |
| `StressRelief.Zone.Pop` | src/StressReliefZone.jsx:57-59 | the list becomes `Without(old list, id)`; nothing else changes |
| `Interventions.FirstIndex` | src/assets/components/UserInputs/Interventions.jsx:10 | the first position holding a key |
| `Interventions.Dedup` | src/assets/components/UserInputs/Interventions.jsx:10-13 | the `Set` has no duplicates and the same members as the list |
| `Interventions.DedupKeepsFirstOccurrenceOrder` | src/assets/components/UserInputs/Interventions.jsx:10-13 | the keys come out in the order of their first occurrence |
| `Interventions.FirstIndexAppend` | src/assets/components/UserInputs/Interventions.jsx:10 | appending does not move a key's first occurrence |
| `Interventions.DedupOfNoDuplicates` | src/assets/components/UserInputs/Interventions.jsx:10-13 | a list without duplicates passes through the `Set` unchanged |
| `Interventions.Delete` | src/assets/components/UserInputs/Interventions.jsx:11 | `delete` removes the key only and keeps a list duplicate-free |
| `Interventions.DeleteAppend` | src/assets/components/UserInputs/Interventions.jsx:11 | deleting keeps the order: it works part by part on a concatenation |
| `Interventions.DeleteAbsent` | src/assets/components/UserInputs/Interventions.jsx:11 | deleting an absent key changes nothing |
| `Interventions.Checked` | src/assets/components/UserInputs/Interventions.jsx:23 | `interventions.includes(key)`; its agreement with the `Set` that `toggle` builds is `CheckedInSet` |
| `Interventions.CheckedInSet` | src/assets/components/UserInputs/Interventions.jsx:23 | a box is ticked exactly when its key is in the `Set` that `toggle` builds from the list |
| `Interventions.Toggled` | src/assets/components/UserInputs/Interventions.jsx:9-13 | no duplicates; the key is in the result iff it was not in the input; every other key keeps its membership; an added key goes after the deduplicated keys, and a removal is `Delete` on the deduplicated keys, which keep their first-occurrence order |
| `Interventions.ToggleAddOrderExample` | src/assets/components/UserInputs/Interventions.jsx:9-13 | toggling "b" on `["a", "a"]` publishes `["a", "b"]` |
| `Interventions.Toggle` | src/assets/components/UserInputs/Interventions.jsx:9-14 | the list the method builds through the `Set` is `Toggled` of the input |
| `Interventions.ToggleTwice` | src/assets/components/UserInputs/Interventions.jsx:9-13 | toggling twice restores the set of keys; a key that was present ends up last |
| `Interventions.ToggleFlipsOneCheckbox` | src/assets/components/UserInputs/Interventions.jsx:1-23 | toggling an option flips its checkbox and leaves every other option's checkbox as it was |

## Left out

- Model loading, camera access, the detection `setInterval` and speech
  recognition setup and teardown (src/App.jsx:22-61, 64-78, 108-109) are I/O.
  The expression map, the transcripts and the clock are event parameters.
- Repeated `onPlay` calls each start another detection interval. This is
  timer lifecycle, and extra intervals only repeat detection events.
- Playing audio, restyling `document.body` and `alert` are returned as
  effect values and not executed.
- `Confidence.WordsPerMinute`: the rounding is applied to the exact quotient.
  The source first computes two floating-point divisions, which can move a
  value that lies exactly on a rounding boundary to the neighbouring tenth.
  Values of 10^21 or more print in exponent form; that changes no comparison.
- Expression probabilities are exact reals; NaN probabilities are not
  modelled.
- Bubble ids come from `Date.now()` and the position and size from
  `Math.random`. Here they are arbitrary parameters, and ids may repeat.
- Interval cleanup on a mode change (src/StressReliefZone.jsx:35, 53) is
  timer lifecycle. `Tick` and `Spawn` do nothing outside their mode, which
  stands for the cleared timer.
- React may call a state updater twice in development mode. The model uses
  the single-call meaning of the updater that advances `i`.
- `App.Session.OnSpeechResult` drops every result once `listening` is false.
  In the browser, `recognition.stop()` (src/App.jsx:109) lets the engine
  deliver one more result from audio it already has, so the old closure can
  still set `confidence` while the form shows. That late label is not
  modelled. It could not fire the kit, because no scored label includes "Low".
- `StressRelief.Zone.Pop`: the page only offers popping while the bubbles
  are shown. The model allows it in any mode.
- JSX layout, animation and the other components (EmotionDetector.tsx,
  VoiceConfidenceDetector.jsx, ComfortZone.jsx, Accessibility.jsx,
  Header.jsx, SaveProfile.jsx, main.jsx) are not part of this model. The
  Flask audio-analysis server (backend/server.py) is left out too: it is a
  wrapper over a native library.
