# osu! relax bot core, modelled in Dafny

`cursor.py` is an osu! "relax" bot for Windows. This project models three
parts of it.

1. **The beatmap parser** (`OsuBeatmapParser`). It takes the decoded text of
   a `.osu` file and fills:
   - the `General`, `Metadata` and `Difficulty` dictionaries;
   - the list of timing points;
   - the list of hit objects (circles, sliders and spinners), sorted by
     time.

   Each line of a section is read on its own, and a line that does not parse
   is dropped. A slider's end time comes from the uninherited timing point
   governing its start and from the `SliderMultiplier` difficulty setting.
2. **The window monitor** (`OsuWindowMonitor`):
   - it picks the osu! window among the top-level windows;
   - it classifies that window's title as menu, song select, playing or
     editor;
   - it extracts the beatmap name from the title;
   - it debounces "playing" titles before calling back with the name.
3. **The bot's playback bookkeeping** (`RelaxBot`):
   - the hit windows of the three accuracy modes;
   - the Z/X key presses sent through `SendInput`;
   - which objects are in reach on a pass of the bot loop, and the order in
     which they are handled;
   - the cursor target, including the slider path;
   - the set of consumed object times;
   - the start/stop/pause/auto-start controls and hotkeys.

Modules:

| module | what it holds |
|---|---|
| `Beatmap` | the parser as a class with the five fields `parse` fills, plus pure functions for each line format |
| `WindowMonitor` | the title functions, the window choice, the monitor loop step and the monitor class |
| `Playback` | the specification of one pass of `bot_loop` and of each control, plus the `RelaxBot` class whose methods are proved against them |
| `Strings` | the `str` operations the source relies on (`strip`, `split`, `find`/`in`, `startswith`, `lower`) |
| `Numbers` | `int()`/`float()` on text, `int()` on a float, and the `&` bit test |
| `Sorting` | Python's stable `list.sort(key=...)` |
| `Folds` | the two loop shapes of the parser: "collect what parses" and "fill a dictionary, later keys winning" |
| `Wrappers` | `Option` |

Proved properties (details in the table below):

- **Parser:** the hit-object list is sorted by time, is a permutation of the
  parsed objects and keeps file order among equal times. The section reader
  finds the text between a header and the next `[`. A `key:value` line reads
  back as its key and value. Each of a timing point's optional fields is the
  integer in the line when present and the parser's default otherwise. A
  slider with positive length, repeat count and multiplier ends after it
  starts, and the anchor list is exactly the colon pieces.
- **Window monitor:**
  - each title class is characterised as an "if and only if";
  - the chosen window is the first osu! window with the shortest title;
  - the stable counter of the monitor loop never exceeds 1. With the
    threshold of 3 set in `__init__`, the monitor therefore never calls
    back, whatever sequence of titles it sees (`RunNeverCallsBack`,
    `CallbackUnreachable`).
- **Bot:**
  - every press sent is matched by a release of the same key;
  - successive clicks alternate Z and X;
  - the tighter accuracy windows nest inside the looser ones;
  - an object is in reach exactly when it is unconsumed and due between
    200 ms ago and 800 ms ahead;
  - the nearest object is the first of the closest;
  - every control keeps "a stopped bot holds no key and is not paused".

## Model

| member | source | states |
|---|---|---|
| `Beatmap.OsuBeatmapParser.constructor` | cursor.py:137-143 | a new parser has empty hit-object and timing-point lists and empty General, Metadata and Difficulty dictionaries |
| `Beatmap.OsuBeatmapParser.Parse` | cursor.py:145-168 | fails, changing nothing, exactly when the file could not be decoded. Otherwise fills each field from its section. The hit objects end up sorted by time, a permutation of the collected objects, and in file order among objects with equal times |
| `Beatmap.OsuBeatmapParser.ParseGeneral` | cursor.py:170-173 | replaces General by the section's dictionary when the section is present and non-empty; every other field is unchanged |
| `Beatmap.OsuBeatmapParser.ParseMetadata` | cursor.py:175-178 | the same for Metadata |
| `Beatmap.OsuBeatmapParser.ParseDifficulty` | cursor.py:180-183 | the same for Difficulty |
| `Beatmap.OsuBeatmapParser.ParseTimingPoints` | cursor.py:185-211 | appends the point of every line of the section that parses, in line order; other fields unchanged |
| `Beatmap.OsuBeatmapParser.ParseHitObjects` | cursor.py:213-281 | appends the object of every line of the section that parses, read against the timing points and difficulty already parsed; other fields unchanged |
| `Beatmap.GetSection` | cursor.py:283-286 | there is no section exactly when the header `[name]` does not occur in the file |
| `Beatmap.UpToBracket` | cursor.py:284 | the lazy match stops before the first `[` or at the end: the result holds no `[` and is followed by `[` or nothing |
| `Beatmap.UpToBracketIsPrefix` | cursor.py:284 | the lazy match is a prefix of the text after the header |
| `Beatmap.UpToBracketOfConcat` | cursor.py:284 | a body without `[` followed by a `[` (or the end) is matched in full |
| `Beatmap.GetSectionAt` | cursor.py:283-286 | the section is the stripped text up to the next `[` after the first occurrence of the header |
| `Beatmap.GetSectionOfLayout` | cursor.py:283-286 | a file laid out as header, bracket-free body, then the next section yields the stripped body |
| `Beatmap.ParseKeyValue` | cursor.py:288-295 | the loop yields the dictionary of the pairs of the lines, a later key overwriting an earlier one |
| `Beatmap.KeyValueOf` | cursor.py:290-294 | one line of a key/value section; `KeyValueOfAt` and `KeyValueOfRoundTrip` state which lines are kept and how they split at the first colon |
| `Beatmap.KeyValues` | cursor.py:288-295 | the dictionary of a section's lines; `KeyValuesLastWins` and `KeyValuesFromLines` state that the last defining line decides each key and that every entry comes from a line |
| `Beatmap.FindColonAfterKey` | cursor.py:293 | in `key:value` with no colon in the key, the split point is the colon after the key |
| `Beatmap.KeyValueOfAt` | cursor.py:290-294 | a stripped non-comment line reads as the stripped text before and after its first colon |
| `Beatmap.KeyValueLine` | cursor.py:291-293 | the line `key:value` is already stripped, is no comment, and has its first colon right after the key |
| `Beatmap.KeyValueOfRoundTrip` | cursor.py:290-294 | a line written as `key:value` reads back as that key and value |
| `Beatmap.KeyValuesLastWins` | cursor.py:290-294 | the last line that defines a key decides its value |
| `Beatmap.KeyValuesFromLines` | cursor.py:290-294 | every key in the dictionary comes from a line that defines it with that value |
| `Beatmap.TimingPointOf` | cursor.py:191-211 | one timing point line, blank and comment lines giving none; `TimingPointKept` states exactly which lines give a point, `TimingPointFields` what the point holds |
| `Beatmap.TimingPointOfFields` | cursor.py:195-211 | the same from the comma-separated fields; with fewer than two fields, or a field that is not a number, there is no point (`TimingPointKept`) |
| `Beatmap.TimingPointsOfConcat` | cursor.py:190-211 | lines are read independently: the points of two blocks of lines are those of the first, then those of the second |
| `Beatmap.TimingPointsFromLines` | cursor.py:190-211 | every point comes from a line that parses to it, and every line that parses contributes its point |
| `Beatmap.TimingPointKept` | cursor.py:191-211 | a line is kept exactly when it is not blank or a comment, has at least two fields, the first two are floats and fields 3 to 8 that are present are integers |
| `Beatmap.TimingPointFields` | cursor.py:200-209 | a kept line gives the time and beat length of its first two fields; each of fields 3 to 8 is the integer in the line when present (the 7th making the point uninherited exactly when it is 1) and otherwise its default (meter 4, sample set 0, sample index 0, volume 50, uninherited, effects 0) |
| `Beatmap.TimingPointUninherited` | cursor.py:207 | with a 7th field, the point is uninherited exactly when that field is the integer 1 |
| `Beatmap.ActiveTiming` | cursor.py:255-258 | a chosen point is one of the list's points, uninherited and not after the object's time; `ActiveTimingIsLastGoverning` adds that it is the last such in list order |
| `Beatmap.ActiveTimingIsLastGoverning` | cursor.py:255-258 | the chosen point is uninherited, not after the object's time, and no later point in the list is; there is none only when no point qualifies |
| `Beatmap.FindActiveTiming` | cursor.py:255-258 | the loop returns the last qualifying point of the list |
| `Beatmap.AnchorOf` | cursor.py:246-250 | one slider piece: skipped without a colon, an anchor for two integers around one colon, and an error otherwise; `AnchorsStep` states its effect on the anchor list |
| `Beatmap.Anchors` | cursor.py:246-250 | the anchors of the pieces in order, or an error; `AnchorsAreColonPieces` and `AnchorsFailStays` state both cases |
| `Beatmap.AnchorsAreColonPieces` | cursor.py:246-250 | the anchors are exactly the pieces holding a `:`, in order, each read as two integers |
| `Beatmap.ParseAnchors` | cursor.py:246-250 | the anchor loop returns the anchors of the pieces after the first, or fails when one piece is malformed |
| `Beatmap.AnchorsStep` | cursor.py:246-250 | one more piece appends its anchor, skips a piece without a colon, and a malformed piece fails the whole list |
| `Beatmap.AnchorsFailStays` | cursor.py:246-250 | once a piece is malformed the whole slider line is dropped |
| `Beatmap.SliderMultiplier` | cursor.py:260 | the `SliderMultiplier` setting as a float, 1.4 when absent; `SliderFields` states that a line whose multiplier is no float gives no slider |
| `Beatmap.SliderEndTime` | cursor.py:260-265 | the end-time formula; `SliderEndTimeExample`, `SliderEndTimeFallback` and `SliderEndTimeAfterStart` state its value and when it lies after the start |
| `Beatmap.SliderEndTimeExample` | cursor.py:260-263 | length 140 at 500 ms per beat, multiplier 1.4 and one pass lasts 500 ms |
| `Beatmap.SliderEndTimeFallback` | cursor.py:264-265 | with no governing point of positive beat length, every 100 pixels take 600 ms |
| `Beatmap.SliderEndTimeAfterStart` | cursor.py:260-265 | with positive length, repeat count and multiplier, the slider ends after it starts |
| `Beatmap.SliderOf` | cursor.py:239-271 | a built slider has the slider kind, the line's start time and an end time |
| `Beatmap.SpinnerOf` | cursor.py:273-277 | a spinner sits at (256, 192) with the line's time and hit sound. Its end time is field 6 when present, and the line is dropped if field 6 is no float; without field 6 the end time is the start plus 1000 ms |
| `Beatmap.HitObjectOf` | cursor.py:218-281 | a parsed object is well formed: circles carry no end time, sliders and spinners carry one |
| `Beatmap.HitObjectOfFields` | cursor.py:223-281 | the same, from the fields of a line |
| `Beatmap.ParseSlider` | cursor.py:239-271 | the slider branch with its two inner loops builds what `SliderOf` describes |
| `Beatmap.ParseHitObjectLine` | cursor.py:219-281 | the loop body for one line builds what `HitObjectOf` describes |
| `Beatmap.HitObjectKind` | cursor.py:224-277 | a parsed line has a type field. The object is a circle when bit 0 is set, a slider when only bit 1 of bits 0-1 is set, and a spinner when bit 3 is the first of bits 0, 1, 3 set |
| `Beatmap.SpinnerFields` | cursor.py:273-277 | a parsed spinner is what the spinner branch builds |
| `Beatmap.HitObjectDropped` | cursor.py:234-277 | a type with none of bits 0, 1, 3 set, or a slider without a 6th field, adds nothing |
| `Beatmap.SliderFields` | cursor.py:239-271 | a parsed slider has a 6th field and a readable multiplier; its curve type, anchors and end time are those the formula gives |
| `Beatmap.HitObjectsIn` | cursor.py:213-281 | every object read from the `[HitObjects]` section is well formed for its kind |
| `Beatmap.HitObjectsOfWellFormed` | cursor.py:213-281 | every object read from a section is well formed |
| `WindowMonitor.AnalyzeWindowTitle` | cursor.py:441-469 | the title tests in their order of priority; `EditingExactly`, `SelectingExactly` and `PlayingExactly` characterise each class |
| `WindowMonitor.EditingExactly` | cursor.py:451-455 | a title is "editing" exactly when, lower-cased, it contains "edit" |
| `WindowMonitor.SelectingExactly` | cursor.py:451-459 | a title is "selecting" exactly when it lacks "edit" and contains "song select" or is exactly "osu!" |
| `WindowMonitor.PlayingExactly` | cursor.py:451-467 | a title is "playing" exactly when it holds `[` and `]` and, lower-cased, none of "menu", "edit", "select" |
| `WindowMonitor.BareTitleIsSelecting` | cursor.py:458-459 | the bare title "osu!" is song select |
| `WindowMonitor.ExtractBeatmapInfo` | cursor.py:471-480 | a title without the "osu! - " prefix is returned unchanged; otherwise the result is shorter by at least the prefix |
| `WindowMonitor.ExtractBeatmapInfoRoundTrip` | cursor.py:474-479 | a stripped name is recovered from "osu! - name" |
| `WindowMonitor.ExtractBeatmapInfoEditRoundTrip` | cursor.py:474-479 | a stripped name is recovered from "osu! - edit - name" |
| `WindowMonitor.OsuWindow` | cursor.py:415-439 | the window `_find_osu_window` returns; `OsuWindowIsFirstShortest` states that it is the first osu! window with the shortest title, and none only without osu! windows |
| `WindowMonitor.FindOsuWindow` | cursor.py:415-439 | the enumeration loop and the sort choose what `OsuWindow` describes |
| `WindowMonitor.CandidatesAreOsuWindows` | cursor.py:421-429 | the candidates are exactly the visible windows whose lower-cased title mentions "osu!" or "lazer" |
| `WindowMonitor.OsuWindowIsFirstShortest` | cursor.py:431-439 | the chosen window is an osu! window with the shortest title, the first such in enumeration order; there is none only when no window qualifies |
| `WindowMonitor.Step` | cursor.py:382-407 | an unchanged title changes nothing. A new title records itself and its class, and a non-playing one resets the counter. A "playing" title after a "playing" state keeps the counter as it is and does not call back. The callback fires only on a switch into "playing" that reaches the threshold; it then gets the extracted name and the counter resets |
| `WindowMonitor.StepCountsPlaying` | cursor.py:391-400 | a switch into "playing" counts one step, and calls back with the extracted name when it reaches the threshold |
| `WindowMonitor.StepKeepsDebounced` | cursor.py:382-407 | with a threshold of at least 2, a step keeps the counter at most 1 and never calls back |
| `WindowMonitor.RunNeverCallsBack` | cursor.py:373-409 | over any sequence of titles the counter never exceeds 1 and the callback is never called |
| `WindowMonitor.CallbackUnreachable` | cursor.py:328-335 | from the initial state with the threshold of 3, the callback is never called |
| `WindowMonitor.OsuWindowMonitor.constructor` | cursor.py:328-335 | the monitor starts with no title, in "menu", counter 0, threshold 3 and no callback calls |
| `WindowMonitor.OsuWindowMonitor.Observe` | cursor.py:380-407 | the fields follow `Step`, and the callback log grows by the name `Step` reports; a valid monitor stays valid and reports nothing |
| `WindowMonitor.OsuWindowMonitor.Poll` | cursor.py:376-409 | with no osu! window, or one whose handle is 0, nothing changes; otherwise the chosen window's title is observed |
| `Playback.ScaleOntoScreen` | cursor.py:40-43 | playfield coordinates land on the 1920x1080 screen, and scaling keeps their order |
| `Playback.HitWindow` | cursor.py:46-49 | each mode's half-window is between 30 and 100 ms |
| `Playback.ShouldClick` | cursor.py:1355-1364 | the click test of each accuracy mode; `HitWindowsNested` states it as a closed window around the object's time and nests the three windows |
| `Playback.HitWindowsNested` | cursor.py:1355-1364 | an object is clicked exactly when its time is within the mode's window of now: 30 ms for "perfect", 50 ms for "high", 100 ms otherwise. Every "perfect" click is a "high" click, and every "high" click a click of any other mode |
| `Playback.PressedKey` | cursor.py:1420-1424 | afterwards a key is held and it is the same key; pressing while a key is held changes nothing |
| `Playback.ToggledKey` | cursor.py:1433-1440 | the key becomes a consistent Z or X, the other one when it was consistent, and nothing is sent |
| `Playback.ReleasedKey` | cursor.py:1426-1431 | afterwards no key is held; a held key sends its release and the key switches to a consistent Z or X; with no key held nothing changes |
| `Playback.ReleasedWithoutToggle` | cursor.py:1144-1146 | afterwards no key is held and the key stays the same; with no key held nothing changes |
| `Playback.BalancedPair` | cursor.py:1420-1431 | appending a press and a release of the same key keeps the event log balanced |
| `Playback.KeyOperationsKeepPairing` | cursor.py:1420-1431 | pressing and both kinds of release keep every press matched by a release of the same key, with at most one press outstanding while a key is held |
| `Playback.KeyOperationsIdempotent` | cursor.py:1420-1431 | pressing twice is pressing once, and releasing twice is releasing once |
| `Playback.ToggledKeySwaps` | cursor.py:1433-1440 | toggling swaps Z and X, and toggling twice restores the key |
| `Playback.ReleasesAlternate` | cursor.py:1420-1440 | a release sends the held key's release and switches keys, so the next click uses the other key |
| `Playback.TargetPosition` | cursor.py:1296-1318 | the cursor target for an object; `TargetPositionNear`, `TargetPositionBlend` and `TargetPositionFar` state it within 50 ms, between 50 and 150 ms, and beyond 150 ms |
| `Playback.TargetPositionNear` | cursor.py:1316-1318 | within 50 ms of its time the target is the scaled object position, whatever the dance |
| `Playback.Faded` | cursor.py:1308-1315 | between 150 and 50 ms ahead, the faded offset is never larger than the dance offset |
| `Playback.TargetPositionBlend` | cursor.py:1308-1315 | between 150 and 50 ms ahead, the target is at most the dance offset away from the object |
| `Playback.TargetPositionFar` | cursor.py:1304-1307 | beyond 150 ms the whole dance offset is added to the scaled object position |
| `Playback.Clamp01` | cursor.py:1387 | the clamped progress lies in [0, 1] |
| `Playback.ProgressEnds` | cursor.py:1386-1387 | progress is 0 up to the slider's start and 1 from its end on |
| `Playback.Lerp` | cursor.py:1392-1393 | interpolation gives the head at progress 0 and the anchor at progress 1 |
| `Playback.LerpBetween` | cursor.py:1392-1393 | for progress in [0, 1] the point lies between the two ends |
| `Playback.SliderPosition` | cursor.py:1381-1396 | the point on the slider path; `SliderPositionRaises`, `SliderPositionEnds` and `SliderPositionBetween` state when it raises, its two ends and that it stays between them |
| `Playback.SliderPositionRaises` | cursor.py:1383-1386 | the division raises exactly when the end time is set, non-zero, and equal to the start time |
| `Playback.SliderPositionEnds` | cursor.py:1381-1396 | before its start the slider sits on its head, and from its end on on its first anchor |
| `Playback.SliderPositionBetween` | cursor.py:1390-1394 | in between, each screen coordinate lies between those of the head and the first anchor |
| `Playback.ActiveObjects` | cursor.py:1177-1186 | the objects in reach; `ActiveObjectsExactly` states exactly which they are |
| `Playback.ActiveObjectsExactly` | cursor.py:1177-1186 | an object is in reach exactly when it is in the list, its time is not consumed, and it is due from 200 ms ago to 800 ms ahead |
| `Playback.SharedTimeConsumed` | cursor.py:1179-1180 | consuming a time takes every object with that time out of reach |
| `Playback.LongSpinnerNeverEnds` | cursor.py:1185-1227 | a spinner longer than 200 ms is out of reach at its end time, so the loop cannot consume it there |
| `Playback.ByUrgency` | cursor.py:1191 | the reordering keeps the number of active objects |
| `Playback.NearestIsFirstClosest` | cursor.py:1189-1192 | the nearest object is one closest to now, and the first such in list order |
| `Playback.CircleStep` | cursor.py:1203-1206 | a circle outside its window changes nothing; one inside is consumed, a key is held and one more timer release is pending |
| `Playback.SliderStep` | cursor.py:1208-1220 | a slider in its window starts when none is active, and the active one ends or moves the target; `ObjectsStepKeepsSlider` and `ActiveSliderSticks` state what it does to the active slider |
| `Playback.SpinnerStep` | cursor.py:1222-1230 | at most the spinner's own time is consumed, the active slider and pending releases stay, and a spinner without an end time stops the loop |
| `Playback.ObjectStep` | cursor.py:1202-1230 | one object of the click loop by its kind; `ObjectStepKeeps` states that it keeps the key log paired and the consumed set growing |
| `Playback.ObjectsStep` | cursor.py:1202-1230 | the click loop in order; `ObjectsStepKeeps` states the same for the whole loop |
| `Playback.TickStep` | cursor.py:1177-1230 | one pass over the active objects ordered by distance; `TickStepKeeps` states the same for the pass |
| `Playback.ObjectStepKeeps` | cursor.py:1202-1230 | handling one object keeps the key log paired and never forgets a consumed time |
| `Playback.ObjectsStepKeeps` | cursor.py:1202-1230 | so does the whole click loop |
| `Playback.TickStepKeeps` | cursor.py:1177-1230 | so does a whole pass of the loop |
| `Playback.ObjectsStepKeepsSlider` | cursor.py:1208-1220 | an active slider is left alone by a click loop over objects with other times |
| `Playback.ActiveSliderSticks` | cursor.py:1177-1220 | once the active slider's time is consumed, no later pass ends it |
| `Playback.CircleClicked` | cursor.py:1203-1206 | a circle in its window is consumed, presses a key unless one is held, and schedules one release |
| `Playback.Started` | cursor.py:1075-1117 | a running bot, no hit objects or bad settings change nothing; otherwise the bot runs, unpaused and not waiting, with no key held, no consumed times and no active slider |
| `Playback.Stopped` | cursor.py:1138-1156 | the bot is neither running, paused nor waiting and holds no key; the hit objects and consumed times stay |
| `Playback.PauseToggled` | cursor.py:1121-1136 | a stopped bot is unchanged; a running one flips its pause flag, and pausing leaves no key held |
| `Playback.WaitingToggled` | cursor.py:1029-1059 | when waiting, the bot stops; otherwise running and the frame stay, and waiting begins only with hit objects, pywin32 and a monitor that starts |
| `Playback.BeatmapDetected` | cursor.py:1061-1073 | a bot that is not waiting is unchanged; a waiting one stops waiting |
| `Playback.HotkeyHandled` | cursor.py:1442-1455 | other keys change nothing, End leaves the bot neither running nor waiting, Insert is ignored while running, and Home pauses or resumes a running bot |
| `Playback.TimerFired` | cursor.py:1366-1369 | with a release pending, one fewer is pending and no key is held; without one nothing changes; the controls never change |
| `Playback.Ticked` | cursor.py:1159-1235 | a pass never changes the controls, and a stopped or paused bot, or osu! in the background, changes nothing |
| `Playback.StartedValid` | cursor.py:1075-1117 | `start` keeps a stopped bot keyless and unpaused, and the key log paired |
| `Playback.StoppedValid` | cursor.py:1138-1156 | so does `stop` |
| `Playback.PauseToggledValid` | cursor.py:1121-1136 | so does `toggle_pause` |
| `Playback.WaitingToggledValid` | cursor.py:1029-1059 | so does `toggle_waiting` |
| `Playback.BeatmapDetectedValid` | cursor.py:1061-1073 | so does `on_beatmap_detected` |
| `Playback.HotkeyHandledValid` | cursor.py:1442-1455 | so does every hotkey |
| `Playback.TimerFiredValid` | cursor.py:1426-1431 | so does a circle's release timer |
| `Playback.TickedValid` | cursor.py:1159-1235 | so does a pass of the bot loop |
| `Playback.EndAlwaysStops` | cursor.py:1448-1450 | after End the bot is neither running nor waiting and holds no key, having sent at most one release of the held key |
| `Playback.PauseResume` | cursor.py:1121-1136 | pausing then resuming restores the flags and the whole frame (consumed times, active slider, target) except that any held key is released without a key switch |
| `Playback.PauseKeepsProgress` | cursor.py:1121-1136 | a single pause or resume changes only the keyboard: the consumed times and the active slider stay |
| `Playback.StartResets` | cursor.py:1075-1109 | starting an idle bot with hit objects and valid settings clears the consumed times and the active slider, returns to the released Z key, and starts the clock `offset` ms early |
| `Playback.RelaxBot.constructor` | cursor.py:485-531 | a new bot is idle on the released Z key, with no objects, in "perfect" mode, aiming at the screen centre |
| `Playback.RelaxBot.LoadHitObjects` | cursor.py:900 | loading stores the parser's hit objects and changes nothing else |
| `Playback.RelaxBot.PressKey` | cursor.py:1420-1424 | the keyboard becomes `PressedKey` of the old one; nothing else changes |
| `Playback.RelaxBot.ToggleKey` | cursor.py:1433-1440 | the keyboard becomes `ToggledKey` of the old one |
| `Playback.RelaxBot.ReleaseKey` | cursor.py:1426-1431 | the keyboard becomes `ReleasedKey` of the old one |
| `Playback.RelaxBot.ReleaseHeldKey` | cursor.py:1144-1146 | the release written out in `stop` and `toggle_pause`, without switching keys |
| `Playback.RelaxBot.HandleCircle` | cursor.py:1203-1206 | the frame follows `CircleStep` |
| `Playback.RelaxBot.StartSlider` | cursor.py:1371-1374 | the slider becomes active and a key is pressed |
| `Playback.RelaxBot.EndSlider` | cursor.py:1376-1379 | the key is released and no slider is active |
| `Playback.RelaxBot.HandleSlider` | cursor.py:1208-1220 | the frame follows `SliderStep` |
| `Playback.RelaxBot.HandleSpinner` | cursor.py:1222-1230 | the frame follows `SpinnerStep` |
| `Playback.RelaxBot.HandleObject` | cursor.py:1202-1230 | the frame follows `ObjectStep` |
| `Playback.RelaxBot.CollectActive` | cursor.py:1177-1186 | the collecting loop returns the objects in reach, in list order |
| `Playback.RelaxBot.Tick` | cursor.py:1163-1235 | the state follows `Ticked`, and a valid bot stays valid |
| `Playback.RelaxBot.Play` | cursor.py:1174-1230 | the frame follows `TickStep`; the controls are unchanged |
| `Playback.RelaxBot.HandleAll` | cursor.py:1202-1230 | the frame follows `ObjectsStep` over the given order |
| `Playback.RelaxBot.TimerFires` | cursor.py:1369 | the state follows `TimerFired`, and validity is kept |
| `Playback.RelaxBot.Start` | cursor.py:1075-1117 | the state follows `Started`, and validity is kept |
| `Playback.RelaxBot.Configure` | cursor.py:1084-1088 | the offset and the accuracy mode become the settings' |
| `Playback.RelaxBot.MarkRunning` | cursor.py:1093-1095 | running, not paused, not waiting |
| `Playback.RelaxBot.ResetKeys` | cursor.py:1097-1099 | back to the released Z key, the sent log kept |
| `Playback.RelaxBot.ResetObjects` | cursor.py:1096-1106 | no consumed times, no active slider, the target at the mouse |
| `Playback.RelaxBot.Stop` | cursor.py:1138-1156 | the state follows `Stopped`, and validity is kept |
| `Playback.RelaxBot.TogglePause` | cursor.py:1121-1136 | the state follows `PauseToggled`, and validity is kept |
| `Playback.RelaxBot.ToggleWaiting` | cursor.py:1029-1059 | the state follows `WaitingToggled`, and validity is kept |
| `Playback.RelaxBot.OnBeatmapDetected` | cursor.py:1061-1073 | the state follows `BeatmapDetected`, and validity is kept |
| `Playback.RelaxBot.OnKeyPress` | cursor.py:1442-1455 | the state follows `HotkeyHandled`, and validity is kept |
| `Strings.TrimStartRemovesSpace` | cursor.py:191 | stripping the front removes only whitespace and leaves a suffix |
| `Strings.TrimEndRemovesSpace` | cursor.py:191 | stripping the back removes only whitespace and leaves a prefix |
| `Strings.StripRemovesSpace` | cursor.py:191 | `strip()` is a slice of the string with only whitespace around it |
| `Strings.StripTrailingSpace` | cursor.py:191 | what `strip()` removes at the back is whitespace |
| `Strings.Strip` | cursor.py:191 | the result neither starts nor ends with whitespace |
| `Strings.StripStripped` | cursor.py:191 | a string without surrounding whitespace is its own strip |
| `Strings.FindFromIsFirst` | cursor.py:292 | the search misses no earlier occurrence and finds one when there is one |
| `Strings.FindIsFirst` | cursor.py:292 | `in` finds the first occurrence, and fails only when there is none |
| `Strings.FindAt` | cursor.py:293 | an occurrence with none before it is the one found |
| `Strings.ContainsAt` | cursor.py:292 | any occurrence makes `in` true |
| `Strings.Lower` | cursor.py:451 | lower-casing keeps the length and maps each character on its own |
| `Strings.SplitPiecesLackSep` | cursor.py:190 | no piece of a split holds the separator |
| `Strings.SplitJoinsBack` | cursor.py:190 | joining the pieces of `split(sep)` with `sep` gives the string back |
| `Strings.SplitJoin` | cursor.py:195 | pieces without the separator are recovered by splitting their join |
| `Numbers.ParseInt` | cursor.py:228-231 | Python's `int()` on text; `ParseIntOfIntToString` states that it reads back every printed integer |
| `Numbers.ParseIntOfIntToString` | cursor.py:228-231 | `int(str(n)) == n` for every integer |
| `Numbers.ParseFloat` | cursor.py:201-202 | Python's `float()` on text; `ParseFloatOfInt` states that it accepts every integer `int()` accepts, with the same value |
| `Numbers.ParseFloatOfInt` | cursor.py:201-202 | whatever `int()` accepts, `float()` accepts with the same value |
| `Numbers.Trunc` | cursor.py:1298-1299 | `int()` of a float truncates toward zero |
| `Numbers.TruncMonotone` | cursor.py:1298-1299 | truncation keeps the order of its arguments |
| `Numbers.HasBit` | cursor.py:234-273 | the `&` test on a type code; `HasBitIsDivision` states it as the parity of the quotient by a power of two |
| `Numbers.HasBitIsDivision` | cursor.py:234-273 | the bit test `t & 2^k` is the parity of `t` divided by `2^k` |
| `Sorting.SortBySortedPermutation` | cursor.py:164 | `sort(key=...)` yields a sequence ordered by key with the same elements |
| `Sorting.SortByStable` | cursor.py:164 | for every key, the elements with that key keep their order |
| `Sorting.SortByHeadIsFirstMinimal` | cursor.py:433-437 | the head of the sorted list is the first element with the smallest key |
| `Folds.CollectAll` | cursor.py:190-211 | the append loop yields the values of the lines that parse, in order |
| `Folds.CollectConcat` | cursor.py:190-211 | lines are read independently |
| `Folds.AssignAll` | cursor.py:289-295 | the dictionary loop yields the pairs of the lines, later keys winning |
| `Folds.AssignLastWins` | cursor.py:294 | the last line that defines a key decides its value |

## Left out

- **File reading and the encoding loop** (cursor.py:148-156) are left out. `Parse` takes the decoded text, or `None` when no encoding worked. An exception raised elsewhere in `parse` is not modelled, because every failure inside the loops is caught per line.
- **`.osz` import, temporary directories, the GUI, the admin check and the `print` calls** are outside the core.
- **`SendInput` and `WindowsInputHelper`** are modelled as the log of key events sent (`Keyboard.sent`).
- **`is_osu_window_active`** (cursor.py:1006-1027) queries the foreground window. It is the `osuActive` parameter of `Tick`.
- **Threads, `time.sleep` and the frame-rate limit** are left out. `bot_loop` is one `Tick` per pass, and the clock is a parameter.
- **The circle's 50 ms `threading.Timer` release** is a counter of pending releases that `TimerFires` consumes one at a time. The timing between the threads is not modelled.
- **`update_cursor_physics`** (cursor.py:1237-1294) is left out: it uses floating-point square roots and only moves the mouse. The model keeps the target position it steers towards.
- **`calculate_dance_offset`** (cursor.py:1320-1353) uses `sin`/`cos` and is the `dance` parameter. `smooth_factor` and `dance_style`, read only there and by the physics, are not part of the settings.
- **`spin_cursor`** (cursor.py:1398-1418) uses `sin`/`cos` and is the `spin` parameter. Its friction change to the velocity belongs to the physics.
- **`position_cache`, `velocity`, `current_position`, `spinner_rpm` and `target_fps`** are only used by the physics and the display.
- **The window monitor's own `start`, `stop` and thread** (cursor.py:347-365) are left out. The bot sees only whether a monitor exists (`hasMonitor`) and whether it started (`monitorStarts`).
- **The monitor's exception branch** (cursor.py:411-413) is left out. `EnumWindows` and `GetWindowText` are replaced by the list of windows given to `Poll`.
- **`on_beatmap_detected` receives a beatmap name** that is only displayed. It is left out, as is the 0.5 s delay.
- **`HitObject.extras`** is never set by the parser and is left out.
- **Floats** are exact reals, with no rounding. `int()` of a float truncates toward zero (`Numbers.Trunc`).
- **`lower()`** maps only ASCII letters, and `isspace()` covers the ASCII and common Unicode spaces.
- **`float()`** accepts digits with an optional sign, point and exponent. Only the ASCII digits 0-9 count as digits. It does not accept `inf`, `nan`, underscores or the other Unicode decimal digits (such as `３`) that Python's `float()` accepts; none of these is found in `.osu` fields.
- **`int()`** accepts an optional sign and decimal digits after stripping. Only the ASCII digits 0-9 count as digits. It does not accept underscores or the other Unicode decimal digits (such as `３`) that Python's `int()` accepts.
- **The active timing point.** `_parse_hit_objects` takes the last qualifying point in list order, which is the latest by time only when the section is sorted (`Beatmap.ActiveTimingIsLastGoverning`).
- **End times.** The parser does not ensure that every slider and spinner ends after it starts: a zero pixel length, or a spinner whose 6th field lies before its start, gives an end time not after the start. `Beatmap.SliderEndTimeAfterStart` states the condition under which a slider does end later.
- **Spinner presses.** A running spinner is not handled once per run: `bot_loop` presses again on every pass where no key is held (cursor.py:1223-1225), for instance after a circle's release timer fired (`Playback.SpinnerStep`).
- `Beatmap.SliderOf`: its own contract states only the kind, start and presence of an end time; the full shape of a parsed slider is `Beatmap.SliderFields`.
- `Playback.ByUrgency`: its own contract states only the length; ordering, permutation and the choice of the nearest object are `Sorting.SortBySortedPermutation` and `Playback.NearestIsFirstClosest`.
