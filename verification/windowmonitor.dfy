/**
 * The osu! window monitor (class `OsuWindowMonitor` of cursor.py): it finds
 * the osu! window among the top-level windows, reads its title, classifies
 * the title as main menu, song select, playing or editor, and reports the
 * beatmap name to a callback once a "playing" title has been seen in
 * enough consecutive title changes.
 */
module WindowMonitor {
  import opened Wrappers
  import opened Strings
  import opened Sorting
  import opened Folds

  /** What the window title says the game is doing. */
  datatype TitleState = Menu | Selecting | Playing | Editing

  /** `_analyze_window_title`: the title tests, in their order of priority. */
  function AnalyzeWindowTitle(title: string): TitleState
  {
    var lower := Lower(title);
    if Contains(lower, "edit") then Editing
    else if Contains(lower, "song select") || title == "osu!" then Selecting
    else if Contains(title, "[") && Contains(title, "]")
            && !Contains(lower, "menu") && !Contains(lower, "edit") && !Contains(lower, "select")
    then Playing
    else Menu
  }

  /** A title mentioning "edit" in any letter case is the editor, whatever else it holds. */
  lemma EditingExactly(title: string)
    ensures AnalyzeWindowTitle(title) == Editing <==> Contains(Lower(title), "edit")
  {
  }

  lemma SongSelectHasSelect(s: string)
    requires Contains(s, "song select")
    ensures Contains(s, "select")
  {
    var i := Find(s, "song select").value;
    assert s[i + 5..i + 11] == s[i..i + 11][5..];
    assert MatchAt(s, "select", i + 5);
    ContainsAt(s, "select", i + 5);
  }

  lemma NoBracketInOsu()
    ensures !Contains("osu!", "[")
  {
    var s := "osu!";
    forall k ensures !MatchAt(s, "[", k) {
      MatchAtSingle(s, '[', k);
    }
  }

  /**
   * A title is "playing" exactly when it holds both square brackets and,
   * lower-cased, none of "menu", "edit" and "select": the song-select and
   * bare "osu!" tests that come first never overrule that description.
   */
  lemma PlayingExactly(title: string)
    ensures AnalyzeWindowTitle(title) == Playing <==>
      && Contains(title, "[") && Contains(title, "]")
      && !Contains(Lower(title), "menu") && !Contains(Lower(title), "edit") && !Contains(Lower(title), "select")
  {
    var lower := Lower(title);
    if Contains(lower, "song select") {
      SongSelectHasSelect(lower);
    }
    if title == "osu!" {
      NoBracketInOsu();
    }
  }

  /** A song-select title, or the bare "osu!" title, is "selecting" unless it also mentions "edit". */
  lemma SelectingExactly(title: string)
    ensures AnalyzeWindowTitle(title) == Selecting <==>
      !Contains(Lower(title), "edit") && (Contains(Lower(title), "song select") || title == "osu!")
  {
  }

  /** The main-menu title "osu!" counts as song select. */
  lemma BareTitleIsSelecting()
    ensures AnalyzeWindowTitle("osu!") == Selecting
  {
    var lower := Lower("osu!");
    assert lower == "osu!";
    forall k ensures !MatchAt(lower, "edit", k) {
      if 0 <= k && k + 4 <= |lower| {
        assert k == 0;
        assert lower[0..4] == "osu!";
      }
    }
  }

  /**
   * `_extract_beatmap_info`: drops a leading "osu! - ", then a leading
   * "edit - ", and strips the rest; a title without the "osu! - " prefix is
   * returned as it is.
   */
  function ExtractBeatmapInfo(title: string): (r: string)
    ensures !StartsWith(title, "osu! - ") ==> r == title
    ensures StartsWith(title, "osu! - ") ==> |r| <= |title| - 7
  {
    if StartsWith(title, "osu! - ") then
      var name := title[7..];
      var name' := if StartsWith(name, "edit - ") then name[7..] else name;
      Strip(name')
    else title
  }

  /** A beatmap name without surrounding whitespace is recovered from the playing title built around it. */
  lemma ExtractBeatmapInfoRoundTrip(name: string)
    requires name == [] || (!IsSpace(name[0]) && !IsSpace(name[|name| - 1]))
    requires !StartsWith(name, "edit - ")
    ensures ExtractBeatmapInfo("osu! - " + name) == name
  {
    var title := "osu! - " + name;
    assert title[..7] == "osu! - ";
    assert title[7..] == name;
    StripStripped(name);
  }

  /** ... and from the editor title built around it. */
  lemma ExtractBeatmapInfoEditRoundTrip(name: string)
    requires name == [] || (!IsSpace(name[0]) && !IsSpace(name[|name| - 1]))
    ensures ExtractBeatmapInfo("osu! - edit - " + name) == name
  {
    var title := "osu! - edit - " + name;
    assert title[..7] == "osu! - ";
    assert title[7..] == "edit - " + name;
    assert title[7..][..7] == "edit - ";
    assert title[7..][7..] == name;
    StripStripped(name);
  }

  /** A top-level window as `EnumWindows` and `GetWindowText` report it. */
  datatype Window = Window(handle: int, title: string, visible: bool)

  /** The enumeration callback's test: a visible window whose title mentions "osu!" or "lazer". */
  predicate IsOsuWindow(w: Window)
  {
    w.visible && (Contains(Lower(w.title), "osu!") || Contains(Lower(w.title), "lazer"))
  }

  function OsuWindowReader(): Window -> Option<Window>
  {
    w => if IsOsuWindow(w) then Some(w) else None
  }

  /** The windows the enumeration callback appends, in enumeration order. */
  function Candidates(windows: seq<Window>): seq<Window>
  {
    Collect(windows, OsuWindowReader())
  }

  function TitleLength(w: Window): real
  {
    |w.title| as real
  }

  /** `_find_osu_window`: the candidates sorted by title length, and the first of them. */
  function OsuWindow(windows: seq<Window>): Option<Window>
  {
    var candidates := Candidates(windows);
    if |candidates| == 0 then None
    else
      SortBySortedPermutation(candidates, TitleLength);
      Some(SortBy(candidates, TitleLength)[0])
  }

  /** The enumeration loop followed by the sort. */
  method FindOsuWindow(windows: seq<Window>) returns (found: Option<Window>)
    ensures found == OsuWindow(windows)
  {
    var osuWindows := CollectAll(windows, OsuWindowReader());
    if |osuWindows| > 0 {
      SortBySortedPermutation(osuWindows, TitleLength);
      var sorted := SortBy(osuWindows, TitleLength);
      found := Some(sorted[0]);
    } else {
      found := None;
    }
  }

  /** The candidates are exactly the osu! windows of the list. */
  lemma CandidatesAreOsuWindows(windows: seq<Window>)
    ensures forall w :: w in Candidates(windows) ==> w in windows && IsOsuWindow(w)
    ensures forall i :: 0 <= i < |windows| && IsOsuWindow(windows[i]) ==> windows[i] in Candidates(windows)
  {
    var candidates := Candidates(windows);
    forall w | w in candidates ensures w in windows && IsOsuWindow(w) {
      var k :| 0 <= k < |candidates| && candidates[k] == w;
      CollectFrom(windows, OsuWindowReader(), k);
    }
    forall i | 0 <= i < |windows| && IsOsuWindow(windows[i]) ensures windows[i] in candidates {
      CollectKeeps(windows, OsuWindowReader(), i);
    }
  }

  /**
   * The window chosen is an osu! window with the shortest title, the first
   * such in enumeration order; none is chosen only when there is no osu!
   * window at all.
   */
  lemma OsuWindowIsFirstShortest(windows: seq<Window>)
    ensures OsuWindow(windows).None? <==> forall i :: 0 <= i < |windows| ==> !IsOsuWindow(windows[i])
    ensures OsuWindow(windows).Some? ==> IsOsuWindow(OsuWindow(windows).value) && OsuWindow(windows).value in windows
    ensures OsuWindow(windows).Some? ==>
      exists m :: 0 <= m < |Candidates(windows)| && Candidates(windows)[m] == OsuWindow(windows).value &&
                  (forall j :: 0 <= j < |Candidates(windows)| ==> |Candidates(windows)[m].title| <= |Candidates(windows)[j].title|) &&
                  (forall j :: 0 <= j < m ==> |Candidates(windows)[j].title| > |Candidates(windows)[m].title|)
  {
    var c := Candidates(windows);
    CandidatesAreOsuWindows(windows);
    if |c| > 0 {
      SortByHeadIsFirstMinimal(c, TitleLength);
      assert OsuWindow(windows).value in c;
    }
  }

  /** The monitor's memory between two observations. */
  datatype MonitorState = MonitorState(lastTitle: string, lastState: TitleState, stableCounter: int)

  /** The state `__init__` sets up. */
  function InitialState(): MonitorState
  {
    MonitorState("", Menu, 0)
  }

  /**
   * One pass of `_monitor_loop` that found a window with title `title`:
   * the new state and the beatmap name passed to the callback, if any.
   */
  function Step(s: MonitorState, title: string, required: int): (r: (MonitorState, Option<string>))
    ensures title == s.lastTitle ==> r == (s, None)
    ensures title != s.lastTitle ==> r.0.lastTitle == title && r.0.lastState == AnalyzeWindowTitle(title)
    ensures title != s.lastTitle && AnalyzeWindowTitle(title) != Playing ==> r.0.stableCounter == 0 && r.1.None?
    ensures title != s.lastTitle && AnalyzeWindowTitle(title) == Playing && s.lastState == Playing ==>
      r == (MonitorState(title, Playing, s.stableCounter), None)
    ensures r.1.Some? ==>
      && s.lastState != Playing && AnalyzeWindowTitle(title) == Playing
      && s.stableCounter + 1 >= required
      && r.0.stableCounter == 0 && r.1.value == ExtractBeatmapInfo(title)
  {
    if title == s.lastTitle then (s, None)
    else
      var newState := AnalyzeWindowTitle(title);
      if newState == Playing && s.lastState != Playing then
        var counter := s.stableCounter + 1;
        if counter >= required then (MonitorState(title, newState, 0), Some(ExtractBeatmapInfo(title)))
        else (MonitorState(title, newState, counter), None)
      else if newState != Playing then (MonitorState(title, newState, 0), None)
      else (MonitorState(title, newState, s.stableCounter), None)
  }

  /** A playing title after a non-playing one counts one step towards the threshold. */
  lemma StepCountsPlaying(s: MonitorState, title: string, required: int)
    requires title != s.lastTitle && AnalyzeWindowTitle(title) == Playing && s.lastState != Playing
    ensures s.stableCounter + 1 < required ==> Step(s, title, required) == (MonitorState(title, Playing, s.stableCounter + 1), None)
    ensures s.stableCounter + 1 >= required ==> Step(s, title, required) == (MonitorState(title, Playing, 0), Some(ExtractBeatmapInfo(title)))
  {
  }

  /**
   * What the loop keeps: the counter is 0, or it is 1 right after the
   * state turned to "playing".
   */
  predicate Debounced(s: MonitorState)
  {
    s.stableCounter == 0 || (s.stableCounter == 1 && s.lastState == Playing)
  }

  /** With a threshold of 2 or more, a step keeps the counter debounced and never calls back. */
  lemma StepKeepsDebounced(s: MonitorState, title: string, required: int)
    requires Debounced(s) && required >= 2
    ensures Debounced(Step(s, title, required).0)
    ensures Step(s, title, required).1.None?
  {
  }

  /** The states and callback arguments of a run of the loop over successive window titles. */
  function Run(s: MonitorState, titles: seq<string>, required: int): (MonitorState, seq<string>)
  {
    if |titles| == 0 then (s, [])
    else
      var (mid, reported) := Run(s, titles[..|titles| - 1], required);
      var (next, fired) := Step(mid, titles[|titles| - 1], required);
      (next, reported + (match fired case Some(name) => [name] case None => []))
  }

  /**
   * The counter never exceeds 1, so with the threshold of 3 set in
   * `__init__` the callback is never called, whatever titles appear.
   */
  lemma {:induction false} RunNeverCallsBack(s: MonitorState, titles: seq<string>, required: int)
    requires Debounced(s) && required >= 2
    ensures Debounced(Run(s, titles, required).0)
    ensures Run(s, titles, required).0.stableCounter <= 1
    ensures Run(s, titles, required).1 == []
  {
    if |titles| > 0 {
      RunNeverCallsBack(s, titles[..|titles| - 1], required);
      var mid := Run(s, titles[..|titles| - 1], required).0;
      StepKeepsDebounced(mid, titles[|titles| - 1], required);
    }
  }

  /** From the initial state, the callback is never reached. */
  lemma CallbackUnreachable(titles: seq<string>)
    ensures Run(InitialState(), titles, 3).1 == []
  {
    RunNeverCallsBack(InitialState(), titles, 3);
  }

  /** `OsuWindowMonitor`: the fields the loop updates, and the names handed to the callback. */
  class OsuWindowMonitor {
    var lastTitle: string
    var lastState: TitleState
    var stableCounter: int
    const requiredStableFrames: int
    /** The arguments of every callback call so far, in order. */
    var reported: seq<string>

    function State(): MonitorState
      reads this
    {
      MonitorState(lastTitle, lastState, stableCounter)
    }

    /** The counter is debounced and the threshold is the one `__init__` sets. */
    predicate Valid()
      reads this
    {
      requiredStableFrames == 3 && Debounced(State())
    }

    constructor ()
      ensures State() == InitialState() && requiredStableFrames == 3 && reported == []
      ensures Valid()
    {
      lastTitle := "";
      lastState := Menu;
      stableCounter := 0;
      requiredStableFrames := 3;
      reported := [];
    }

    /** The body of `_monitor_loop` once the window's title has been read. */
    method Observe(title: string)
      modifies this
      ensures State() == Step(old(State()), title, requiredStableFrames).0
      ensures reported == old(reported) + (match Step(old(State()), title, requiredStableFrames).1
                                           case Some(name) => [name] case None => [])
      ensures old(Valid()) ==> Valid() && reported == old(reported)
    {
      if old(Valid()) {
        StepKeepsDebounced(State(), title, requiredStableFrames);
      }
      if title != lastTitle {
        var newState := AnalyzeWindowTitle(title);
        if newState == Playing && lastState != Playing {
          stableCounter := stableCounter + 1;
          if stableCounter >= requiredStableFrames {
            var beatmapInfo := ExtractBeatmapInfo(title);
            reported := reported + [beatmapInfo];
            stableCounter := 0;
          }
        } else {
          if newState != Playing {
            stableCounter := 0;
          }
        }
        lastState := newState;
        lastTitle := title;
      }
    }

    /**
     * One pass of `_monitor_loop`: find the osu! window, then observe its
     * title if there is one with a non-zero handle.
     */
    method Poll(windows: seq<Window>)
      modifies this
      ensures OsuWindow(windows).None? || OsuWindow(windows).value.handle == 0 ==>
        State() == old(State()) && reported == old(reported)
      ensures OsuWindow(windows).Some? && OsuWindow(windows).value.handle != 0 ==>
        var (next, fired) := Step(old(State()), OsuWindow(windows).value.title, requiredStableFrames);
        State() == next && reported == old(reported) + (match fired case Some(name) => [name] case None => [])
      ensures old(Valid()) ==> Valid() && reported == old(reported)
    {
      var found := FindOsuWindow(windows);
      if found.Some? && found.value.handle != 0 {
        Observe(found.value.title);
      }
    }
  }
}
