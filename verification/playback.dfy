/**
 * The playback bookkeeping of `RelaxBot` in cursor.py: which hit objects
 * are in reach, when each is clicked, the Z/X key presses sent to the
 * game, the cursor target, and the start/stop/pause/waiting controls.
 * The clock, the foreground-window test, the dance and spinner cursor
 * offsets and the cursor physics are outside the model; the first three
 * are parameters.
 */
module Playback {
  import opened Wrappers
  import opened Numbers
  import opened Sorting
  import opened Folds
  import opened Beatmap

  // ------------------------------------------------------------ constants

  /** Virtual-key codes of `WindowsInputHelper`. */
  const VkZ: int := 0x5A
  const VkX: int := 0x58

  /** The screen is 1920x1080 and the playfield 512x384 osu! pixels. */
  const ScaleXFactor: real := 1920.0 / 512.0
  const ScaleYFactor: real := 1080.0 / 384.0

  /** The screen position of a playfield x coordinate: `int(x * SCALE_X)`. */
  function ScaleX(x: real): int
  {
    Trunc(x * ScaleXFactor)
  }

  function ScaleY(y: real): int
  {
    Trunc(y * ScaleYFactor)
  }

  /** Every playfield point lands on the screen, and scaling keeps the order of coordinates. */
  lemma ScaleOntoScreen(x: real, y: real, x': real)
    ensures 0.0 <= x <= 512.0 ==> 0 <= ScaleX(x) <= 1920
    ensures 0.0 <= y <= 384.0 ==> 0 <= ScaleY(y) <= 1080
    ensures x <= x' ==> ScaleX(x) <= ScaleX(x') && ScaleY(x) <= ScaleY(x')
  {
    if x <= x' {
      TruncMonotone(x * ScaleXFactor, x' * ScaleXFactor);
      TruncMonotone(x * ScaleYFactor, x' * ScaleYFactor);
    }
    if 0.0 <= x <= 512.0 {
      TruncMonotone(0.0, x * ScaleXFactor);
      TruncMonotone(x * ScaleXFactor, 1920.0);
    }
    if 0.0 <= y <= 384.0 {
      TruncMonotone(0.0, y * ScaleYFactor);
      TruncMonotone(y * ScaleYFactor, 1080.0);
    }
  }

  function Abs(r: real): real
  {
    if r < 0.0 then -r else r
  }

  // ------------------------------------------------------------ hit windows

  /** `should_click`: is the object's time within the accuracy mode's window around now? */
  predicate ShouldClick(accuracyMode: string, o: HitObject, currentTime: real)
  {
    var timeDiff := o.time - currentTime;
    if accuracyMode == "perfect" then -30.0 <= timeDiff <= 30.0
    else if accuracyMode == "high" then -50.0 <= timeDiff <= 50.0
    else -100.0 <= timeDiff <= 100.0
  }

  /** The half-width of each mode's window. */
  function HitWindow(accuracyMode: string): (w: real)
    ensures 30.0 <= w <= 100.0
  {
    match accuracyMode
    case "perfect" => 30.0
    case "high" => 50.0
    case _ => 100.0
  }

  /**
   * The windows are closed intervals centred on the object's time, and
   * they are nested: "perfect" inside "high" inside every other mode.
   */
  lemma HitWindowsNested(mode: string, o: HitObject, t: real)
    ensures ShouldClick(mode, o, t) <==> Abs(o.time - t) <= HitWindow(mode)
    ensures ShouldClick("perfect", o, t) ==> ShouldClick("high", o, t)
    ensures mode != "perfect" && ShouldClick("high", o, t) ==> ShouldClick(mode, o, t)
  {
  }

  // ------------------------------------------------------------ keyboard

  /** A key event sent with `SendInput`. */
  datatype KeyEvent = Press(vk: int) | Release(vk: int)

  /** `key_pressed`, `current_key`, `current_vk`, and the events sent so far. */
  datatype Keyboard = Keyboard(pressed: bool, currentKey: char, currentVk: int, sent: seq<KeyEvent>)

  /** `current_key` and `current_vk` name the same key, Z or X. */
  predicate KeyConsistent(k: Keyboard)
  {
    (k.currentKey == 'z' && k.currentVk == VkZ) || (k.currentKey == 'x' && k.currentVk == VkX)
  }

  /** `press_key`: sends a press only when no key is held. */
  function PressedKey(k: Keyboard): (r: Keyboard)
    ensures r.pressed && r.currentKey == k.currentKey && r.currentVk == k.currentVk
    ensures k.pressed ==> r == k
  {
    if !k.pressed then k.(pressed := true, sent := k.sent + [Press(k.currentVk)]) else k
  }

  /** `toggle_key`: Z becomes X and anything else becomes Z. */
  function ToggledKey(k: Keyboard): (r: Keyboard)
    ensures KeyConsistent(r)
    ensures KeyConsistent(k) ==> r.currentKey != k.currentKey
    ensures r.pressed == k.pressed && r.sent == k.sent
  {
    if k.currentKey == 'z' then k.(currentKey := 'x', currentVk := VkX)
    else k.(currentKey := 'z', currentVk := VkZ)
  }

  /** `release_key`: releases a held key and switches to the other key. */
  function ReleasedKey(k: Keyboard): (r: Keyboard)
    ensures !r.pressed
    ensures !k.pressed ==> r == k
    ensures k.pressed ==> KeyConsistent(r) && r.sent == k.sent + [Release(k.currentVk)]
  {
    if k.pressed then ToggledKey(k.(pressed := false, sent := k.sent + [Release(k.currentVk)])) else k
  }

  /** The release `stop` and `toggle_pause` do themselves: no switch of key. */
  function ReleasedWithoutToggle(k: Keyboard): (r: Keyboard)
    ensures !r.pressed && r.currentKey == k.currentKey && r.currentVk == k.currentVk
    ensures !k.pressed ==> r == k
  {
    if k.pressed then k.(pressed := false, sent := k.sent + [Release(k.currentVk)]) else k
  }

  /** A log made of press/release pairs of the same key. */
  predicate Balanced(s: seq<KeyEvent>)
  {
    if |s| == 0 then true
    else |s| >= 2 && s[|s| - 2].Press? && s[|s| - 1] == Release(s[|s| - 2].vk) && Balanced(s[..|s| - 2])
  }

  /** The log is balanced, except for a final press of the current key exactly while a key is held. */
  predicate Paired(k: Keyboard)
  {
    if k.pressed then |k.sent| > 0 && k.sent[|k.sent| - 1] == Press(k.currentVk) && Balanced(k.sent[..|k.sent| - 1])
    else Balanced(k.sent)
  }

  predicate KeyboardValid(k: Keyboard)
  {
    KeyConsistent(k) && Paired(k)
  }

  lemma BalancedPair(s: seq<KeyEvent>, vk: int)
    requires Balanced(s)
    ensures Balanced(s + [Press(vk), Release(vk)])
  {
    assert (s + [Press(vk), Release(vk)])[..|s|] == s;
  }

  /** Pressing and both kinds of release keep every press matched by a release of the same key. */
  lemma KeyOperationsKeepPairing(k: Keyboard)
    requires KeyboardValid(k)
    ensures KeyboardValid(PressedKey(k))
    ensures KeyboardValid(ReleasedKey(k))
    ensures KeyboardValid(ReleasedWithoutToggle(k))
  {
    if k.pressed {
      var s := k.sent[..|k.sent| - 1];
      BalancedPair(s, k.currentVk);
      assert k.sent + [Release(k.currentVk)] == s + [Press(k.currentVk), Release(k.currentVk)];
    } else {
      assert (k.sent + [Press(k.currentVk)])[..|k.sent|] == k.sent;
    }
  }

  /** Pressing twice is pressing once; releasing twice is releasing once. */
  lemma KeyOperationsIdempotent(k: Keyboard)
    ensures PressedKey(PressedKey(k)) == PressedKey(k)
    ensures ReleasedKey(ReleasedKey(k)) == ReleasedKey(k)
    ensures ReleasedWithoutToggle(ReleasedWithoutToggle(k)) == ReleasedWithoutToggle(k)
  {
  }

  /** Toggling swaps Z and X, and toggling twice restores the key. */
  lemma ToggledKeySwaps(k: Keyboard)
    requires KeyConsistent(k)
    ensures KeyConsistent(ToggledKey(k))
    ensures ToggledKey(k).currentVk != k.currentVk
    ensures ToggledKey(ToggledKey(k)) == k
  {
  }

  /**
   * Successive clicks alternate the keys: after a held key is released,
   * the next press and release use the other key.
   */
  lemma ReleasesAlternate(k: Keyboard)
    requires KeyConsistent(k) && k.pressed
    ensures ReleasedKey(k).sent == k.sent + [Release(k.currentVk)]
    ensures ReleasedKey(PressedKey(ReleasedKey(k))).sent
         == k.sent + [Release(k.currentVk), Press(ReleasedKey(k).currentVk), Release(ReleasedKey(k).currentVk)]
    ensures ReleasedKey(k).currentVk != k.currentVk
    ensures ReleasedKey(PressedKey(ReleasedKey(k))).currentVk == k.currentVk
  {
  }

  // ------------------------------------------------------------ positions

  /**
   * `calculate_target_position`: the object's screen position, plus the
   * dance offset while it is more than 150 ms away, a scaled-down offset
   * between 150 and 50 ms, and no offset from 50 ms on. The dance offset
   * (`calculate_dance_offset`) is a parameter.
   */
  function TargetPosition(o: HitObject, currentTime: real, dance: (real, HitObject, real) -> Point): Point
  {
    var baseX := ScaleX(o.x as real);
    var baseY := ScaleY(o.y as real);
    var timeUntil := o.time - currentTime;
    if timeUntil > 150.0 then
      var offset := dance(currentTime, o, timeUntil);
      (baseX + offset.0, baseY + offset.1)
    else if timeUntil > 50.0 then
      var offset := dance(currentTime, o, timeUntil);
      (baseX + Faded(offset.0, timeUntil), baseY + Faded(offset.1, timeUntil))
    else (baseX, baseY)
  }

  lemma MulNonNegativeReal(a: real, b: real)
    requires 0.0 <= a && 0.0 <= b
    ensures 0.0 <= a * b
  {
  }

  lemma ScaledOffsetBound(d: int, s: real)
    requires 0.0 < s <= 1.0
    ensures -Abs(d as real) <= Trunc(d as real * s) as real <= Abs(d as real)
  {
    var p := d as real * s;
    var rest := d as real * (1.0 - s);
    assert p + rest == d as real;
    if d >= 0 {
      MulNonNegativeReal(d as real, s);
      MulNonNegativeReal(d as real, 1.0 - s);
    } else {
      MulNonNegativeReal(-d as real, s);
      MulNonNegativeReal(-d as real, 1.0 - s);
    }
    TruncTowardZero(p);
  }

  /** Within 50 ms of its time the target is the object itself, whatever the dance. */
  lemma TargetPositionNear(o: HitObject, t: real, dance: (real, HitObject, real) -> Point)
    requires o.time - t <= 50.0
    ensures TargetPosition(o, t, dance) == (ScaleX(o.x as real), ScaleY(o.y as real))
  {
  }

  /**
   * One component of the dance offset between 150 and 50 ms before the
   * object: `int(offset * (time_until - 50) / 100)`, which shrinks towards
   * zero as the object comes closer.
   */
  function Faded(d: int, timeUntil: real): (r: int)
    ensures 50.0 < timeUntil <= 150.0 ==> -Abs(d as real) <= r as real <= Abs(d as real)
  {
    var intensityScale := (timeUntil - 50.0) / 100.0;
    if 50.0 < timeUntil <= 150.0 then ScaledOffsetBound(d, intensityScale); Trunc(d as real * intensityScale)
    else Trunc(d as real * intensityScale)
  }

  /** Between 150 and 50 ms the offset applied is never larger than the dance offset. */
  lemma TargetPositionBlend(o: HitObject, t: real, dance: (real, HitObject, real) -> Point)
    requires 50.0 < o.time - t <= 150.0
    ensures var offset := dance(t, o, o.time - t);
      && Abs((TargetPosition(o, t, dance).0 - ScaleX(o.x as real)) as real) <= Abs(offset.0 as real)
      && Abs((TargetPosition(o, t, dance).1 - ScaleY(o.y as real)) as real) <= Abs(offset.1 as real)
  {
  }

  /** Beyond 150 ms the whole dance offset is applied. */
  lemma TargetPositionFar(o: HitObject, t: real, dance: (real, HitObject, real) -> Point)
    requires o.time - t > 150.0
    ensures TargetPosition(o, t, dance)
         == (ScaleX(o.x as real) + dance(t, o, o.time - t).0, ScaleY(o.y as real) + dance(t, o, o.time - t).1)
  {
  }

  /** The outcome of `get_slider_position`. */
  datatype SliderPoint =
    | NoPosition          // it returned None
    | At(x: int, y: int)
    | ZeroDivision        // the division raised ZeroDivisionError

  function Clamp01(p: real): (r: real)
    ensures 0.0 <= r <= 1.0
  {
    if p < 0.0 then 0.0 else if p > 1.0 then 1.0 else p
  }

  /** `max(0.0, min(1.0, elapsed / duration))`. */
  function Progress(elapsed: real, duration: real): (r: real)
    requires duration != 0.0
    ensures 0.0 <= r <= 1.0
  {
    Clamp01(elapsed / duration)
  }

  /** Progress is 0 up to the start and 1 from the end on. */
  lemma ProgressEnds(elapsed: real, duration: real)
    requires duration > 0.0
    ensures elapsed <= 0.0 ==> Progress(elapsed, duration) == 0.0
    ensures elapsed >= duration ==> Progress(elapsed, duration) == 1.0
  {
    var q := elapsed / duration;
    assert q * duration == elapsed;
    if elapsed <= 0.0 && q > 0.0 {
      MulNonNegativeReal(q, duration);
      assert false;
    }
    if elapsed >= duration && q < 1.0 {
      MulNonNegativeReal(1.0 - q, duration);
      assert false;
    }
  }

  /** The point a fraction `p` of the way from `a` to `b`. */
  function Lerp(a: int, b: int, p: real): (r: real)
    ensures p == 0.0 ==> r == a as real
    ensures p == 1.0 ==> r == b as real
  {
    a as real + (b - a) as real * p
  }

  /** For a fraction in [0, 1] the point lies between the two ends. */
  lemma LerpBetween(a: int, b: int, p: real)
    requires 0.0 <= p <= 1.0
    ensures (if a <= b then a as real else b as real) <= Lerp(a, b, p) <= (if a <= b then b as real else a as real)
  {
    var d := (b - a) as real;
    if a <= b {
      MulNonNegativeReal(d, p);
      MulNonNegativeReal(d, 1.0 - p);
    } else {
      MulNonNegativeReal(-d, p);
      MulNonNegativeReal(-d, 1.0 - p);
    }
  }

  /**
   * `get_slider_position`: the point a fraction `progress` of the way from
   * the slider's head to its first anchor, progress being the elapsed part
   * of the slider's duration clamped to [0, 1]. A missing or zero end time
   * gives no position, and a zero duration raises.
   */
  function SliderPosition(o: HitObject, currentTime: real): SliderPoint
  {
    if o.endTime.None? || o.endTime.value == 0.0 then NoPosition
    else if o.endTime.value - o.time == 0.0 then ZeroDivision
    else
      var progress := Progress(currentTime - o.time, o.endTime.value - o.time);
      if |o.sliderPoints| > 0 then
        var endPoint := o.sliderPoints[0];
        At(ScaleX(Lerp(o.x, endPoint.0, progress)), ScaleY(Lerp(o.y, endPoint.1, progress)))
      else At(ScaleX(o.x as real), ScaleY(o.y as real))
  }

  /** Only a slider whose end time equals its start time makes the division raise. */
  lemma SliderPositionRaises(o: HitObject, t: real)
    ensures SliderPosition(o, t) == ZeroDivision <==>
      o.endTime.Some? && o.endTime.value != 0.0 && o.endTime.value == o.time
  {
  }

  /** Before its start a slider sits on its head, and from its end on on its first anchor. */
  lemma SliderPositionEnds(o: HitObject, t: real)
    requires o.endTime.Some? && o.endTime.value > o.time && o.endTime.value != 0.0 && |o.sliderPoints| > 0
    ensures t <= o.time ==> SliderPosition(o, t) == At(ScaleX(o.x as real), ScaleY(o.y as real))
    ensures t >= o.endTime.value ==>
      SliderPosition(o, t) == At(ScaleX(o.sliderPoints[0].0 as real), ScaleY(o.sliderPoints[0].1 as real))
  {
    ProgressEnds(t - o.time, o.endTime.value - o.time);
  }

  /** In between, each coordinate lies between those of the head and the first anchor. */
  lemma SliderPositionBetween(o: HitObject, t: real)
    requires |o.sliderPoints| > 0 && SliderPosition(o, t).At?
    ensures var e := o.sliderPoints[0];
      && ScaleX(if o.x <= e.0 then o.x as real else e.0 as real) <= SliderPosition(o, t).x
      && SliderPosition(o, t).x <= ScaleX(if o.x <= e.0 then e.0 as real else o.x as real)
      && ScaleY(if o.y <= e.1 then o.y as real else e.1 as real) <= SliderPosition(o, t).y
      && SliderPosition(o, t).y <= ScaleY(if o.y <= e.1 then e.1 as real else o.y as real)
  {
    var e := o.sliderPoints[0];
    var progress := Progress(t - o.time, o.endTime.value - o.time);
    LerpBetween(o.x, e.0, progress);
    LerpBetween(o.y, e.1, progress);
    var x := Lerp(o.x, e.0, progress);
    var y := Lerp(o.y, e.1, progress);
    ScaleOntoScreen(if o.x <= e.0 then o.x as real else e.0 as real, 0.0, x);
    ScaleOntoScreen(x, 0.0, if o.x <= e.0 then e.0 as real else o.x as real);
    ScaleOntoScreen(if o.y <= e.1 then o.y as real else e.1 as real, 0.0, y);
    ScaleOntoScreen(y, 0.0, if o.y <= e.1 then e.1 as real else o.y as real);
  }

  // ------------------------------------------------------------ the active set

  /** The objects `bot_loop` considers: not yet clicked, from 200 ms ago to 800 ms ahead. */
  function ActiveReader(clicked: set<real>, currentTime: real): HitObject -> Option<HitObject>
  {
    (o: HitObject) => if o.time !in clicked && -200.0 <= o.time - currentTime <= 800.0 then Some(o) else None
  }

  function ActiveObjects(objects: seq<HitObject>, clicked: set<real>, currentTime: real): seq<HitObject>
  {
    Collect(objects, ActiveReader(clicked, currentTime))
  }

  /**
   * An object is active exactly when it is in the list, no clicked object
   * shares its time, and it is due between 200 ms ago and 800 ms ahead.
   */
  lemma ActiveObjectsExactly(objects: seq<HitObject>, clicked: set<real>, t: real, o: HitObject)
    ensures o in ActiveObjects(objects, clicked, t) <==>
      o in objects && o.time !in clicked && -200.0 <= o.time - t <= 800.0
  {
    var active := ActiveObjects(objects, clicked, t);
    if o in active {
      var k :| 0 <= k < |active| && active[k] == o;
      CollectFrom(objects, ActiveReader(clicked, t), k);
    }
    if o in objects && o.time !in clicked && -200.0 <= o.time - t <= 800.0 {
      var i :| 0 <= i < |objects| && objects[i] == o;
      CollectKeeps(objects, ActiveReader(clicked, t), i);
    }
  }

  /** Clicking an object's time consumes every object that shares that time. */
  lemma SharedTimeConsumed(objects: seq<HitObject>, clicked: set<real>, t: real, o: HitObject, o': HitObject)
    requires o.time in clicked && o'.time == o.time
    ensures o' !in ActiveObjects(objects, clicked, t)
  {
    ActiveObjectsExactly(objects, clicked, t, o');
  }

  /**
   * A spinner that lasts more than 200 ms has left the active set by the
   * time it ends, so the branch that releases it at its end never runs
   * for it.
   */
  lemma LongSpinnerNeverEnds(objects: seq<HitObject>, clicked: set<real>, t: real, o: HitObject)
    requires o.kind.Spinner? && o.endTime.Some? && o.endTime.value > o.time + 200.0
    requires t >= o.endTime.value
    ensures o !in ActiveObjects(objects, clicked, t)
  {
    ActiveObjectsExactly(objects, clicked, t, o);
  }

  /** The sort key of the active list: how far the object is from now. */
  function Urgency(currentTime: real): HitObject -> real
  {
    (o: HitObject) => Abs(o.time - currentTime)
  }

  /** The active objects ordered by distance from now, ties in list order (`active_objects.sort`). */
  function ByUrgency(active: seq<HitObject>, currentTime: real): (r: seq<HitObject>)
    ensures |r| == |active|
  {
    SortBySortedPermutation(active, Urgency(currentTime));
    SortBy(active, Urgency(currentTime))
  }

  /** The nearest active object is the first of those closest to now. */
  lemma NearestIsFirstClosest(active: seq<HitObject>, t: real)
    requires |active| > 0
    ensures exists m :: 0 <= m < |active| && active[m] == ByUrgency(active, t)[0] &&
                        (forall j :: 0 <= j < |active| ==> Abs(active[m].time - t) <= Abs(active[j].time - t)) &&
                        (forall j :: 0 <= j < m ==> Abs(active[j].time - t) > Abs(active[m].time - t))
  {
    SortByHeadIsFirstMinimal(active, Urgency(t));
    var m :| 0 <= m < |active| && active[m] == ByUrgency(active, t)[0] &&
             (forall j :: 0 <= j < |active| ==> Urgency(t)(active[m]) <= Urgency(t)(active[j])) &&
             (forall j :: 0 <= j < m ==> Urgency(t)(active[j]) > Urgency(t)(active[m]));
    forall j | 0 <= j < |active| ensures Abs(active[m].time - t) <= Abs(active[j].time - t) {
      assert Urgency(t)(active[m]) <= Urgency(t)(active[j]);
    }
    forall j | 0 <= j < m ensures Abs(active[j].time - t) > Abs(active[m].time - t) {
      assert Urgency(t)(active[j]) > Urgency(t)(active[m]);
    }
  }

  // ------------------------------------------------------------ one tick

  /**
   * What one pass of `bot_loop` changes: the keyboard, `clicked_objects`,
   * `active_slider`, `target_position`, the circle releases waiting on
   * their timers, and whether the loop's thread is still alive.
   */
  datatype Frame = Frame(
    keys: Keyboard,
    clicked: set<real>,
    activeSlider: Option<HitObject>,
    target: Point,
    pendingReleases: nat,
    alive: bool)

  /** A circle in its window is clicked: a press, a release scheduled on a timer, and its time consumed. */
  function CircleStep(f: Frame, o: HitObject, t: real, accuracyMode: string): (r: Frame)
    ensures !ShouldClick(accuracyMode, o, t) ==> r == f
    ensures ShouldClick(accuracyMode, o, t) ==>
      o.time in r.clicked && r.keys.pressed && r.pendingReleases == f.pendingReleases + 1 && r.activeSlider == f.activeSlider
  {
    if ShouldClick(accuracyMode, o, t) then
      f.(keys := PressedKey(f.keys), pendingReleases := f.pendingReleases + 1, clicked := f.clicked + {o.time})
    else f
  }

  /**
   * A slider in its window starts when no slider is active; the active
   * slider, matched by time, ends at its end time or else moves the target
   * along its path. Comparing with a missing end time or dividing by a zero
   * duration raises and ends the loop.
   */
  function SliderStep(f: Frame, o: HitObject, t: real, accuracyMode: string): Frame
  {
    var started :=
      if ShouldClick(accuracyMode, o, t) && f.activeSlider.None? then
        f.(activeSlider := Some(o), keys := PressedKey(f.keys), clicked := f.clicked + {o.time})
      else f;
    if started.activeSlider.Some? && started.activeSlider.value.time == o.time then
      if o.endTime.None? then started.(alive := false)
      else if t >= o.endTime.value then started.(keys := ReleasedKey(started.keys), activeSlider := None)
      else
        match SliderPosition(o, t)
        case ZeroDivision => started.(alive := false)
        case NoPosition => started
        case At(x, y) => started.(target := (x, y))
    else started
  }

  /**
   * A spinner that has started and not ended holds a key and moves the
   * target to `spin(t)` (`spin_cursor`); one that has ended releases the key
   * and is consumed. A missing end time raises.
   */
  function SpinnerStep(f: Frame, o: HitObject, t: real, spin: real -> Point): (r: Frame)
    ensures r.clicked == f.clicked || r.clicked == f.clicked + {o.time}
    ensures r.activeSlider == f.activeSlider && r.pendingReleases == f.pendingReleases
    ensures r.alive ==> o.endTime.Some? && (o.time in r.clicked ==> t >= o.endTime.value || o.time in f.clicked)
  {
    if o.endTime.None? then f.(alive := false)
    else if o.time - t <= 0.0 && t < o.endTime.value then
      f.(keys := PressedKey(f.keys), target := spin(t))
    else if t >= o.endTime.value && o.time !in f.clicked then
      f.(keys := ReleasedKey(f.keys), clicked := f.clicked + {o.time})
    else f
  }

  /** One object of the click loop; nothing happens once the loop has raised. */
  function ObjectStep(f: Frame, o: HitObject, t: real, accuracyMode: string, spin: real -> Point): Frame
  {
    if !f.alive then f
    else
      match o.kind
      case Circle => CircleStep(f, o, t, accuracyMode)
      case Slider => SliderStep(f, o, t, accuracyMode)
      case Spinner => SpinnerStep(f, o, t, spin)
  }

  /** The click loop over a list of objects, in order. */
  function ObjectsStep(f: Frame, objects: seq<HitObject>, t: real, accuracyMode: string, spin: real -> Point): Frame
  {
    if |objects| == 0 then f
    else ObjectStep(ObjectsStep(f, objects[..|objects| - 1], t, accuracyMode, spin), objects[|objects| - 1], t, accuracyMode, spin)
  }

  /**
   * One pass of `bot_loop` at time `t` (past the pause and foreground
   * checks): the active objects, ordered by distance from now, set the
   * target from the nearest one, then each is clicked in that order.
   */
  function TickStep(f: Frame, objects: seq<HitObject>, t: real, accuracyMode: string,
                    dance: (real, HitObject, real) -> Point, spin: real -> Point): Frame
  {
    var order := ByUrgency(ActiveObjects(objects, f.clicked, t), t);
    if |order| == 0 then f
    else ObjectsStep(f.(target := TargetPosition(order[0], t, dance)), order, t, accuracyMode, spin)
  }

  /** Each object keeps the keyboard log paired and never forgets a clicked time. */
  lemma ObjectStepKeeps(f: Frame, o: HitObject, t: real, mode: string, spin: real -> Point)
    requires KeyboardValid(f.keys)
    ensures KeyboardValid(ObjectStep(f, o, t, mode, spin).keys)
    ensures f.clicked <= ObjectStep(f, o, t, mode, spin).clicked
  {
    KeyOperationsKeepPairing(f.keys);
    KeyOperationsKeepPairing(PressedKey(f.keys));
  }

  lemma {:induction false} ObjectsStepKeeps(f: Frame, objects: seq<HitObject>, t: real, mode: string, spin: real -> Point)
    requires KeyboardValid(f.keys)
    ensures KeyboardValid(ObjectsStep(f, objects, t, mode, spin).keys)
    ensures f.clicked <= ObjectsStep(f, objects, t, mode, spin).clicked
  {
    if |objects| > 0 {
      ObjectsStepKeeps(f, objects[..|objects| - 1], t, mode, spin);
      ObjectStepKeeps(ObjectsStep(f, objects[..|objects| - 1], t, mode, spin), objects[|objects| - 1], t, mode, spin);
    }
  }

  /** A tick keeps every press matched by a release of the same key, and only adds clicked times. */
  lemma TickStepKeeps(f: Frame, objects: seq<HitObject>, t: real, mode: string,
                      dance: (real, HitObject, real) -> Point, spin: real -> Point)
    requires KeyboardValid(f.keys)
    ensures KeyboardValid(TickStep(f, objects, t, mode, dance, spin).keys)
    ensures f.clicked <= TickStep(f, objects, t, mode, dance, spin).clicked
  {
    var order := ByUrgency(ActiveObjects(objects, f.clicked, t), t);
    if |order| > 0 {
      ObjectsStepKeeps(f.(target := TargetPosition(order[0], t, dance)), order, t, mode, spin);
    }
  }

  /** A slider that is active but whose time is consumed stays active through the click loop. */
  lemma {:induction false} ObjectsStepKeepsSlider(f: Frame, objects: seq<HitObject>, t: real, mode: string, spin: real -> Point)
    requires f.activeSlider.Some?
    requires forall i :: 0 <= i < |objects| ==> objects[i].time != f.activeSlider.value.time
    ensures ObjectsStep(f, objects, t, mode, spin).activeSlider == f.activeSlider
  {
    if |objects| > 0 {
      ObjectsStepKeepsSlider(f, objects[..|objects| - 1], t, mode, spin);
    }
  }

  /**
   * A started slider enters `clicked_objects`, so it leaves the active set
   * and `end_slider` is never reached for it on a later tick: once its time
   * is consumed, the active slider stays set.
   */
  lemma ActiveSliderSticks(f: Frame, objects: seq<HitObject>, t: real, mode: string,
                           dance: (real, HitObject, real) -> Point, spin: real -> Point)
    requires f.activeSlider.Some? && f.activeSlider.value.time in f.clicked
    ensures TickStep(f, objects, t, mode, dance, spin).activeSlider == f.activeSlider
  {
    var active := ActiveObjects(objects, f.clicked, t);
    var order := ByUrgency(active, t);
    if |order| > 0 {
      SortBySortedPermutation(active, Urgency(t));
      forall i | 0 <= i < |order| ensures order[i].time != f.activeSlider.value.time {
        assert order[i] in multiset(order);
        assert order[i] in active;
        ActiveObjectsExactly(objects, f.clicked, t, order[i]);
      }
      ObjectsStepKeepsSlider(f.(target := TargetPosition(order[0], t, dance)), order, t, mode, spin);
    }
  }

  /** A circle in its window is consumed, presses a key if none is held and schedules one release. */
  lemma CircleClicked(f: Frame, o: HitObject, t: real, mode: string, spin: real -> Point)
    requires f.alive && o.kind.Circle? && ShouldClick(mode, o, t)
    ensures var g := ObjectStep(f, o, t, mode, spin);
      && o.time in g.clicked
      && g.pendingReleases == f.pendingReleases + 1
      && g.keys == PressedKey(f.keys)
      && g.keys.pressed
  {
  }

  // ------------------------------------------------------------ controls

  /** The settings `start` reads from the window: the offset and the accuracy mode. */
  datatype Settings = Settings(offsetMs: real, accuracyMode: string)

  /** The hotkeys of `on_key_press`. */
  datatype Hotkey = Insert | End | Home | OtherKey

  /** The flags and settings the controls change. */
  datatype Controls = Controls(
    running: bool,
    paused: bool,
    waitingMode: bool,
    hasMonitor: bool,
    hitObjects: seq<HitObject>,
    accuracyMode: string,
    offsetMs: real,
    startTime: real)

  datatype Bot = Bot(controls: Controls, frame: Frame)

  /** A stopped bot holds no key and is not paused, and the key log is paired. */
  predicate BotValid(b: Bot)
  {
    && KeyboardValid(b.frame.keys)
    && (!b.controls.running ==> !b.frame.keys.pressed && !b.controls.paused)
  }

  /** The state `__init__` sets up. */
  function InitialBot(): Bot
  {
    Bot(Controls(false, false, false, false, [], "perfect", 0.0, 0.0),
        Frame(Keyboard(false, 'z', VkZ, []), {}, None, (1920 / 2, 1080 / 2), 0, false))
  }

  /**
   * `start`: does nothing when running, without hit objects or with bad
   * settings; otherwise resets the playback state, puts the target at the
   * mouse position and starts the clock `offsetMs` early.
   */
  function Started(b: Bot, settings: Option<Settings>, clock: real, mouse: Point): (r: Bot)
    ensures b.controls.running || |b.controls.hitObjects| == 0 || settings.None? ==> r == b
    ensures r != b ==>
      && r.controls.running && !r.controls.paused && !r.controls.waitingMode
      && !r.frame.keys.pressed && r.frame.clicked == {} && r.frame.activeSlider.None?
  {
    if b.controls.running || |b.controls.hitObjects| == 0 || settings.None? then b
    else
      var settings := settings.value;
      Bot(Controls(true, false, false, b.controls.hasMonitor, b.controls.hitObjects,
                   settings.accuracyMode, settings.offsetMs, clock - settings.offsetMs),
          Frame(Keyboard(false, 'z', VkZ, b.frame.keys.sent), {}, None, mouse, b.frame.pendingReleases, true))
  }

  /** `stop`: clears the flags, releases a held key without switching keys, and drops the monitor. */
  function Stopped(b: Bot): (r: Bot)
    ensures !r.controls.running && !r.controls.paused && !r.controls.waitingMode && !r.frame.keys.pressed
    ensures r.controls.hitObjects == b.controls.hitObjects && r.frame.clicked == b.frame.clicked
  {
    Bot(b.controls.(running := false, waitingMode := false, paused := false, hasMonitor := false),
        b.frame.(keys := ReleasedWithoutToggle(b.frame.keys)))
  }

  /** `toggle_pause`: only while running; pausing releases a held key without switching keys. */
  function PauseToggled(b: Bot): (r: Bot)
    ensures !b.controls.running ==> r == b
    ensures b.controls.running ==> r.controls.running && r.controls.paused == !b.controls.paused
    ensures r.controls.paused && !b.controls.paused ==> !r.frame.keys.pressed
  {
    if !b.controls.running then b
    else if !b.controls.paused then
      Bot(b.controls.(paused := true), b.frame.(keys := ReleasedWithoutToggle(b.frame.keys)))
    else Bot(b.controls.(paused := false), b.frame)
  }

  /**
   * `toggle_waiting`: stops when waiting; otherwise, with hit objects and
   * pywin32, creates the window monitor and waits, unless the monitor does
   * not start.
   */
  function WaitingToggled(b: Bot, hasPywin32: bool, monitorStarts: bool): (r: Bot)
    ensures b.controls.waitingMode ==> !r.controls.running && !r.controls.waitingMode
    ensures !b.controls.waitingMode ==> r.controls.running == b.controls.running && r.frame == b.frame
    ensures r.controls.waitingMode && !b.controls.waitingMode ==> monitorStarts && hasPywin32 && |b.controls.hitObjects| > 0
  {
    if b.controls.waitingMode then Stopped(b)
    else if |b.controls.hitObjects| == 0 || !hasPywin32 then b
    else Bot(b.controls.(waitingMode := monitorStarts, hasMonitor := true), b.frame)
  }

  /** `on_beatmap_detected`: a detected beatmap starts the bot only while waiting. */
  function BeatmapDetected(b: Bot, settings: Option<Settings>, clock: real, mouse: Point): (r: Bot)
    ensures !b.controls.waitingMode ==> r == b
    ensures b.controls.waitingMode ==> !r.controls.waitingMode
  {
    if !b.controls.waitingMode then b
    else Started(Bot(b.controls.(waitingMode := false), b.frame), settings, clock, mouse)
  }

  /** `on_key_press`: Insert arms the auto-start when idle, End stops, Home pauses or resumes. */
  function HotkeyHandled(b: Bot, key: Hotkey, hasPywin32: bool, monitorStarts: bool): (r: Bot)
    ensures key == OtherKey ==> r == b
    ensures key == End ==> !r.controls.running && !r.controls.waitingMode
    ensures key == Insert && b.controls.running ==> r == b
    ensures key == Home && b.controls.running ==> r == PauseToggled(b)
  {
    match key
    case Insert => if !b.controls.running && !b.controls.waitingMode then WaitingToggled(b, hasPywin32, monitorStarts) else b
    case End => if b.controls.running || b.controls.waitingMode then Stopped(b) else b
    case Home => if b.controls.running then PauseToggled(b) else b
    case OtherKey => b
  }

  /** A circle's release timer fires: `release_key`. */
  function TimerFired(b: Bot): (r: Bot)
    ensures r.controls == b.controls
    ensures b.frame.pendingReleases > 0 ==> r.frame.pendingReleases == b.frame.pendingReleases - 1 && !r.frame.keys.pressed
    ensures b.frame.pendingReleases == 0 ==> r == b
  {
    if b.frame.pendingReleases == 0 then b
    else Bot(b.controls, b.frame.(pendingReleases := b.frame.pendingReleases - 1, keys := ReleasedKey(b.frame.keys)))
  }

  /** One pass of `bot_loop`: only while running, alive, not paused and with osu! in the foreground. */
  function Ticked(b: Bot, clock: real, osuActive: bool,
                  dance: (real, HitObject, real) -> Point, spin: real -> Point): (r: Bot)
    ensures r.controls == b.controls
    ensures !b.controls.running || b.controls.paused || !osuActive ==> r == b
  {
    if b.controls.running && b.frame.alive && !b.controls.paused && osuActive then
      Bot(b.controls, TickStep(b.frame, b.controls.hitObjects, clock - b.controls.startTime, b.controls.accuracyMode, dance, spin))
    else b
  }

  /** Each operation keeps a stopped bot keyless and unpaused, and the key log paired. */
  lemma StartedValid(b: Bot, settings: Option<Settings>, clock: real, mouse: Point)
    requires BotValid(b)
    ensures BotValid(Started(b, settings, clock, mouse))
  {
  }

  lemma StoppedValid(b: Bot)
    requires BotValid(b)
    ensures BotValid(Stopped(b))
  {
    KeyOperationsKeepPairing(b.frame.keys);
  }

  lemma PauseToggledValid(b: Bot)
    requires BotValid(b)
    ensures BotValid(PauseToggled(b))
  {
    KeyOperationsKeepPairing(b.frame.keys);
  }

  lemma WaitingToggledValid(b: Bot, hasPywin32: bool, monitorStarts: bool)
    requires BotValid(b)
    ensures BotValid(WaitingToggled(b, hasPywin32, monitorStarts))
  {
    StoppedValid(b);
  }

  lemma BeatmapDetectedValid(b: Bot, settings: Option<Settings>, clock: real, mouse: Point)
    requires BotValid(b)
    ensures BotValid(BeatmapDetected(b, settings, clock, mouse))
  {
    StartedValid(Bot(b.controls.(waitingMode := false), b.frame), settings, clock, mouse);
  }

  lemma HotkeyHandledValid(b: Bot, key: Hotkey, hasPywin32: bool, monitorStarts: bool)
    requires BotValid(b)
    ensures BotValid(HotkeyHandled(b, key, hasPywin32, monitorStarts))
  {
    WaitingToggledValid(b, hasPywin32, monitorStarts);
    StoppedValid(b);
    PauseToggledValid(b);
  }

  lemma TimerFiredValid(b: Bot)
    requires BotValid(b)
    ensures BotValid(TimerFired(b))
  {
    KeyOperationsKeepPairing(b.frame.keys);
  }

  lemma TickedValid(b: Bot, clock: real, osuActive: bool,
                    dance: (real, HitObject, real) -> Point, spin: real -> Point)
    requires BotValid(b)
    ensures BotValid(Ticked(b, clock, osuActive, dance, spin))
  {
    if b.controls.running && b.frame.alive && !b.controls.paused && osuActive {
      TickStepKeeps(b.frame, b.controls.hitObjects, clock - b.controls.startTime, b.controls.accuracyMode, dance, spin);
    }
  }

  /** After End the bot is neither running nor waiting, holds no key, and sent at most one release. */
  lemma EndAlwaysStops(b: Bot, hasPywin32: bool, monitorStarts: bool)
    requires BotValid(b)
    ensures var b' := HotkeyHandled(b, End, hasPywin32, monitorStarts);
      && !b'.controls.running && !b'.controls.waitingMode && !b'.frame.keys.pressed
      && (b'.frame.keys.sent == b.frame.keys.sent || b'.frame.keys.sent == b.frame.keys.sent + [Release(b.frame.keys.currentVk)])
  {
  }

  /** Pausing and resuming gives back the flags, with any held key released. */
  lemma PauseResume(b: Bot)
    requires b.controls.running && !b.controls.paused
    ensures PauseToggled(PauseToggled(b)).controls == b.controls
    ensures PauseToggled(PauseToggled(b)).frame.keys == ReleasedWithoutToggle(b.frame.keys)
    ensures PauseToggled(PauseToggled(b)).frame == b.frame.(keys := ReleasedWithoutToggle(b.frame.keys))
  {
  }

  /** Pausing or resuming touches only the keyboard: the consumed times, the active slider and the target stay. */
  lemma PauseKeepsProgress(b: Bot)
    ensures PauseToggled(b).frame.clicked == b.frame.clicked
    ensures PauseToggled(b).frame.activeSlider == b.frame.activeSlider
    ensures PauseToggled(b).frame == b.frame.(keys := PauseToggled(b).frame.keys)
  {
  }

  /** A started bot begins with no clicked objects, the Z key, no active slider and a live loop. */
  lemma StartResets(b: Bot, settings: Option<Settings>, clock: real, mouse: Point)
    requires !b.controls.running && |b.controls.hitObjects| > 0 && settings.Some?
    ensures var b' := Started(b, settings, clock, mouse);
      && b'.controls.running && !b'.controls.paused && !b'.controls.waitingMode
      && b'.frame.clicked == {} && b'.frame.activeSlider.None? && b'.frame.alive
      && b'.frame.keys.currentVk == VkZ && !b'.frame.keys.pressed
      && b'.controls.startTime + settings.value.offsetMs == clock
  {
  }

  // ------------------------------------------------------------ the bot

  /** `RelaxBot`: the playback fields `bot_loop` and the controls update. */
  class RelaxBot {
    var running: bool
    var paused: bool
    var waitingMode: bool
    var hasMonitor: bool
    var hitObjects: seq<HitObject>
    var accuracyMode: string
    var offsetMs: real
    var startTime: real
    var clickedObjects: set<real>
    var keyPressed: bool
    var currentKey: char
    var currentVk: int
    var activeSlider: Option<HitObject>
    var targetPosition: Point
    /** Circle releases scheduled on a timer and not yet fired. */
    var pendingReleases: nat
    /** Whether the thread running `bot_loop` is still alive. */
    var loopAlive: bool
    /** The key events sent so far. */
    var sent: seq<KeyEvent>
    const hasPywin32: bool

    function Keys(): Keyboard
      reads this
    {
      Keyboard(keyPressed, currentKey, currentVk, sent)
    }

    function State(): Bot
      reads this
    {
      Bot(Controls(running, paused, waitingMode, hasMonitor, hitObjects, accuracyMode, offsetMs, startTime),
          Frame(Keys(), clickedObjects, activeSlider, targetPosition, pendingReleases, loopAlive))
    }

    predicate Valid()
      reads this
    {
      BotValid(State())
    }

    constructor (hasPywin32: bool)
      ensures State() == InitialBot() && this.hasPywin32 == hasPywin32
      ensures Valid()
    {
      running := false;
      paused := false;
      waitingMode := false;
      hasMonitor := false;
      hitObjects := [];
      accuracyMode := "perfect";
      offsetMs := 0.0;
      startTime := 0.0;
      clickedObjects := {};
      keyPressed := false;
      currentKey := 'z';
      currentVk := VkZ;
      activeSlider := None;
      targetPosition := (1920 / 2, 1080 / 2);
      pendingReleases := 0;
      loopAlive := false;
      sent := [];
      this.hasPywin32 := hasPywin32;
    }

    /** Loading a beatmap stores the parser's hit objects. */
    method LoadHitObjects(objects: seq<HitObject>)
      modifies this
      ensures State().controls == old(State()).controls.(hitObjects := objects)
      ensures State().frame == old(State()).frame
    {
      hitObjects := objects;
    }

    method PressKey()
      modifies this
      ensures State().controls == old(State()).controls
      ensures State().frame == old(State()).frame.(keys := PressedKey(old(Keys())))
    {
      if !keyPressed {
        sent := sent + [Press(currentVk)];
        keyPressed := true;
      }
    }

    method ToggleKey()
      modifies this
      ensures State().controls == old(State()).controls
      ensures State().frame == old(State()).frame.(keys := ToggledKey(old(Keys())))
    {
      if currentKey == 'z' {
        currentKey := 'x';
        currentVk := VkX;
      } else {
        currentKey := 'z';
        currentVk := VkZ;
      }
    }

    method ReleaseKey()
      modifies this
      ensures State().controls == old(State()).controls
      ensures State().frame == old(State()).frame.(keys := ReleasedKey(old(Keys())))
    {
      if keyPressed {
        sent := sent + [Release(currentVk)];
        keyPressed := false;
        ToggleKey();
      }
    }

    /** The release `stop` and `toggle_pause` write out themselves. */
    method ReleaseHeldKey()
      modifies this
      ensures State().controls == old(State()).controls
      ensures State().frame == old(State()).frame.(keys := ReleasedWithoutToggle(old(Keys())))
    {
      if keyPressed {
        sent := sent + [Release(currentVk)];
        keyPressed := false;
      }
    }

    /** A circle in the click loop: `click_circle` and its time consumed. */
    method HandleCircle(o: HitObject, t: real)
      modifies this
      ensures State().controls == old(State()).controls
      ensures State().frame == CircleStep(old(State()).frame, o, t, accuracyMode)
    {
      if ShouldClick(accuracyMode, o, t) {
        PressKey();
        pendingReleases := pendingReleases + 1;
        clickedObjects := clickedObjects + {o.time};
      }
    }

    /** `start_slider` when the slider is due and none is active. */
    method StartSlider(o: HitObject)
      modifies this
      ensures State().controls == old(State()).controls
      ensures State().frame == old(State()).frame.(activeSlider := Some(o), keys := PressedKey(old(Keys())))
    {
      activeSlider := Some(o);
      PressKey();
    }

    /** `end_slider`. */
    method EndSlider()
      modifies this
      ensures State().controls == old(State()).controls
      ensures State().frame == old(State()).frame.(activeSlider := None, keys := ReleasedKey(old(Keys())))
    {
      ReleaseKey();
      activeSlider := None;
    }

    /** A slider in the click loop. */
    method HandleSlider(o: HitObject, t: real)
      modifies this
      ensures State().controls == old(State()).controls
      ensures State().frame == SliderStep(old(State()).frame, o, t, accuracyMode)
    {
      if ShouldClick(accuracyMode, o, t) {
        if activeSlider.None? {
          StartSlider(o);
          clickedObjects := clickedObjects + {o.time};
        }
      }
      if activeSlider.Some? && activeSlider.value.time == o.time {
        if o.endTime.None? {
          loopAlive := false;
        } else if t >= o.endTime.value {
          EndSlider();
        } else {
          var position := SliderPosition(o, t);
          match position {
            case ZeroDivision => loopAlive := false;
            case NoPosition =>
            case At(x, y) => targetPosition := (x, y);
          }
        }
      }
    }

    /** A spinner in the click loop. */
    method HandleSpinner(o: HitObject, t: real, spin: real -> Point)
      modifies this
      ensures State().controls == old(State()).controls
      ensures State().frame == SpinnerStep(old(State()).frame, o, t, spin)
    {
      if o.endTime.None? {
        loopAlive := false;
      } else if o.time - t <= 0.0 && t < o.endTime.value {
        if !keyPressed {
          PressKey();
        }
        targetPosition := spin(t);
      } else if t >= o.endTime.value && o.time !in clickedObjects {
        if keyPressed {
          ReleaseKey();
        }
        clickedObjects := clickedObjects + {o.time};
      }
    }

    /** One object of the click loop of `bot_loop`; a raised exception has ended the loop. */
    method HandleObject(o: HitObject, t: real, spin: real -> Point)
      modifies this
      ensures State().controls == old(State()).controls
      ensures State().frame == ObjectStep(old(State()).frame, o, t, accuracyMode, spin)
    {
      if !loopAlive {
        return;
      }
      match o.kind {
        case Circle => HandleCircle(o, t);
        case Slider => HandleSlider(o, t);
        case Spinner => HandleSpinner(o, t, spin);
      }
    }

    /** The objects in reach, in list order: the collecting loop of `bot_loop`. */
    method CollectActive(t: real) returns (active: seq<HitObject>)
      ensures active == ActiveObjects(hitObjects, clickedObjects, t)
    {
      active := CollectAll(hitObjects, ActiveReader(clickedObjects, t));
    }

    /** One pass of `bot_loop` at wall-clock time `clock` (ms). */
    method Tick(clock: real, osuActive: bool, dance: (real, HitObject, real) -> Point, spin: real -> Point)
      requires Valid()
      modifies this
      ensures State().controls == Ticked(old(State()), clock, osuActive, dance, spin).controls
      ensures State().frame == Ticked(old(State()), clock, osuActive, dance, spin).frame
      ensures Valid()
    {
      TickedValid(State(), clock, osuActive, dance, spin);
      if !running || !loopAlive || paused || !osuActive {
        return;
      }
      Play(clock - startTime, dance, spin);
    }

    /** The body of `bot_loop` at song time `t`: aim at the nearest active object, then click in order. */
    method Play(t: real, dance: (real, HitObject, real) -> Point, spin: real -> Point)
      modifies this
      ensures State().controls == old(State()).controls
      ensures State().frame == TickStep(old(State()).frame, hitObjects, t, accuracyMode, dance, spin)
    {
      var active := CollectActive(t);
      var order := ByUrgency(active, t);
      if |order| > 0 {
        targetPosition := TargetPosition(order[0], t, dance);
        HandleAll(order, t, spin);
      }
    }

    /** The click loop of `bot_loop`, over the objects in the given order. */
    method HandleAll(order: seq<HitObject>, t: real, spin: real -> Point)
      modifies this
      ensures State().controls == old(State()).controls
      ensures State().frame == ObjectsStep(old(State()).frame, order, t, accuracyMode, spin)
    {
      for n := 0 to |order|
        invariant State().controls == old(State()).controls
        invariant State().frame == ObjectsStep(old(State()).frame, order[..n], t, accuracyMode, spin)
      {
        assert order[..n + 1][..n] == order[..n];
        HandleObject(order[n], t, spin);
      }
      assert order[..|order|] == order;
    }

    /** A circle's release timer fires. */
    method TimerFires()
      requires Valid()
      modifies this
      ensures State().controls == TimerFired(old(State())).controls
      ensures State().frame == TimerFired(old(State())).frame
      ensures Valid()
    {
      TimerFiredValid(State());
      if pendingReleases > 0 {
        pendingReleases := pendingReleases - 1;
        ReleaseKey();
      }
    }

    method Start(settings: Option<Settings>, clock: real, mouse: Point)
      requires Valid()
      modifies this
      ensures State().controls == Started(old(State()), settings, clock, mouse).controls
      ensures State().frame == Started(old(State()), settings, clock, mouse).frame
      ensures Valid()
    {
      StartedValid(State(), settings, clock, mouse);
      if running {
        return;
      }
      if |hitObjects| == 0 {
        return;
      }
      if settings.None? {
        return;
      }
      Configure(settings.value);
      MarkRunning();
      ResetKeys();
      ResetObjects(mouse);
      startTime := clock - offsetMs;
    }

    /** The settings `start` reads from the GUI. */
    method Configure(settings: Settings)
      modifies this
      ensures State().controls == old(State()).controls.(accuracyMode := settings.accuracyMode, offsetMs := settings.offsetMs)
      ensures State().frame == old(State()).frame
    {
      offsetMs := settings.offsetMs;
      accuracyMode := settings.accuracyMode;
    }

    /** The flags `start` sets: running, not paused, not waiting. */
    method MarkRunning()
      modifies this
      ensures State().controls == old(State()).controls.(running := true, paused := false, waitingMode := false)
      ensures State().frame == old(State()).frame
    {
      running := true;
      paused := false;
      waitingMode := false;
    }

    /** `start` goes back to the Z key, released. */
    method ResetKeys()
      modifies this
      ensures State().controls == old(State()).controls
      ensures State().frame == old(State()).frame.(keys := Keyboard(false, 'z', VkZ, old(sent)))
    {
      currentKey := 'z';
      currentVk := VkZ;
      keyPressed := false;
    }

    /** `start` forgets the clicked objects and the active slider and starts a new loop from the mouse position. */
    method ResetObjects(mouse: Point)
      modifies this
      ensures State().controls == old(State()).controls
      ensures State().frame == old(State()).frame.(clicked := {}, activeSlider := None, target := mouse, alive := true)
    {
      clickedObjects := {};
      activeSlider := None;
      targetPosition := mouse;
      loopAlive := true;
    }

    method Stop()
      requires Valid()
      modifies this
      ensures State().controls == Stopped(old(State())).controls
      ensures State().frame == Stopped(old(State())).frame
      ensures Valid()
    {
      StoppedValid(State());
      running := false;
      waitingMode := false;
      paused := false;
      if keyPressed {
        ReleaseHeldKey();
      }
      hasMonitor := false;
    }

    method TogglePause()
      requires Valid()
      modifies this
      ensures State().controls == PauseToggled(old(State())).controls
      ensures State().frame == PauseToggled(old(State())).frame
      ensures Valid()
    {
      PauseToggledValid(State());
      if !running {
        return;
      }
      paused := !paused;
      if paused {
        if keyPressed {
          ReleaseHeldKey();
        }
      }
    }

    /** `toggle_waiting`; `monitorStarts` is what `OsuWindowMonitor.start` returns. */
    method ToggleWaiting(monitorStarts: bool)
      requires Valid()
      modifies this
      ensures State().controls == WaitingToggled(old(State()), hasPywin32, monitorStarts).controls
      ensures State().frame == WaitingToggled(old(State()), hasPywin32, monitorStarts).frame
      ensures Valid()
    {
      WaitingToggledValid(State(), hasPywin32, monitorStarts);
      if waitingMode {
        Stop();
      } else {
        if |hitObjects| == 0 {
          return;
        }
        if !hasPywin32 {
          return;
        }
        waitingMode := true;
        hasMonitor := true;
        if !monitorStarts {
          waitingMode := false;
        }
      }
    }

    method OnBeatmapDetected(settings: Option<Settings>, clock: real, mouse: Point)
      requires Valid()
      modifies this
      ensures State().controls == BeatmapDetected(old(State()), settings, clock, mouse).controls
      ensures State().frame == BeatmapDetected(old(State()), settings, clock, mouse).frame
      ensures Valid()
    {
      if !waitingMode {
        return;
      }
      waitingMode := false;
      Start(settings, clock, mouse);
    }

    method OnKeyPress(key: Hotkey, monitorStarts: bool)
      requires Valid()
      modifies this
      ensures State().controls == HotkeyHandled(old(State()), key, hasPywin32, monitorStarts).controls
      ensures State().frame == HotkeyHandled(old(State()), key, hasPywin32, monitorStarts).frame
      ensures Valid()
    {
      match key {
        case Insert =>
          if !running && !waitingMode {
            ToggleWaiting(monitorStarts);
          }
        case End =>
          if running || waitingMode {
            Stop();
          }
        case Home =>
          if running {
            TogglePause();
          }
        case OtherKey =>
      }
    }
  }
}
