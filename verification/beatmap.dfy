/**
 * The osu! beatmap parser (class `OsuBeatmapParser` of cursor.py): it reads
 * the decoded text of a `.osu` file into the General, Metadata and
 * Difficulty key/value sections, the list of timing points and the list of
 * hit objects sorted by time. Every line is parsed on its own: a malformed
 * line is dropped and the rest of the section is still read.
 */
module Beatmap {
  import opened Wrappers
  import opened Strings
  import opened Numbers
  import opened Sorting
  import opened Folds

  /** One `[TimingPoints]` line (dataclass `TimingPoint`). */
  datatype TimingPoint = TimingPoint(
    time: real,
    beatLength: real,
    meter: int,
    sampleSet: int,
    sampleIndex: int,
    volume: int,
    uninherited: bool,
    effects: int)

  /** The object kinds the parser creates; `cursor.py` stores them as type codes 1, 2 and 8. */
  datatype Kind = Circle | Slider | Spinner

  type Point = (int, int)

  /**
   * One `[HitObjects]` line (dataclass `HitObject`). `cursor.py` keeps
   * `slider_points` as `None` for circles and spinners; every reader treats
   * `None` like an empty list, so the empty sequence stands for it here.
   */
  datatype HitObject = HitObject(
    x: int,
    y: int,
    time: real,
    kind: Kind,
    hitSound: int,
    sliderType: Option<string>,
    sliderPoints: seq<Point>,
    repeat: int,
    pixelLength: real,
    endTime: Option<real>)

  /** Circles carry no end time; sliders and spinners always carry one. */
  predicate WellFormed(o: HitObject)
  {
    o.kind.Circle? <==> o.endTime.None?
  }

  /** The sort key of `parse`: `lambda obj: obj.time`. */
  function TimeOf(o: HitObject): real
  {
    o.time
  }

  // ---------------------------------------------------------------- sections

  function Header(name: string): string
  {
    "[" + name + "]"
  }

  /** The text up to the next `[` or the end: the lazy `(.*?)(?=\[|\Z)` of the section pattern. */
  function UpToBracket(rest: string): (r: string)
    ensures |r| <= |rest|
    ensures '[' !in r
    ensures |r| == |rest| || rest[|r|] == '['
  {
    if |rest| == 0 || rest[0] == '[' then [] else [rest[0]] + UpToBracket(rest[1..])
  }

  /**
   * `_get_section`: the stripped text after the first `[name]` up to the
   * next `[` or the end of the text, or `None` when the header is absent.
   */
  function GetSection(content: string, name: string): (r: Option<string>)
    ensures r.None? <==> !Contains(content, Header(name))
  {
    match Find(content, Header(name))
    case None => None
    case Some(i) => Some(Strip(UpToBracket(content[i + |Header(name)|..])))
  }

  /** The section text is the start of what follows the header. */
  lemma {:induction false} UpToBracketIsPrefix(rest: string)
    ensures UpToBracket(rest) == rest[..|UpToBracket(rest)|]
  {
    if |rest| > 0 && rest[0] != '[' {
      UpToBracketIsPrefix(rest[1..]);
      assert [rest[0]] + rest[1..][..|UpToBracket(rest[1..])|] == rest[..|UpToBracket(rest)|];
    }
  }

  lemma {:induction false} UpToBracketOfConcat(body: string, after: string)
    requires '[' !in body
    requires after == [] || after[0] == '['
    ensures UpToBracket(body + after) == body
  {
    if |body| > 0 {
      UpToBracketOfConcat(body[1..], after);
      assert (body + after)[1..] == body[1..] + after;
      assert [body[0]] + body[1..] == body;
    } else {
      assert body + after == after;
    }
  }

  /**
   * A file laid out as `before`, the header, a body without `[`, then the
   * next section or the end: the section read back is the stripped body.
   */
  lemma GetSectionOfLayout(before: string, name: string, body: string, after: string)
    requires forall k :: 0 <= k < |before| ==> !MatchAt(before + Header(name) + body + after, Header(name), k)
    requires '[' !in body
    requires after == [] || after[0] == '['
    ensures GetSection(before + Header(name) + body + after, name) == Some(Strip(body))
  {
    var h := Header(name);
    var content := before + h + body + after;
    assert Find(content, h) == Some(|before|) by {
      assert content[|before|..|before| + |h|] == h;
      FindAt(content, h, |before|);
    }
    assert content[|before| + |h|..] == body + after;
    UpToBracketOfConcat(body, after);
    GetSectionAt(content, name, |before|);
  }

  /** The section is read from just after the first occurrence of its header. */
  lemma GetSectionAt(content: string, name: string, i: nat)
    requires Find(content, Header(name)) == Some(i)
    ensures i + |Header(name)| <= |content|
    ensures GetSection(content, name) == Some(Strip(UpToBracket(content[i + |Header(name)|..])))
  {
  }

  /**
   * The lines the list sections are read from: `section.strip().split('\n')`
   * when the section is present and non-empty, and none otherwise.
   */
  function SectionLines(content: string, name: string): seq<string>
  {
    match GetSection(content, name)
    case Some(section) => if section != "" then Split(Strip(section), '\n') else []
    case None => []
  }

  // -------------------------------------------------------- key/value lines

  /**
   * One line of a key/value section: a stripped line that holds `:` and
   * does not start with `//` splits at its first `:` into a stripped key
   * and a stripped value.
   */
  function KeyValueOf(line: string): Option<(string, string)>
  {
    var l := Strip(line);
    if Contains(l, ":") && !StartsWith(l, "//") then
      var i := Find(l, ":").value;
      Some((Strip(l[..i]), Strip(l[i + 1..])))
    else None
  }

  /** The pair reader the key/value loop applies to each line. */
  function KeyValueReader(): string -> Option<(string, string)>
  {
    line => KeyValueOf(line)
  }

  /** `_parse_key_value` over a list of lines: later keys overwrite earlier ones. */
  function KeyValues(lines: seq<string>): map<string, string>
  {
    Assign(lines, KeyValueReader())
  }

  /** `_parse_key_value(content)`: fills the dictionary line by line. */
  method ParseKeyValue(content: string) returns (result: map<string, string>)
    ensures result == KeyValues(Split(content, '\n'))
  {
    result := AssignAll(Split(content, '\n'), KeyValueReader());
  }

  /** In `key:value` with no `:` in the key, the first `:` is the one after the key. */
  lemma FindColonAfterKey(key: string, value: string)
    requires ':' !in key
    ensures Find(key + ":" + value, ":") == Some(|key|)
  {
    var line := key + ":" + value;
    assert line[|key|..|key| + 1] == ":";
    assert MatchAt(line, ":", |key|);
    forall k | 0 <= k < |key| ensures !MatchAt(line, ":", k) {
      MatchAtSingle(line, ':', k);
      assert line[k] == key[k];
    }
    FindAt(line, ":", |key|);
  }

  /** A stripped line that is no comment splits at its first colon. */
  lemma KeyValueOfAt(line: string, i: nat, key: string, value: string)
    requires Strip(line) == line && !StartsWith(line, "//") && Find(line, ":") == Some(i)
    requires Strip(line[..i]) == key && Strip(line[i + 1..]) == value
    ensures KeyValueOf(line) == Some((key, value))
  {
  }

  /** The line `key:value` is stripped, is no comment, and has its first colon right after the key. */
  lemma KeyValueLine(key: string, value: string)
    requires |key| > 0 && !IsSpace(key[0]) && !IsSpace(key[|key| - 1]) && key[0] != '/'
    requires ':' !in key
    requires value == [] || (!IsSpace(value[0]) && !IsSpace(value[|value| - 1]))
    ensures var line := key + ":" + value;
      && Strip(line) == line && !StartsWith(line, "//") && Find(line, ":") == Some(|key|)
      && line[..|key|] == key && line[|key| + 1..] == value
  {
    var line := key + ":" + value;
    assert line[0] == key[0];
    assert line[|line| - 1] == if value == [] then ':' else value[|value| - 1];
    StripStripped(line);
    FindColonAfterKey(key, value);
    assert line[..|key|] == key;
    assert line[|key| + 1..] == value;
  }

  /** A line `key:value` reads back as that key and value. */
  lemma KeyValueOfRoundTrip(key: string, value: string)
    requires |key| > 0 && !IsSpace(key[0]) && !IsSpace(key[|key| - 1]) && key[0] != '/'
    requires ':' !in key
    requires value == [] || (!IsSpace(value[0]) && !IsSpace(value[|value| - 1]))
    ensures KeyValueOf(key + ":" + value) == Some((key, value))
  {
    KeyValueLine(key, value);
    StripStripped(key);
    StripStripped(value);
    KeyValueOfAt(key + ":" + value, |key|, key, value);
  }

  /** The last line that defines a key decides its value. */
  lemma KeyValuesLastWins(lines: seq<string>, i: nat, k: string, v: string)
    requires i < |lines| && KeyValueOf(lines[i]) == Some((k, v))
    requires forall j :: i < j < |lines| ==> KeyValueOf(lines[j]).None? || KeyValueOf(lines[j]).value.0 != k
    ensures k in KeyValues(lines) && KeyValues(lines)[k] == v
  {
    AssignLastWins(lines, KeyValueReader(), i, k, v);
  }

  /** Every key of the dictionary comes from some line that defines it with that value. */
  lemma KeyValuesFromLines(lines: seq<string>, k: string)
    requires k in KeyValues(lines)
    ensures exists i :: 0 <= i < |lines| && KeyValueOf(lines[i]) == Some((k, KeyValues(lines)[k]))
  {
    AssignFrom(lines, KeyValueReader(), k);
  }

  /**
   * The dictionary a key/value section leaves behind: the section's
   * pairs when it is present and non-empty, otherwise the previous value.
   */
  function KeyValueSection(content: string, name: string, previous: map<string, string>): map<string, string>
  {
    match GetSection(content, name)
    case Some(section) => if section != "" then KeyValues(Split(section, '\n')) else previous
    case None => previous
  }

  // ---------------------------------------------------------- timing points

  /** The comma-separated fields of a stripped line. */
  function Fields(line: string): seq<string>
  {
    Split(Strip(line), ',')
  }

  /** A blank line or a `//` comment. */
  predicate Ignored(line: string)
  {
    var l := Strip(line);
    l == [] || StartsWith(l, "//")
  }

  /** `int(parts[i]) if len(parts) > i else default`. */
  function IntField(parts: seq<string>, i: nat, default: int): Option<int>
  {
    if |parts| > i then ParseInt(parts[i]) else Some(default)
  }

  /** `float(parts[i]) if len(parts) > i else default`. */
  function FloatField(parts: seq<string>, i: nat, default: real): Option<real>
  {
    if |parts| > i then ParseFloat(parts[i]) else Some(default)
  }

  /**
   * One `[TimingPoints]` line. The 7th field is read as an int and the
   * point is uninherited exactly when it equals 1; without a 7th field the
   * default 1 makes it uninherited, as the parser's default `True` does.
   */
  function TimingPointOf(line: string): Option<TimingPoint>
  {
    if Ignored(line) then None else TimingPointOfFields(Fields(line))
  }

  function TimingPointOfFields(parts: seq<string>): Option<TimingPoint>
  {
    if |parts| < 2 then None
    else
      var time := ParseFloat(parts[0]);
      var beatLength := ParseFloat(parts[1]);
      var meter := IntField(parts, 2, 4);
      var sampleSet := IntField(parts, 3, 0);
      var sampleIndex := IntField(parts, 4, 0);
      var volume := IntField(parts, 5, 50);
      var uninherited := IntField(parts, 6, 1);
      var effects := IntField(parts, 7, 0);
      if time.Some? && beatLength.Some? && meter.Some? && sampleSet.Some? && sampleIndex.Some?
         && volume.Some? && uninherited.Some? && effects.Some?
      then Some(TimingPoint(time.value, beatLength.value, meter.value, sampleSet.value, sampleIndex.value,
                            volume.value, uninherited.value == 1, effects.value))
      else None
  }

  /** The point reader the timing point loop applies to each line. */
  function TimingPointReader(): string -> Option<TimingPoint>
  {
    line => TimingPointOf(line)
  }

  /** The timing points of a list of lines, in line order. */
  function TimingPointsOf(lines: seq<string>): seq<TimingPoint>
  {
    Collect(lines, TimingPointReader())
  }

  /** The timing points a file contributes. */
  function TimingPointsIn(content: string): seq<TimingPoint>
  {
    TimingPointsOf(SectionLines(content, "TimingPoints"))
  }

  /** Lines are read independently: the points of `a + b` are those of `a` then those of `b`. */
  lemma TimingPointsOfConcat(a: seq<string>, b: seq<string>)
    ensures TimingPointsOf(a + b) == TimingPointsOf(a) + TimingPointsOf(b)
  {
    CollectConcat(a, b, TimingPointReader());
  }

  /** Every timing point comes from a line, and every line that parses gives one. */
  lemma TimingPointsFromLines(lines: seq<string>)
    ensures forall k :: 0 <= k < |TimingPointsOf(lines)| ==>
      exists i :: 0 <= i < |lines| && TimingPointOf(lines[i]) == Some(TimingPointsOf(lines)[k])
    ensures forall i :: 0 <= i < |lines| && TimingPointOf(lines[i]).Some? ==> TimingPointOf(lines[i]).value in TimingPointsOf(lines)
  {
    var points := TimingPointsOf(lines);
    forall k | 0 <= k < |points|
      ensures exists i :: 0 <= i < |lines| && TimingPointOf(lines[i]) == Some(points[k])
    {
      CollectFrom(lines, TimingPointReader(), k);
      var i :| 0 <= i < |lines| && TimingPointReader()(lines[i]) == Some(points[k]);
      assert TimingPointOf(lines[i]) == Some(points[k]);
    }
    forall i | 0 <= i < |lines| && TimingPointOf(lines[i]).Some?
      ensures TimingPointOf(lines[i]).value in points
    {
      assert TimingPointReader()(lines[i]) == TimingPointOf(lines[i]);
      CollectKeeps(lines, TimingPointReader(), i);
    }
  }

  /**
   * When a timing point line is kept: it is not blank or a comment, it has
   * at least two fields, the first two are numbers and each of the fields
   * 3 to 8 that is present is an integer.
   */
  lemma TimingPointKept(line: string)
    ensures TimingPointOf(line).Some? <==>
      && !Ignored(line)
      && |Fields(line)| >= 2
      && ParseFloat(Fields(line)[0]).Some?
      && ParseFloat(Fields(line)[1]).Some?
      && forall i :: 2 <= i < |Fields(line)| && i < 8 ==> ParseInt(Fields(line)[i]).Some?
  {
    var parts := Fields(line);
    if TimingPointOf(line).Some? {
      forall i | 2 <= i < |parts| && i < 8 ensures ParseInt(parts[i]).Some? {
        assert i == 2 || i == 3 || i == 4 || i == 5 || i == 6 || i == 7;
      }
    }
  }

  /**
   * The fields of a kept line: the time and beat length as floats, and each
   * of fields 3 to 8 read as an integer when present, or else the parser's
   * default (meter 4, sample set 0, sample index 0, volume 50, uninherited,
   * effects 0).
   */
  lemma TimingPointFields(line: string)
    requires TimingPointOf(line).Some?
    ensures var tp, p := TimingPointOf(line).value, Fields(line);
      && |p| >= 2
      && tp.time == ParseFloat(p[0]).value && tp.beatLength == ParseFloat(p[1]).value
      && (if |p| > 2 then tp.meter == ParseInt(p[2]).value else tp.meter == 4)
      && (if |p| > 3 then tp.sampleSet == ParseInt(p[3]).value else tp.sampleSet == 0)
      && (if |p| > 4 then tp.sampleIndex == ParseInt(p[4]).value else tp.sampleIndex == 0)
      && (if |p| > 5 then tp.volume == ParseInt(p[5]).value else tp.volume == 50)
      && (if |p| > 6 then tp.uninherited == (ParseInt(p[6]).value == 1) else tp.uninherited)
      && (if |p| > 7 then tp.effects == ParseInt(p[7]).value else tp.effects == 0)
  {
  }

  /** A present 7th field makes the point uninherited exactly when it is the integer 1. */
  lemma TimingPointUninherited(line: string)
    requires TimingPointOf(line).Some? && |Fields(line)| > 6
    ensures TimingPointOf(line).value.uninherited <==> ParseInt(Fields(line)[6]) == Some(1)
  {
  }

  // ------------------------------------------------------------ hit objects

  /** The tempo in force at `time`: an uninherited point at or before it. */
  predicate Governs(tp: TimingPoint, time: real)
  {
    tp.time <= time && tp.uninherited
  }

  /**
   * The timing point the slider formula uses: the LAST point in list order
   * that governs `time` (not the latest by time).
   */
  function ActiveTiming(tps: seq<TimingPoint>, time: real): (r: Option<TimingPoint>)
    ensures r.Some? ==> r.value in tps && Governs(r.value, time)
  {
    if |tps| == 0 then None
    else if Governs(tps[|tps| - 1], time) then Some(tps[|tps| - 1])
    else ActiveTiming(tps[..|tps| - 1], time)
  }

  /**
   * The chosen point governs `time` and no later point in the list does;
   * there is none exactly when no point governs `time`.
   */
  lemma {:induction false} ActiveTimingIsLastGoverning(tps: seq<TimingPoint>, time: real)
    ensures ActiveTiming(tps, time).None? <==> forall i :: 0 <= i < |tps| ==> !Governs(tps[i], time)
    ensures ActiveTiming(tps, time).Some? ==>
      exists i :: 0 <= i < |tps| && tps[i] == ActiveTiming(tps, time).value && Governs(tps[i], time)
                  && forall j :: i < j < |tps| ==> !Governs(tps[j], time)
  {
    if |tps| > 0 && !Governs(tps[|tps| - 1], time) {
      var prefix := tps[..|tps| - 1];
      ActiveTimingIsLastGoverning(prefix, time);
      assert forall i :: 0 <= i < |prefix| ==> prefix[i] == tps[i];
    }
  }

  /** The parser's loop over `self.timing_points` that remembers the last match. */
  method FindActiveTiming(tps: seq<TimingPoint>, time: real) returns (active: Option<TimingPoint>)
    ensures active == ActiveTiming(tps, time)
  {
    active := None;
    for i := 0 to |tps|
      invariant active == ActiveTiming(tps[..i], time)
    {
      assert tps[..i + 1][..i] == tps[..i];
      if Governs(tps[i], time) {
        active := Some(tps[i]);
      }
    }
    assert tps[..|tps|] == tps;
  }

  /**
   * One `|`-separated slider piece after the first: skipped (`Some(None)`)
   * when it has no `:`, an anchor when it is two integers around one `:`,
   * and an error (`None`) otherwise, which drops the whole line.
   */
  function AnchorOf(piece: string): Option<Option<Point>>
  {
    if ':' !in piece then Some(None)
    else
      var xy := Split(piece, ':');
      if |xy| != 2 then None
      else
        var px := ParseInt(xy[0]);
        var py := ParseInt(xy[1]);
        if px.None? || py.None? then None else Some(Some((px.value, py.value)))
  }

  /** The anchors of a list of pieces, in order, or `None` when one piece is malformed. */
  function Anchors(pieces: seq<string>): Option<seq<Point>>
  {
    if |pieces| == 0 then Some([])
    else
      var prefix := Anchors(pieces[..|pieces| - 1]);
      var last := AnchorOf(pieces[|pieces| - 1]);
      if prefix.None? || last.None? then None
      else if last.value.None? then prefix
      else Some(prefix.value + [last.value.value])
  }

  /** The pieces that hold a `:`, in order. */
  function WithColon(pieces: seq<string>): seq<string>
  {
    if |pieces| == 0 then []
    else WithColon(pieces[..|pieces| - 1]) + if ':' in pieces[|pieces| - 1] then [pieces[|pieces| - 1]] else []
  }

  /**
   * The anchors are exactly the pieces that hold a `:`, kept in order,
   * each read as two integers.
   */
  lemma {:induction false} AnchorsAreColonPieces(pieces: seq<string>)
    requires Anchors(pieces).Some?
    ensures |Anchors(pieces).value| == |WithColon(pieces)|
    ensures forall k :: 0 <= k < |WithColon(pieces)| ==>
      AnchorOf(WithColon(pieces)[k]) == Some(Some(Anchors(pieces).value[k]))
  {
    if |pieces| > 0 {
      AnchorsAreColonPieces(pieces[..|pieces| - 1]);
    }
  }

  /** The loop `for i in range(1, len(slider_parts))` that collects the anchors. */
  method ParseAnchors(sliderParts: seq<string>) returns (points: Option<seq<Point>>)
    requires |sliderParts| >= 1
    ensures points == Anchors(sliderParts[1..])
  {
    var acc: seq<Point> := [];
    for i := 1 to |sliderParts|
      invariant Anchors(sliderParts[1..i]) == Some(acc)
    {
      AnchorsStep(sliderParts, i);
      var anchor := AnchorOf(sliderParts[i]);
      if anchor.None? {
        return None;
      }
      if anchor.value.Some? {
        acc := acc + [anchor.value.value];
      }
    }
    assert sliderParts[1..|sliderParts|] == sliderParts[1..];
    points := Some(acc);
  }

  /** One more piece for the anchor loop; a malformed one spoils the whole list. */
  lemma AnchorsStep(parts: seq<string>, i: nat)
    requires 1 <= i < |parts|
    ensures var prefix := Anchors(parts[1..i]);
      var last := AnchorOf(parts[i]);
      Anchors(parts[1..i + 1])
      == if prefix.None? || last.None? then None
         else if last.value.None? then prefix
         else Some(prefix.value + [last.value.value])
    ensures Anchors(parts[1..i + 1]).None? ==> Anchors(parts[1..]).None?
  {
    assert parts[1..i + 1][..i - 1] == parts[1..i];
    assert parts[1..][..i] == parts[1..i + 1];
    if Anchors(parts[1..i + 1]).None? {
      AnchorsFailStays(parts[1..], i);
    }
  }

  /** A malformed piece at position `i` spoils the whole list. */
  lemma {:induction false} AnchorsFailStays(pieces: seq<string>, i: nat)
    requires 1 <= i <= |pieces| && Anchors(pieces[..i]).None?
    ensures Anchors(pieces).None?
  {
    if i < |pieces| {
      var n := |pieces| - 1;
      if i < n {
        assert pieces[..n][..i] == pieces[..i];
        AnchorsFailStays(pieces[..n], i);
      } else {
        assert pieces[..n] == pieces[..i];
      }
    } else {
      assert pieces[..i] == pieces;
    }
  }

  /** `float(self.difficulty.get('SliderMultiplier', 1.4))`. */
  function SliderMultiplier(difficulty: map<string, string>): Option<real>
  {
    if "SliderMultiplier" in difficulty then ParseFloat(difficulty["SliderMultiplier"]) else Some(1.4)
  }

  /**
   * The slider end time: with a governing point of positive beat length,
   * `time + pixel_length / (100 * multiplier) * beat_length * repeat`
   * (`None` for the division by zero a zero multiplier causes); otherwise
   * the fallback `time + pixel_length / 100 * 600`.
   */
  function SliderEndTime(time: real, pixelLength: real, repeat: int, active: Option<TimingPoint>, multiplier: real): Option<real>
  {
    if active.Some? && active.value.beatLength > 0.0 then
      if 100.0 * multiplier == 0.0 then None
      else Some(time + pixelLength / (100.0 * multiplier) * active.value.beatLength * repeat as real)
    else Some(time + pixelLength / 100.0 * 600.0)
  }

  /** Length 140 at 500 ms per beat, multiplier 1.4 and one pass lasts 500 ms. */
  lemma SliderEndTimeExample(time: real, tp: TimingPoint)
    requires tp.beatLength == 500.0
    ensures SliderEndTime(time, 140.0, 1, Some(tp), 1.4) == Some(time + 500.0)
  {
  }

  /** Without a usable timing point every 100 pixels take 600 ms. */
  lemma SliderEndTimeFallback(time: real, pixelLength: real, repeat: int, active: Option<TimingPoint>, multiplier: real)
    requires active.None? || active.value.beatLength <= 0.0
    ensures SliderEndTime(time, pixelLength, repeat, active, multiplier) == Some(time + pixelLength * 6.0)
  {
  }

  /** A slider ends after it starts when its length, beat length, repeat count and multiplier are positive. */
  lemma SliderEndTimeAfterStart(time: real, pixelLength: real, repeat: int, active: Option<TimingPoint>, multiplier: real)
    requires pixelLength > 0.0 && repeat > 0 && multiplier > 0.0
    ensures SliderEndTime(time, pixelLength, repeat, active, multiplier).Some?
    ensures SliderEndTime(time, pixelLength, repeat, active, multiplier).value > time
  {
    if active.Some? && active.value.beatLength > 0.0 {
      var d := pixelLength / (100.0 * multiplier);
      assert d > 0.0;
      assert d * active.value.beatLength > 0.0;
      assert d * active.value.beatLength * repeat as real > 0.0;
    }
  }

  /** The slider branch, once the line is known to have a 6th field. */
  function SliderOf(parts: seq<string>, x: int, y: int, time: real, hitSound: int,
                    tps: seq<TimingPoint>, difficulty: map<string, string>): (r: Option<HitObject>)
    requires |parts| > 5
    ensures r.Some? ==> r.value.kind.Slider? && r.value.endTime.Some? && r.value.time == time
  {
    var pieces := Split(parts[5], '|');
    var points := Anchors(pieces[1..]);
    var repeat := IntField(parts, 6, 1);
    var pixelLength := FloatField(parts, 7, 0.0);
    var multiplier := SliderMultiplier(difficulty);
    if points.None? || repeat.None? || pixelLength.None? || multiplier.None? then None
    else
      var endTime := SliderEndTime(time, pixelLength.value, repeat.value, ActiveTiming(tps, time), multiplier.value);
      if endTime.None? then None
      else Some(HitObject(x, y, time, Slider, hitSound, Some(pieces[0]), points.value, repeat.value,
                          pixelLength.value, Some(endTime.value)))
  }

  /** The spinner branch: centred on the playfield, ending at field 6 or 1000 ms after it starts. */
  function SpinnerOf(parts: seq<string>, time: real, hitSound: int): (r: Option<HitObject>)
    ensures r.Some? ==> r.value.kind.Spinner? && r.value.endTime.Some? && r.value.time == time
    ensures r.Some? ==> r.value.x == 256 && r.value.y == 192 && r.value.hitSound == hitSound
    ensures |parts| <= 5 ==> r == Some(HitObject(256, 192, time, Spinner, hitSound, None, [], 1, 0.0, Some(time + 1000.0)))
    ensures |parts| > 5 ==> (r.Some? <==> ParseFloat(parts[5]).Some?)
    ensures |parts| > 5 && r.Some? ==> r.value.endTime == ParseFloat(parts[5])
  {
    var endTime := FloatField(parts, 5, time + 1000.0);
    if endTime.None? then None
    else Some(HitObject(256, 192, time, Spinner, hitSound, None, [], 1, 0.0, Some(endTime.value)))
  }

  /**
   * One `[HitObjects]` line. The kind is chosen by the type bits in
   * priority order: bit 0 a circle, else bit 1 a slider (only with a 6th
   * field), else bit 3 a spinner; any other type gives nothing. `None`
   * also stands for every exception that drops the line.
   */
  function HitObjectOf(line: string, tps: seq<TimingPoint>, difficulty: map<string, string>): (r: Option<HitObject>)
    ensures r.Some? ==> WellFormed(r.value)
  {
    if Ignored(line) then None else HitObjectOfFields(Fields(line), tps, difficulty)
  }

  function HitObjectOfFields(parts: seq<string>, tps: seq<TimingPoint>, difficulty: map<string, string>): (r: Option<HitObject>)
    ensures r.Some? ==> WellFormed(r.value)
  {
    if |parts| < 4 then None
    else
      var x := ParseInt(parts[0]);
      var y := ParseInt(parts[1]);
      var time := ParseFloat(parts[2]);
      var objType := ParseInt(parts[3]);
      var hitSound := IntField(parts, 4, 0);
      if x.None? || y.None? || time.None? || objType.None? || hitSound.None? then None
      else if HasBit(objType.value, 0) then
        Some(HitObject(x.value, y.value, time.value, Circle, hitSound.value, None, [], 1, 0.0, None))
      else if HasBit(objType.value, 1) then
        if |parts| > 5 then SliderOf(parts, x.value, y.value, time.value, hitSound.value, tps, difficulty) else None
      else if HasBit(objType.value, 3) then SpinnerOf(parts, time.value, hitSound.value)
      else None
  }

  /** The slider branch of the `_parse_hit_objects` loop body, with its two inner loops. */
  method ParseSlider(parts: seq<string>, x: int, y: int, time: real, hitSound: int,
                     tps: seq<TimingPoint>, difficulty: map<string, string>) returns (obj: Option<HitObject>)
    requires |parts| > 5
    ensures obj == SliderOf(parts, x, y, time, hitSound, tps, difficulty)
  {
    var pieces := Split(parts[5], '|');
    var points := ParseAnchors(pieces);
    var repeat := IntField(parts, 6, 1);
    var pixelLength := FloatField(parts, 7, 0.0);
    var active := FindActiveTiming(tps, time);
    var multiplier := SliderMultiplier(difficulty);
    if points.None? || repeat.None? || pixelLength.None? || multiplier.None? {
      return None;
    }
    var endTime := SliderEndTime(time, pixelLength.value, repeat.value, active, multiplier.value);
    if endTime.None? {
      return None;
    }
    obj := Some(HitObject(x, y, time, Slider, hitSound, Some(pieces[0]), points.value, repeat.value,
                          pixelLength.value, Some(endTime.value)));
  }

  /** The body of the `_parse_hit_objects` loop for one line. */
  method ParseHitObjectLine(line: string, tps: seq<TimingPoint>, difficulty: map<string, string>)
    returns (obj: Option<HitObject>)
    ensures obj == HitObjectOf(line, tps, difficulty)
  {
    if Ignored(line) {
      return None;
    }
    var parts := Fields(line);
    if |parts| < 4 {
      return None;
    }
    var x := ParseInt(parts[0]);
    var y := ParseInt(parts[1]);
    var time := ParseFloat(parts[2]);
    var objType := ParseInt(parts[3]);
    var hitSound := IntField(parts, 4, 0);
    if x.None? || y.None? || time.None? || objType.None? || hitSound.None? {
      return None;
    }
    if HasBit(objType.value, 0) {
      obj := Some(HitObject(x.value, y.value, time.value, Circle, hitSound.value, None, [], 1, 0.0, None));
    } else if HasBit(objType.value, 1) {
      if |parts| > 5 {
        obj := ParseSlider(parts, x.value, y.value, time.value, hitSound.value, tps, difficulty);
      } else {
        obj := None;
      }
    } else if HasBit(objType.value, 3) {
      obj := SpinnerOf(parts, time.value, hitSound.value);
    } else {
      obj := None;
    }
  }

  /**
   * The kind of a parsed object follows the type bits of field 4 in
   * priority order, and a slider needs a 6th field.
   */
  lemma HitObjectKind(parts: seq<string>, tps: seq<TimingPoint>, difficulty: map<string, string>)
    requires HitObjectOfFields(parts, tps, difficulty).Some?
    ensures |parts| >= 4 && ParseInt(parts[3]).Some?
    ensures var t := ParseInt(parts[3]).value;
      var o := HitObjectOfFields(parts, tps, difficulty).value;
      && (o.kind.Circle? <==> HasBit(t, 0))
      && (o.kind.Slider? <==> !HasBit(t, 0) && HasBit(t, 1))
      && (o.kind.Spinner? <==> !HasBit(t, 0) && !HasBit(t, 1) && HasBit(t, 3))
      && (o.kind.Slider? ==> |parts| > 5)
  {
  }

  /** A parsed spinner is what the spinner branch builds from its start time and hit sound. */
  lemma SpinnerFields(parts: seq<string>, tps: seq<TimingPoint>, difficulty: map<string, string>)
    requires HitObjectOfFields(parts, tps, difficulty).Some? && HitObjectOfFields(parts, tps, difficulty).value.kind.Spinner?
    ensures var o := HitObjectOfFields(parts, tps, difficulty).value;
      HitObjectOfFields(parts, tps, difficulty) == SpinnerOf(parts, o.time, o.hitSound)
  {
    HitObjectKind(parts, tps, difficulty);
  }

  /** A type with none of bits 0, 1 and 3 set adds nothing, nor does a slider without a 6th field. */
  lemma HitObjectDropped(parts: seq<string>, tps: seq<TimingPoint>, difficulty: map<string, string>)
    requires |parts| >= 4 && ParseInt(parts[3]).Some?
    requires var t := ParseInt(parts[3]).value;
      || (!HasBit(t, 0) && !HasBit(t, 1) && !HasBit(t, 3))
      || (!HasBit(t, 0) && HasBit(t, 1) && |parts| <= 5)
    ensures HitObjectOfFields(parts, tps, difficulty).None?
  {
  }

  /**
   * A parsed slider's anchors are the `:` pieces of its 6th field after the
   * first `|` piece, and its end time follows the governing timing point.
   */
  lemma SliderFields(parts: seq<string>, tps: seq<TimingPoint>, difficulty: map<string, string>)
    requires HitObjectOfFields(parts, tps, difficulty).Some? && HitObjectOfFields(parts, tps, difficulty).value.kind.Slider?
    ensures |parts| > 5 && SliderMultiplier(difficulty).Some?
    ensures var o := HitObjectOfFields(parts, tps, difficulty).value;
      var pieces := Split(parts[5], '|');
      && o.sliderType == Some(pieces[0])
      && Anchors(pieces[1..]) == Some(o.sliderPoints)
      && Some(o.endTime.value) == SliderEndTime(o.time, o.pixelLength, o.repeat, ActiveTiming(tps, o.time),
                                                SliderMultiplier(difficulty).value)
  {
    HitObjectKind(parts, tps, difficulty);
    var x, y, time, hitSound := ParseInt(parts[0]).value, ParseInt(parts[1]).value, ParseFloat(parts[2]).value,
                                IntField(parts, 4, 0).value;
    assert HitObjectOfFields(parts, tps, difficulty) == SliderOf(parts, x, y, time, hitSound, tps, difficulty);
  }

  /** The object reader for one line, given the timing points and difficulty read before. */
  function HitObjectReader(tps: seq<TimingPoint>, difficulty: map<string, string>): string -> Option<HitObject>
  {
    line => HitObjectOf(line, tps, difficulty)
  }

  /** The objects of a list of lines, in line order. */
  function HitObjectsOf(lines: seq<string>, tps: seq<TimingPoint>, difficulty: map<string, string>): seq<HitObject>
  {
    Collect(lines, HitObjectReader(tps, difficulty))
  }

  /** The objects a file contributes, given the timing points and difficulty read before them. */
  function HitObjectsIn(content: string, tps: seq<TimingPoint>, difficulty: map<string, string>): (r: seq<HitObject>)
    ensures forall o :: o in r ==> WellFormed(o)
  {
    HitObjectsOfWellFormed(SectionLines(content, "HitObjects"), tps, difficulty);
    HitObjectsOf(SectionLines(content, "HitObjects"), tps, difficulty)
  }

  /** Every object read from a list of lines is well formed. */
  lemma HitObjectsOfWellFormed(lines: seq<string>, tps: seq<TimingPoint>, difficulty: map<string, string>)
    ensures forall o :: o in HitObjectsOf(lines, tps, difficulty) ==> WellFormed(o)
  {
    var f := HitObjectReader(tps, difficulty);
    forall o | o in HitObjectsOf(lines, tps, difficulty) ensures WellFormed(o) {
      var k :| 0 <= k < |Collect(lines, f)| && Collect(lines, f)[k] == o;
      CollectFrom(lines, f, k);
      var i :| 0 <= i < |lines| && f(lines[i]) == Some(o);
      assert HitObjectOf(lines[i], tps, difficulty) == Some(o);
    }
  }

  /** The parser state: the five fields of `OsuBeatmapParser` that parsing fills. */
  class OsuBeatmapParser {
    var hitObjects: seq<HitObject>
    var timingPoints: seq<TimingPoint>
    var difficulty: map<string, string>
    var general: map<string, string>
    var metadata: map<string, string>

    constructor ()
      ensures hitObjects == [] && timingPoints == []
      ensures difficulty == map[] && general == map[] && metadata == map[]
    {
      hitObjects := [];
      timingPoints := [];
      difficulty := map[];
      general := map[];
      metadata := map[];
    }

    /** `_parse_general`: replaces the General dictionary when the section is present and non-empty. */
    method ParseGeneral(content: string)
      modifies this
      ensures general == KeyValueSection(content, "General", old(general))
      ensures hitObjects == old(hitObjects) && timingPoints == old(timingPoints)
      ensures difficulty == old(difficulty) && metadata == old(metadata)
    {
      var section := GetSection(content, "General");
      if section.Some? && section.value != "" {
        general := ParseKeyValue(section.value);
      }
    }

    /** `_parse_metadata`, the same for the Metadata section. */
    method ParseMetadata(content: string)
      modifies this
      ensures metadata == KeyValueSection(content, "Metadata", old(metadata))
      ensures hitObjects == old(hitObjects) && timingPoints == old(timingPoints)
      ensures difficulty == old(difficulty) && general == old(general)
    {
      var section := GetSection(content, "Metadata");
      if section.Some? && section.value != "" {
        metadata := ParseKeyValue(section.value);
      }
    }

    /** `_parse_difficulty`, the same for the Difficulty section. */
    method ParseDifficulty(content: string)
      modifies this
      ensures difficulty == KeyValueSection(content, "Difficulty", old(difficulty))
      ensures hitObjects == old(hitObjects) && timingPoints == old(timingPoints)
      ensures general == old(general) && metadata == old(metadata)
    {
      var section := GetSection(content, "Difficulty");
      if section.Some? && section.value != "" {
        difficulty := ParseKeyValue(section.value);
      }
    }

    /** `_parse_timing_points`: appends the point of every line of the section that parses. */
    method ParseTimingPoints(content: string)
      modifies this
      ensures timingPoints == old(timingPoints) + TimingPointsIn(content)
      ensures hitObjects == old(hitObjects) && difficulty == old(difficulty)
      ensures general == old(general) && metadata == old(metadata)
    {
      var points := CollectAll(SectionLines(content, "TimingPoints"), TimingPointReader());
      timingPoints := timingPoints + points;
    }

    /**
     * `_parse_hit_objects`: appends the object of every line of the section
     * that parses; `ParseHitObjectLine` is the loop body for one line.
     */
    method ParseHitObjects(content: string)
      modifies this
      ensures hitObjects == old(hitObjects) + HitObjectsIn(content, timingPoints, difficulty)
      ensures timingPoints == old(timingPoints) && difficulty == old(difficulty)
      ensures general == old(general) && metadata == old(metadata)
    {
      var objects := CollectAll(SectionLines(content, "HitObjects"), HitObjectReader(timingPoints, difficulty));
      hitObjects := hitObjects + objects;
    }

    /**
     * `parse` on text that has already been decoded; `None` stands for a
     * file that could not be opened or decoded. The sections are read in
     * the order of `parse` in `cursor.py`, then the objects are sorted stably by time.
     */
    method Parse(decoded: Option<string>) returns (ok: bool)
      modifies this
      ensures ok <==> decoded.Some?
      ensures !ok ==> unchanged(this)
      ensures ok ==> var content := decoded.value;
        && general == KeyValueSection(content, "General", old(general))
        && metadata == KeyValueSection(content, "Metadata", old(metadata))
        && difficulty == KeyValueSection(content, "Difficulty", old(difficulty))
        && timingPoints == old(timingPoints) + TimingPointsIn(content)
        && hitObjects == SortBy(old(hitObjects) + HitObjectsIn(content, timingPoints, difficulty), TimeOf)
      ensures ok ==> SortedBy(hitObjects, TimeOf)
      ensures ok ==> multiset(hitObjects) == multiset(old(hitObjects) + HitObjectsIn(decoded.value, timingPoints, difficulty))
      ensures ok ==> forall t :: WithKey(hitObjects, TimeOf, t)
                                 == WithKey(old(hitObjects) + HitObjectsIn(decoded.value, timingPoints, difficulty), TimeOf, t)
    {
      if decoded.None? {
        return false;
      }
      var content := decoded.value;
      ParseGeneral(content);
      ParseMetadata(content);
      ParseDifficulty(content);
      ParseTimingPoints(content);
      ParseHitObjects(content);
      ghost var collected := hitObjects;
      hitObjects := SortBy(hitObjects, TimeOf);
      SortBySortedPermutation(collected, TimeOf);
      forall t ensures WithKey(hitObjects, TimeOf, t) == WithKey(collected, TimeOf, t) {
        SortByStable(collected, TimeOf, t);
      }
      ok := true;
    }
  }
}
