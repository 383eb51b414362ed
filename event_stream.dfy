/**
 * The server-sent-events reader of the realtime clients: lines of the
 * `api/realtime` stream are grouped into frames ended by a blank line, and
 * a frame that named an event type is emitted as one event. This is a
 * simplified form of section 9.2.6 ("Interpreting an event stream") of the
 * WHATWG HTML Living Standard: field values are trimmed, a line of white
 * space ends a frame, only the prefixes "id:", "event:" and "data:" are
 * read, and every data line keeps its line terminator.
 */
module EventStream {
  import opened Wrappers
  import opened Text

  /** An event read from the stream. */
  datatype RealtimeEvent = RealtimeEvent(id: Option<string>, event: string, data: string)

  /** The fields of the frame being read: the last id, the last event type and the data so far. */
  datatype Frame = Frame(id: Option<string>, eventType: Option<string>, data: string)

  const EmptyFrame := Frame(None, None, "")

  /** The line terminator `StringBuilder.AppendLine` adds. */
  const NewLine := "\n"

  /** The trimmed value after a field prefix of length `k`. */
  function FieldValue(line: string, k: nat): string
    requires k <= |line|
  {
    Trim(line[k..])
  }

  /** One non-blank line read into the frame. */
  function Feed(f: Frame, line: string): (r: Frame)
    ensures !StartsWith(line, "id:") && !StartsWith(line, "event:") && !StartsWith(line, "data:") ==> r == f
  {
    if StartsWith(line, "id:") then f.(id := Some(FieldValue(line, 3)))
    else if StartsWith(line, "event:") then f.(eventType := Some(FieldValue(line, 6)))
    else if StartsWith(line, "data:") then f.(data := f.data + FieldValue(line, 5) + NewLine)
    else f
  }

  /** What a blank line emits for the frame it ends. */
  function Emit(f: Frame): (r: seq<RealtimeEvent>)
    ensures |r| <= 1
    ensures |r| == 1 <==> f.eventType.Some?
  {
    if f.eventType.Some? then [RealtimeEvent(f.id, f.eventType.value, f.data)] else []
  }

  /** The events read from `lines` with `f` as the frame open so far. */
  function ParseFrom(f: Frame, lines: seq<string>): seq<RealtimeEvent>
    decreases |lines|
  {
    if |lines| == 0 then []
    else if IsBlank(lines[0]) then Emit(f) + ParseFrom(EmptyFrame, lines[1..])
    else ParseFrom(Feed(f, lines[0]), lines[1..])
  }

  /** The events of a whole stream. */
  function Parse(lines: seq<string>): seq<RealtimeEvent> {
    ParseFrom(EmptyFrame, lines)
  }

  /**
   * `StreamRawEventsAsync`: the loop over the lines of the stream, with the
   * frame held in `id`, `evtType` and the `data` buffer.
   */
  method StreamRawEvents(lines: seq<string>) returns (events: seq<RealtimeEvent>)
    ensures events == Parse(lines)
  {
    var id: Option<string> := None;
    var evtType: Option<string> := None;
    var data := "";
    events := [];
    assert lines[0..] == lines;
    for i := 0 to |lines|
      invariant events + ParseFrom(Frame(id, evtType, data), lines[i..]) == Parse(lines)
    {
      var line := lines[i];
      ghost var f := Frame(id, evtType, data);
      assert lines[i..][1..] == lines[i + 1..];
      if IsBlank(line) {
        if evtType.Some? {
          events := events + [RealtimeEvent(id, evtType.value, data)];
        }
        assert ParseFrom(f, lines[i..]) == Emit(f) + ParseFrom(EmptyFrame, lines[i + 1..]);
        id := None;
        evtType := None;
        data := "";
        continue;
      }
      assert ParseFrom(f, lines[i..]) == ParseFrom(Feed(f, line), lines[i + 1..]);
      if StartsWith(line, "id:") {
        id := Some(FieldValue(line, 3));
      } else if StartsWith(line, "event:") {
        evtType := Some(FieldValue(line, 6));
      } else if StartsWith(line, "data:") {
        data := data + FieldValue(line, 5) + NewLine;
      }
      assert Frame(id, evtType, data) == Feed(f, line);
    }
  }

  /** The number of blank lines. */
  function BlankCount(lines: seq<string>): (r: nat)
    ensures r <= |lines|
    decreases |lines|
  {
    if |lines| == 0 then 0 else (if IsBlank(lines[0]) then 1 else 0) + BlankCount(lines[1..])
  }

  /** Each event needs a blank line to end its frame. */
  lemma {:induction false} EventCountBound(f: Frame, lines: seq<string>)
    ensures |ParseFrom(f, lines)| <= BlankCount(lines)
    decreases |lines|
  {
    if |lines| > 0 {
      if IsBlank(lines[0]) {
        EventCountBound(EmptyFrame, lines[1..]);
      } else {
        EventCountBound(Feed(f, lines[0]), lines[1..]);
      }
    }
  }

  /** A frame that no blank line ends is never emitted, however many lines it has. */
  lemma {:induction false} OpenFrameNotEmitted(f: Frame, lines: seq<string>)
    requires forall i :: 0 <= i < |lines| ==> !IsBlank(lines[i])
    ensures ParseFrom(f, lines) == []
    decreases |lines|
  {
    if |lines| > 0 {
      OpenFrameNotEmitted(Feed(f, lines[0]), lines[1..]);
    }
  }

  /** The frame after reading non-blank lines, front to back. */
  function FeedAll(f: Frame, lines: seq<string>): Frame
    decreases |lines|
  {
    if |lines| == 0 then f else FeedAll(Feed(f, lines[0]), lines[1..])
  }

  lemma {:induction false} FeedAllSnoc(f: Frame, lines: seq<string>, line: string)
    ensures FeedAll(f, lines + [line]) == Feed(FeedAll(f, lines), line)
    decreases |lines|
  {
    if |lines| > 0 {
      assert (lines + [line])[1..] == lines[1..] + [line];
      FeedAllSnoc(Feed(f, lines[0]), lines[1..], line);
    }
  }

  /** A frame is read up to the blank line that ends it; the events after it start from an empty frame. */
  lemma {:induction false} ParseFrame(f: Frame, frame: seq<string>, blank: string, rest: seq<string>)
    requires forall i :: 0 <= i < |frame| ==> !IsBlank(frame[i])
    requires IsBlank(blank)
    ensures ParseFrom(f, frame + [blank] + rest) == Emit(FeedAll(f, frame)) + Parse(rest)
    decreases |frame|
  {
    if |frame| == 0 {
      assert frame + [blank] + rest == [blank] + rest;
      assert ([blank] + rest)[1..] == rest;
    } else {
      assert (frame + [blank] + rest)[0] == frame[0];
      assert (frame + [blank] + rest)[1..] == frame[1..] + [blank] + rest;
      ParseFrame(Feed(f, frame[0]), frame[1..], blank, rest);
    }
  }

  /** Events keep stream order: the events of a stream cut after a blank line are those of the two parts, in turn. */
  lemma {:induction false} ParseAppend(f: Frame, a: seq<string>, b: seq<string>)
    requires |a| > 0 && IsBlank(a[|a| - 1])
    ensures ParseFrom(f, a + b) == ParseFrom(f, a) + Parse(b)
    decreases |a|
  {
    assert (a + b)[0] == a[0];
    assert (a + b)[1..] == a[1..] + b;
    if |a| == 1 {
      assert a[1..] == [];
      assert a[1..] + b == b;
    } else if IsBlank(a[0]) {
      ParseAppend(EmptyFrame, a[1..], b);
    } else {
      ParseAppend(Feed(f, a[0]), a[1..], b);
    }
  }

  /** The trimmed value of the last line starting with `prefix`, searched from the end. */
  function LastField(lines: seq<string>, prefix: string): (r: Option<string>)
    decreases |lines|
  {
    if |lines| == 0 then None
    else
      var line := lines[|lines| - 1];
      if StartsWith(line, prefix) then Some(Trim(line[|prefix|..])) else LastField(lines[..|lines| - 1], prefix)
  }

  /** The trimmed values of the data lines, in order. */
  function DataValues(lines: seq<string>): seq<string>
    decreases |lines|
  {
    if |lines| == 0 then []
    else
      var init := DataValues(lines[..|lines| - 1]);
      var line := lines[|lines| - 1];
      if StartsWith(line, "data:") then init + [Trim(line[5..])] else init
  }

  /** Each value followed by a line terminator. */
  function ConcatLines(values: seq<string>): string
    decreases |values|
  {
    if |values| == 0 then "" else ConcatLines(values[..|values| - 1]) + values[|values| - 1] + NewLine
  }

  lemma PrefixesExclusive(line: string)
    ensures StartsWith(line, "event:") ==> !StartsWith(line, "id:") && !StartsWith(line, "data:")
    ensures StartsWith(line, "data:") ==> !StartsWith(line, "id:")
  {
    if StartsWith(line, "event:") {
      assert line[0] == 'e';
    }
    if StartsWith(line, "data:") {
      assert line[0] == 'd';
    }
  }

  /**
   * Within one frame the last "id:" line and the last "event:" line win, and
   * the data is every "data:" value in order, each with a line terminator.
   */
  lemma {:induction false} FrameFields(lines: seq<string>)
    ensures FeedAll(EmptyFrame, lines).id == LastField(lines, "id:")
    ensures FeedAll(EmptyFrame, lines).eventType == LastField(lines, "event:")
    ensures FeedAll(EmptyFrame, lines).data == ConcatLines(DataValues(lines))
    decreases |lines|
  {
    if |lines| > 0 {
      var init := lines[..|lines| - 1];
      var line := lines[|lines| - 1];
      assert lines == init + [line];
      FrameFields(init);
      FeedAllSnoc(EmptyFrame, init, line);
      PrefixesExclusive(line);
    }
  }

  /** So a frame ended by a blank line is emitted exactly when it had an "event:" line, with the fields above. */
  lemma FrameEvent(frame: seq<string>, blank: string, rest: seq<string>)
    requires forall i :: 0 <= i < |frame| ==> !IsBlank(frame[i])
    requires IsBlank(blank)
    ensures LastField(frame, "event:").None? ==> Parse(frame + [blank] + rest) == Parse(rest)
    ensures LastField(frame, "event:").Some? ==>
      Parse(frame + [blank] + rest)
      == [RealtimeEvent(LastField(frame, "id:"), LastField(frame, "event:").value, ConcatLines(DataValues(frame)))] + Parse(rest)
  {
    ParseFrame(EmptyFrame, frame, blank, rest);
    FrameFields(frame);
  }
}
