/**
  * What a frame means, told by its lines: the first `event:` and `id:` lines name it, its `data:` lines
  * are its payload. Nothing here computes; every notion is a relation between texts.
  */
module SseMeaning {
  import opened SseClient
  import opened SseFrames
  import opened Text
  import opened Wrappers

  // ----- texts -----

  /** `text` is `raw` with every carriage return left out. */
  ghost predicate Stripped(raw: string, text: string)
    decreases |raw|
  {
    if raw == "" then text == ""
    else if raw[0] == '\r' then Stripped(raw[1..], text)
    else text != "" && text[0] == raw[0] && Stripped(raw[1..], text[1..])
  }

  /** The lines with a line feed between each two. */
  ghost function Glued(lines: seq<string>): string {
    if lines == [] then ""
    else if |lines| == 1 then lines[0]
    else Glued(lines[..|lines| - 1]) + "\n" + lines[|lines| - 1]
  }

  /** The lines of a frame: none holds a line feed, and with line feeds between them they are the frame
    * without its carriage returns. */
  ghost predicate ReadsAs(raw: string, lines: seq<string>) {
    && lines != [] && Stripped(raw, Glued(lines))
    && forall i :: 0 <= i < |lines| ==> '\n' !in lines[i]
  }

  ghost predicate Begins(line: string, name: string) { name <= line }

  /** `s` from `k` on, with white space alone before it. */
  ghost predicate StartsAt(s: string, part: string, k: nat) {
    k <= |s| && part == s[k..] && (forall i :: 0 <= i < k ==> IsSpace(s[i])) && (part != "" ==> !IsSpace(part[0]))
  }

  /** `s` up to `m`, with white space alone after it. */
  ghost predicate EndsAt(s: string, part: string, m: nat) {
    m <= |s| && part == s[..m] && (forall i :: m <= i < |s| ==> IsSpace(s[i])) && (part != "" ==> !IsSpace(part[|part| - 1]))
  }

  /** `part` is `s` without the white space before it. */
  ghost predicate StartTrimmed(s: string, part: string) { exists k: nat :: StartsAt(s, part, k) }

  ghost predicate EndTrimmed(s: string, part: string) { exists m: nat :: EndsAt(s, part, m) }

  /** `part` is `s` without the white space before it and after it. */
  ghost predicate Trimmed(s: string, part: string) { exists rest :: StartTrimmed(s, rest) && EndTrimmed(rest, part) }

  // ----- fields -----

  /** Line `i` is the first that begins with the name. */
  ghost predicate FirstLine(lines: seq<string>, name: string, i: nat) {
    i < |lines| && Begins(lines[i], name) && forall j :: 0 <= j < i ==> !Begins(lines[j], name)
  }

  /** The first line that begins with the name carries `value`, which is not blank. */
  ghost predicate Carries(lines: seq<string>, name: string, value: string) {
    value != "" && exists i: nat :: FirstLine(lines, name, i) && Trimmed(lines[i][|name|..], value)
  }

  ghost predicate CarriesNothing(lines: seq<string>, name: string) { forall value :: !Carries(lines, name, value) }

  ghost predicate Holds(line: string, value: string) { Begins(line, "data:") && StartTrimmed(line[5..], value) }

  /** `values` are what the data lines hold, in their order. */
  ghost predicate Data(lines: seq<string>, values: seq<string>)
    decreases |lines|
  {
    if lines == [] then values == []
    else
      var init, last := lines[..|lines| - 1], lines[|lines| - 1];
      if Begins(last, "data:") then values != [] && Holds(last, values[|values| - 1]) && Data(init, values[..|values| - 1])
      else Data(init, values)
  }

  // ----- the meaning of a frame -----

  /** The cursor a frame stands at by itself: its own id, or the one before it. */
  ghost predicate StandsAt(lines: seq<string>, last: Option<string>, cursor: Option<string>) {
    if CarriesNothing(lines, "id:") then cursor == last else cursor.Some? && Carries(lines, "id:", cursor.value)
  }

  /** A synchronisation carries its own cursor if its payload names one, and announces a gap if it says so. */
  ghost predicate Synchronises(payload: Payload, own: Option<string>, cursor: Option<string>, delivery: Option<Delivery>)
    requires payload.Json?
  {
    && (match payload.cursor
        case Absent => cursor == own
        case Textual(named) => cursor == Some(named)
        case NotTextual => cursor == None)
    && delivery == if payload.gap then Some(OnGap(payload)) else None
  }

  /** The parser is handed the data values, one to a line. */
  ghost predicate Means(parse: Parser, lines: seq<string>, last: Option<string>, handled: Handled) {
    && (Data(lines, []) ==> handled.Handled? && handled.delivery == None && StandsAt(lines, last, handled.cursor))
    && forall values :: values != [] && Data(lines, values) ==>
         match parse(Glued(values))
         case None => handled == Malformed
         case Some(payload) =>
           if !Carries(lines, "event:", "room_sync") then
             handled.Handled? && handled.delivery == Some(OnMessage(payload)) && StandsAt(lines, last, handled.cursor)
           else if payload.JsonNull? then handled == Malformed
           else
             && handled.Handled?
             && exists own :: StandsAt(lines, last, own) && Synchronises(payload, own, handled.cursor, handled.delivery)
  }

  // ----- the handler's helpers compute these relations -----

  lemma {:induction false} StripsReturns(raw: string, text: string)
    ensures Stripped(raw, text) <==> text == WithoutReturns(raw)
    decreases |raw|
  {
    if raw != "" {
      if raw[0] == '\r' {
        StripsReturns(raw[1..], text);
      } else if text != "" {
        StripsReturns(raw[1..], text[1..]);
        assert text == [text[0]] + text[1..];
      }
    }
  }

  lemma {:induction false} GluedFromFront(lines: seq<string>)
    requires |lines| > 1
    ensures Glued(lines) == lines[0] + "\n" + Glued(lines[1..])
    decreases |lines|
  {
    var init, last := lines[..|lines| - 1], lines[|lines| - 1];
    if |lines| > 2 {
      GluedFromFront(init);
      assert lines[1..][..|lines| - 2] == init[1..];
      assert lines[0] + "\n" + Glued(init[1..]) + "\n" + last == lines[0] + "\n" + (Glued(init[1..]) + "\n" + last);
    } else {
      assert lines[1..] == [last] && init == [lines[0]];
    }
  }

  lemma {:induction false} JoinsAsGlued(lines: seq<string>)
    ensures JoinLines(lines) == Glued(lines)
    decreases |lines|
  {
    if |lines| > 1 {
      JoinsAsGlued(lines[1..]);
      GluedFromFront(lines);
    }
  }

  lemma GluedAfter(first: string, rest: seq<string>)
    ensures Glued([first] + rest) == if rest == [] then first else first + "\n" + Glued(rest)
  {
    if rest != [] {
      GluedFromFront([first] + rest);
      assert ([first] + rest)[1..] == rest;
    }
  }

  lemma GluedGrowsLine(c: char, line: string, rest: seq<string>)
    ensures Glued([[c] + line] + rest) == [c] + Glued([line] + rest)
  {
    GluedAfter([c] + line, rest);
    GluedAfter(line, rest);
    var end := "\n" + Glued(rest);
    hide Glued;
    assert [c] + line + end == [c] + (line + end);
    assert [c] + line + "\n" + Glued(rest) == [c] + line + end;
    assert line + "\n" + Glued(rest) == line + end;
  }

  lemma {:induction false} LinesHoldNoFeed(text: string)
    ensures forall i :: 0 <= i < |Lines(text)| ==> '\n' !in Lines(text)[i]
    decreases |text|
  {
    if text != "" { LinesHoldNoFeed(text[1..]); }
  }

  lemma {:induction false} LinesGlueBack(text: string)
    ensures Glued(Lines(text)) == text
    decreases |text|
  {
    if text != "" {
      LinesGlueBack(text[1..]);
      var rest := Lines(text[1..]);
      GluedAfter("", rest);
      GluedGrowsLine(text[0], rest[0], rest[1..]);
      assert [rest[0]] + rest[1..] == rest;
      hide Glued;
      assert text == [text[0]] + text[1..];
    }
  }

  /** There is only one way to read a text as lines. */
  lemma {:induction false} LinesAreUnique(text: string, lines: seq<string>)
    requires lines != [] && Glued(lines) == text && forall i :: 0 <= i < |lines| ==> '\n' !in lines[i]
    ensures lines == Lines(text)
    decreases |text|
  {
    if |lines| > 1 { GluedFromFront(lines); }
    if text == "" {
      assert lines == [""];
    } else if text[0] == '\n' {
      assert lines[0] == "";
      assert text[1..] == Glued(lines[1..]);
      LinesAreUnique(text[1..], lines[1..]);
      assert lines == [""] + lines[1..];
    } else {
      var shorter := [lines[0][1..]] + lines[1..];
      if |lines| > 1 {
        GluedFromFront(shorter);
        assert shorter[1..] == lines[1..];
        assert text[1..] == lines[0][1..] + "\n" + Glued(lines[1..]);
      }
      assert forall i :: 0 < i < |shorter| ==> shorter[i] == lines[i];
      LinesAreUnique(text[1..], shorter);
      assert lines[0] == [text[0]] + shorter[0] && lines[1..] == shorter[1..];
      assert lines == [lines[0]] + lines[1..];
    }
  }

  lemma ReadsAsItsLines(raw: string, lines: seq<string>)
    ensures ReadsAs(raw, lines) <==> lines == Lines(WithoutReturns(raw))
  {
    var text := WithoutReturns(raw);
    LinesHoldNoFeed(text);
    LinesGlueBack(text);
    StripsReturns(raw, text);
    if ReadsAs(raw, lines) {
      StripsReturns(raw, Glued(lines));
      LinesAreUnique(text, lines);
    }
  }

  // ----- trimming -----

  lemma {:induction false} TrimsStart(s: string, part: string)
    ensures StartTrimmed(s, part) <==> part == TrimStart(s)
    decreases |s|
  {
    hide IsSpace;
    if s != "" && IsSpace(s[0]) {
      TrimsStart(s[1..], part);
      if k: nat :| StartsAt(s, part, k) {
        assert k > 0;
        assert part == s[1..][k - 1..];
        assert StartsAt(s[1..], part, k - 1);
      }
      if k: nat :| StartsAt(s[1..], part, k) {
        assert part == s[k + 1..];
        assert forall i :: 0 < i < k + 1 ==> s[i] == s[1..][i - 1];
        assert StartsAt(s, part, k + 1);
      }
    } else {
      assert s == s[0..] && StartsAt(s, s, 0);
      if k: nat :| StartsAt(s, part, k) { assert k == 0; }
    }
  }

  lemma {:induction false} TrimsEnd(s: string, part: string)
    ensures EndTrimmed(s, part) <==> part == TrimEnd(s)
    decreases |s|
  {
    hide IsSpace;
    if s != "" && IsSpace(s[|s| - 1]) {
      var init := s[..|s| - 1];
      TrimsEnd(init, part);
      if m: nat :| EndsAt(s, part, m) {
        assert m < |s|;
        assert part == init[..m];
        assert EndsAt(init, part, m);
      }
      if m: nat :| EndsAt(init, part, m) {
        assert part == s[..m];
        assert EndsAt(s, part, m);
      }
    } else {
      assert s == s[..|s|] && EndsAt(s, s, |s|);
      if m: nat :| EndsAt(s, part, m) { assert m == |s|; }
    }
  }

  lemma TrimsBothEnds(s: string, part: string)
    ensures Trimmed(s, part) <==> part == Trim(s)
  {
    var rest := TrimStart(s);
    TrimsStart(s, rest);
    TrimsEnd(rest, part);
    hide StartTrimmed, EndTrimmed, TrimStart, TrimEnd;
    if other :| StartTrimmed(s, other) && EndTrimmed(other, part) { TrimsStart(s, other); }
  }

  // ----- fields and data -----

  lemma {:induction false} FieldOfFirstLine(lines: seq<string>, name: string)
    ensures Field(lines, name).Some? ==> exists i: nat :: FirstLine(lines, name, i) && Field(lines, name) == Some(lines[i][|name|..])
    ensures Field(lines, name).None? ==> forall i :: 0 <= i < |lines| ==> !Begins(lines[i], name)
    decreases |lines|
  {
    if lines != [] {
      if StartsWith(lines[0], name) {
        assert FirstLine(lines, name, 0);
      } else {
        FieldOfFirstLine(lines[1..], name);
        if Field(lines, name).Some? {
          var i: nat :| FirstLine(lines[1..], name, i) && Field(lines, name) == Some(lines[1..][i][|name|..]);
          assert lines[1..][i] == lines[i + 1];
          forall j | 0 <= j < i + 1 ensures !Begins(lines[j], name) { if j > 0 { assert lines[j] == lines[1..][j - 1]; } }
          assert FirstLine(lines, name, i + 1);
        } else {
          assert forall i :: 0 < i < |lines| ==> lines[i] == lines[1..][i - 1];
        }
      }
    }
  }

  lemma FieldCarries(lines: seq<string>, name: string, value: string)
    ensures Carries(lines, name, value) <==> TrimmedField(lines, name) == Some(value)
  {
    FieldOfFirstLine(lines, name);
    if Carries(lines, name, value) {
      var i: nat :| FirstLine(lines, name, i) && Trimmed(lines[i][|name|..], value);
      TrimsBothEnds(lines[i][|name|..], value);
      var j: nat :| FirstLine(lines, name, j) && Field(lines, name) == Some(lines[j][|name|..]);
      assert i == j;
    }
    if TrimmedField(lines, name) == Some(value) {
      var j: nat :| FirstLine(lines, name, j) && Field(lines, name) == Some(lines[j][|name|..]);
      TrimsBothEnds(lines[j][|name|..], value);
    }
  }

  lemma {:induction false} DataLinesOfLast(lines: seq<string>)
    requires lines != []
    ensures var last := lines[|lines| - 1];
            DataLines(lines) == DataLines(lines[..|lines| - 1]) + if Begins(last, "data:") then [TrimStart(last[5..])] else []
    decreases |lines|
  {
    hide TrimStart;
    if |lines| > 1 {
      DataLinesOfLast(lines[1..]);
      assert lines[1..][..|lines| - 2] == lines[..|lines| - 1][1..];
    }
  }

  lemma {:induction false} DataIsDataLines(lines: seq<string>, values: seq<string>)
    ensures Data(lines, values) <==> values == DataLines(lines)
    decreases |lines|
  {
    if lines != [] {
      var init, last := lines[..|lines| - 1], lines[|lines| - 1];
      DataLinesOfLast(lines);
      hide TrimStart, DataLines, StartTrimmed;
      if Begins(last, "data:") {
        if values != [] {
          DataIsDataLines(init, values[..|values| - 1]);
          TrimsStart(last[5..], values[|values| - 1]);
          assert values == values[..|values| - 1] + [values[|values| - 1]];
        }
      } else {
        DataIsDataLines(init, values);
      }
    }
  }

  // ----- one frame -----

  /** Every frame can be read as lines, in one way, with one list of data values. */
  lemma FrameIsReadable(raw: string) returns (lines: seq<string>, values: seq<string>)
    ensures ReadsAs(raw, lines) && Data(lines, values)
    ensures forall others :: ReadsAs(raw, others) ==> others == lines
    ensures forall others :: Data(lines, others) ==> others == values
  {
    lines := Lines(WithoutReturns(raw));
    forall others
      ensures ReadsAs(raw, others) <==> others == lines
    {
      ReadsAsItsLines(raw, others);
    }
    values := DataLines(lines);
    forall others
      ensures Data(lines, others) <==> others == values
    {
      DataIsDataLines(lines, others);
    }
  }

  lemma OwnCursor(lines: seq<string>, last: Option<string>)
    ensures var id := TrimmedField(lines, "id:"); StandsAt(lines, last, if id.Some? then id else last)
  {
    forall value
      ensures Carries(lines, "id:", value) <==> TrimmedField(lines, "id:") == Some(value)
    {
      FieldCarries(lines, "id:", value);
    }
  }

  /** The handler's cases over the lines it splits the frame into. */
  lemma HandlesLines(parse: Parser, raw: string, last: Option<string>, own: Option<string>, data: seq<string>)
    requires var lines := Lines(WithoutReturns(raw)); var id := TrimmedField(lines, "id:");
             data == DataLines(lines) && own == (if id.Some? then id else last)
    ensures var handled := HandleEvent(parse, raw, last);
            if data == [] then handled == Handled(own, None)
            else match parse(JoinLines(data))
              case None => handled == Malformed
              case Some(payload) =>
                if TrimmedField(Lines(WithoutReturns(raw)), "event:") != Some("room_sync") then handled == Handled(own, Some(OnMessage(payload)))
                else if payload.JsonNull? then handled == Malformed
                else handled.Handled? && Synchronises(payload, own, handled.cursor, handled.delivery)
  {
    hide Lines, WithoutReturns, TrimmedField, DataLines, JoinLines;
  }

  /** The handler does with every frame what its lines mean. */
  lemma FrameMeans(parse: Parser, raw: string, last: Option<string>, lines: seq<string>)
    requires ReadsAs(raw, lines)
    ensures Means(parse, lines, last, HandleEvent(parse, raw, last))
  {
    hide HandleEvent, Data, Carries, StandsAt, Synchronises, TrimmedField, DataLines, Glued, JoinLines, Lines, WithoutReturns, ReadsAs;
    ReadsAsItsLines(raw, lines);
    OwnCursor(lines, last);
    FieldCarries(lines, "event:", "room_sync");
    var id, data := TrimmedField(lines, "id:"), DataLines(lines);
    JoinsAsGlued(data);
    HandlesLines(parse, raw, last, if id.Some? then id else last, data);
    forall values
      ensures Data(lines, values) <==> values == data
    {
      DataIsDataLines(lines, values);
    }
  }

  /** What a frame means is what it leaves behind: a malformed one ends the stream with a repair and no
    * cursor, any other one moves the stream to its cursor and makes its callback. Either way the map
    * holds the cursor of the room that the stream stands at, and no other. */
  lemma FrameLeaves(parse: Parser, room: RoomId, st: Stream, raw: string, lines: seq<string>) returns (handled: Handled)
    requires !st.broken && OneEntryEach(st.cursors) && |st.cursors| <= MAX_ROOMS && ReadsAs(raw, lines)
    ensures Means(parse, lines, st.last, handled)
    ensures var next := ProcessFrame(parse, room, st, raw);
            && next.broken == handled.Malformed?
            && next.last == (if handled.Malformed? then None else handled.cursor)
            && next.log == st.log + (if handled.Malformed? then [OnRepair]
                                     else if handled.delivery.Some? then [handled.delivery.value] else [])
            && forall cursor :: Remembered(room, cursor) in next.cursors <==> next.last == Some(cursor) && cursor != ""
  {
    handled := HandleEvent(parse, raw, st.last);
    FrameMeans(parse, raw, st.last, lines);
    hide HandleEvent, Means, ReadsAs;
    var next := ProcessFrame(parse, room, st, raw);
    forall cursor
      ensures Remembered(room, cursor) in next.cursors <==> next.last == Some(cursor) && cursor != ""
    {
      RememberUpdatesOneRoom(st.cursors, room, next.last, Remembered(room, cursor));
      ForgetKeepsOthers(st.cursors, room, Remembered(room, cursor));
    }
  }

  // ----- a stream of messages -----

  /** The frame announces no synchronisation, and its data, if it has any, parse. */
  ghost predicate MessageFrame(parse: Parser, raw: string) {
    exists lines :: ReadsAs(raw, lines) && MessageLines(parse, lines)
  }

  ghost predicate MessageLines(parse: Parser, lines: seq<string>) {
    !Carries(lines, "event:", "room_sync") && forall values :: values != [] && Data(lines, values) ==> parse(Glued(values)).Some?
  }

  ghost predicate HasId(raw: string, id: string) { exists lines :: ReadsAs(raw, lines) && Carries(lines, "id:", id) }

  ghost predicate LastId(frames: seq<string>, k: nat, id: string) {
    k < |frames| && HasId(frames[k], id) && forall j, other :: k < j < |frames| ==> !HasId(frames[j], other)
  }

  /** A message frame moves the cursor to its id, if it has one, and never breaks the stream. */
  lemma MessageMovesCursor(parse: Parser, room: RoomId, st: Stream, raw: string)
    requires !st.broken && MessageFrame(parse, raw)
    ensures var next := ProcessFrame(parse, room, st, raw);
            && !next.broken && next.cursors == Remember(st.cursors, room, next.last)
            && (forall id :: HasId(raw, id) ==> next.last == Some(id))
            && ((forall id :: !HasId(raw, id)) ==> next.last == st.last)
  {
    var lines, values := FrameIsReadable(raw);
    FrameMeans(parse, raw, st.last, lines);
    forall id
      ensures HasId(raw, id) <==> Carries(lines, "id:", id)
      ensures Carries(lines, "id:", id) <==> TrimmedField(lines, "id:") == Some(id)
    {
      FieldCarries(lines, "id:", id);
    }
    assert MessageLines(parse, lines);
    hide Carries, Data, HandleEvent, ReadsAs, TrimmedField, Glued;
  }

  /** After message frames the cursor is the id of the last frame that has one. */
  lemma {:induction false} LastIdWins(parse: Parser, room: RoomId, st: Stream, frames: seq<string>)
    requires !st.broken && forall i :: 0 <= i < |frames| ==> MessageFrame(parse, frames[i])
    ensures var end := Process(parse, room, st, frames);
            && !end.broken
            && (forall k, id :: LastId(frames, k, id) ==> end.last == Some(id))
            && ((forall i, id :: 0 <= i < |frames| ==> !HasId(frames[i], id)) ==> end.last == st.last)
    decreases |frames|
  {
    hide ProcessFrame, MessageFrame, HasId;
    if frames != [] {
      var rest := frames[1..];
      MessageMovesCursor(parse, room, st, frames[0]);
      LastIdWins(parse, room, ProcessFrame(parse, room, st, frames[0]), rest);
      assert forall i :: 0 <= i < |rest| ==> rest[i] == frames[i + 1];
      var end := Process(parse, room, st, frames);
      forall k: nat, id | LastId(frames, k, id)
        ensures end.last == Some(id)
      {
        if k > 0 { assert LastId(rest, k - 1, id); }
      }
    }
  }

  /** The frames of a whole body, with what follows the last separator if it is not blank. */
  ghost function BodyFrames(text: string, flush: string): seq<string> {
    Frames(text) + if NonBlank(Rest(text) + flush) then [Rest(text) + flush] else []
  }

  /** However the text arrives, the frames of the body are handled one after another. */
  lemma BodyIsProcessed(parse: Parser, room: RoomId, st: Stream, chunks: seq<string>, flush: string)
    requires st.buffer == "" && !st.broken
    requires !Process(parse, room, st, Frames(Concat(chunks))).broken
    ensures Finish(parse, room, FeedAll(parse, room, st, chunks), flush)
            == Process(parse, room, st, BodyFrames(Concat(chunks), flush)).(buffer := "")
  {
    hide HandleEvent, Frames, Rest, Concat, FeedAll, NonBlank;
    var text := Concat(chunks);
    assert Unbroken(st.buffer);
    FeedAllProcessesWholeText(parse, room, st, chunks);
    assert "" + text == text;
    var fed := Process(parse, room, st, Frames(text));
    ProcessIgnoresBuffer(parse, room, st, Frames(text), Rest(text));
    ProcessIgnoresBuffer(parse, room, st, Frames(text), "");
    var trailing := Rest(text) + flush;
    if NonBlank(trailing) {
      ProcessConcat(parse, room, st, Frames(text), [trailing]);
      assert Process(parse, room, fed, [trailing]) == Process(parse, room, ProcessFrame(parse, room, fed, trailing), []);
    } else {
      assert Frames(text) + [] == Frames(text);
    }
  }

  /** However the text arrives: after a body of message frames the client reconnects from the id of the
    * last frame that has one, and from where it was if none has. */
  lemma StreamEndsAtLastId(parse: Parser, room: RoomId, last: Option<string>, cursors: Cursors, chunks: seq<string>, flush: string)
    requires forall i :: 0 <= i < |BodyFrames(Concat(chunks), flush)| ==> MessageFrame(parse, BodyFrames(Concat(chunks), flush)[i])
    ensures var frames := BodyFrames(Concat(chunks), flush);
            var end := Finish(parse, room, FeedAll(parse, room, Stream("", last, cursors, [], false), chunks), flush);
            && !end.broken
            && (forall k, id :: LastId(frames, k, id) ==> end.last == Some(id))
            && ((forall i, id :: 0 <= i < |frames| ==> !HasId(frames[i], id)) ==> end.last == last)
  {
    var st := Stream("", last, cursors, [], false);
    var frames, whole := BodyFrames(Concat(chunks), flush), Frames(Concat(chunks));
    LastIdWins(parse, room, st, frames);
    assert forall i :: 0 <= i < |whole| ==> frames[i] == whole[i];
    LastIdWins(parse, room, st, whole);
    hide MessageFrame, HasId, ProcessFrame, Frames, Rest, NonBlank, Finish, FeedAll, Process, Concat;
    BodyIsProcessed(parse, room, st, chunks, flush);
  }
}
