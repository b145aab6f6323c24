/**
  * The event-stream client: every frame moves the room's cursor and hands its payload to a callback;
  * a malformed frame ends the stream and forgets the cursor. JSON parsing is a parameter.
  */
module SseClient {
  import opened SseFrames
  import opened Text
  import opened Wrappers

  type RoomId = string

  // ----- one event -----

  datatype CursorField = Absent | Textual(cursor: string) | NotTextual

  /** What the handler reads of a parsed payload. */
  datatype Payload = JsonNull | Json(gap: bool, cursor: CursorField)

  type Parser = string -> Option<Payload>

  /** A callback made on behalf of one room. */
  datatype Delivery = OnMessage(payload: Payload) | OnGap(payload: Payload) | OnRepair

  datatype Handled = Malformed | Handled(cursor: Option<string>, delivery: Option<Delivery>)

  function WithoutReturns(s: string): string {
    if s == "" then "" else (if s[0] == '\r' then "" else [s[0]]) + WithoutReturns(s[1..])
  }

  function Lines(s: string): (lines: seq<string>)
    ensures lines != []
  {
    if s == "" then [""]
    else
      var rest := Lines(s[1..]);
      if s[0] == '\n' then [""] + rest else [[s[0]] + rest[0]] + rest[1..]
  }

  predicate StartsWith(s: string, prefix: string) { |prefix| <= |s| && s[..|prefix|] == prefix }

  function TrimStart(s: string): string {
    if s != "" && IsSpace(s[0]) then TrimStart(s[1..]) else s
  }

  function TrimEnd(s: string): string {
    if s != "" && IsSpace(s[|s| - 1]) then TrimEnd(s[..|s| - 1]) else s
  }

  function Trim(s: string): string { TrimEnd(TrimStart(s)) }

  /** The first line of a field, without its name. */
  function Field(lines: seq<string>, name: string): Option<string> {
    if lines == [] then None
    else if StartsWith(lines[0], name) then Some(lines[0][|name|..])
    else Field(lines[1..], name)
  }

  function DataLines(lines: seq<string>): seq<string> {
    if lines == [] then []
    else (if StartsWith(lines[0], "data:") then [TrimStart(lines[0][5..])] else []) + DataLines(lines[1..])
  }

  function JoinLines(lines: seq<string>): string {
    if lines == [] then "" else if |lines| == 1 then lines[0] else lines[0] + "\n" + JoinLines(lines[1..])
  }

  /** A present, non-blank field value. */
  function TrimmedField(lines: seq<string>, name: string): Option<string> {
    var field := Field(lines, name);
    if field.None? || Trim(field.value) == "" then None else Some(Trim(field.value))
  }

  function HandleEvent(parse: Parser, raw: string, last: Option<string>): Handled {
    var lines := Lines(WithoutReturns(raw));
    var name := TrimmedField(lines, "event:");
    var id := TrimmedField(lines, "id:");
    var data := DataLines(lines);
    var cursor := if id.Some? then id else last;
    if data == [] then Handled(cursor, None)
    else match parse(JoinLines(data))
      case None => Malformed
      case Some(payload) =>
        if name == Some("room_sync") then
          match payload
          case JsonNull => Malformed
          case Json(gap, field) =>
            Handled(match field case Absent => cursor case Textual(c) => Some(c) case NotTextual => None,
                    if gap then Some(OnGap(payload)) else None)
        else Handled(cursor, Some(OnMessage(payload)))
  }

  // ----- the cursor map, oldest room first -----

  datatype Remembered = Remembered(room: RoomId, cursor: string)

  type Cursors = seq<Remembered>

  const MAX_ROOMS: nat := 32

  function Forget(cs: Cursors, room: RoomId): Cursors {
    if cs == [] then [] else if cs[0].room == room then Forget(cs[1..], room) else [cs[0]] + Forget(cs[1..], room)
  }

  /** Drops the oldest rooms beyond the limit; an empty room id at the front stops the loop. */
  function Evict(cs: Cursors): Cursors {
    if |cs| > MAX_ROOMS && cs[0].room != "" then Evict(cs[1..]) else cs
  }

  function Remember(cs: Cursors, room: RoomId, cursor: Option<string>): Cursors {
    var rest := Forget(cs, room);
    if cursor.None? || cursor.value == "" then rest else Evict(rest + [Remembered(room, cursor.value)])
  }

  predicate OneEntryEach(cs: Cursors) {
    forall i, j :: 0 <= i < j < |cs| ==> cs[i].room != cs[j].room
  }

  predicate Knows(cs: Cursors, room: RoomId) { exists i :: 0 <= i < |cs| && cs[i].room == room }

  lemma KnowsSplits(cs: Cursors, room: RoomId)
    requires cs != []
    ensures Knows(cs, room) <==> cs[0].room == room || Knows(cs[1..], room)
    ensures OneEntryEach(cs) ==> OneEntryEach(cs[1..]) && !Knows(cs[1..], cs[0].room)
  {
    if Knows(cs, room) && cs[0].room != room {
      var i :| 0 <= i < |cs| && cs[i].room == room;
      assert cs[1..][i - 1].room == room;
    }
    assert forall i :: 0 <= i < |cs[1..]| ==> cs[1..][i] == cs[i + 1];
  }

  lemma {:induction false} ForgetKeepsOthers(cs: Cursors, room: RoomId, e: Remembered)
    ensures e in Forget(cs, room) <==> e in cs && e.room != room
  {
    if cs != [] {
      assert e in cs <==> e == cs[0] || e in cs[1..];
      ForgetKeepsOthers(cs[1..], room, e);
    }
  }

  lemma {:induction false} ForgetRemoves(cs: Cursors, room: RoomId)
    requires OneEntryEach(cs)
    ensures var rest := Forget(cs, room);
            && OneEntryEach(rest) && |rest| == |cs| - (if Knows(cs, room) then 1 else 0)
            && !Knows(rest, room)
            && (cs != [] && cs[0].room != room ==> rest != [] && rest[0] == cs[0])
  {
    var rest := Forget(cs, room);
    forall i | 0 <= i < |rest|
      ensures rest[i].room != room
    {
      ForgetKeepsOthers(cs, room, rest[i]);
    }
    if cs != [] {
      KnowsSplits(cs, room);
      ForgetRemoves(cs[1..], room);
      var more := Forget(cs[1..], room);
      forall j | 0 <= j < |more|
        ensures more[j].room != cs[0].room
      {
        ForgetKeepsOthers(cs[1..], room, more[j]);
        assert Knows(cs[1..], more[j].room);
      }
    }
  }

  lemma EvictsAtMostOne(cs: Cursors)
    requires |cs| <= MAX_ROOMS + 1
    ensures Evict(cs) == if |cs| > MAX_ROOMS && cs[0].room != "" then cs[1..] else cs
  {
    if |cs| > MAX_ROOMS { assert Evict(cs[1..]) == cs[1..]; }
  }

  /** One remembered cursor keeps the map within its limit, except exactly when it is full, the room is
    * new and the oldest room has the empty id, at which the eviction loop stops. */
  lemma RememberIsBounded(cs: Cursors, room: RoomId, cursor: Option<string>)
    requires OneEntryEach(cs) && |cs| <= MAX_ROOMS
    ensures |Remember(cs, room, cursor)| > MAX_ROOMS <==>
            cursor.Some? && cursor.value != "" && |cs| == MAX_ROOMS && !Knows(cs, room) && cs[0].room == ""
  {
    ForgetRemoves(cs, room);
    if |cs| == MAX_ROOMS { KnowsSplits(cs, room); }
    if cursor.Some? { EvictsAtMostOne(Forget(cs, room) + [Remembered(room, cursor.value)]); }
  }

  lemma AppendedRoom(cs: Cursors, room: RoomId, cursor: string)
    requires OneEntryEach(cs) && !Knows(cs, room)
    ensures OneEntryEach(cs + [Remembered(room, cursor)])
  {
    assert forall i :: 0 <= i < |cs| ==> Knows(cs, cs[i].room);
  }

  /** A room remembers its latest cursor, and loses it without one; every other room keeps its own
    * unless it is the oldest of a full map. */
  lemma RememberUpdatesOneRoom(cs: Cursors, room: RoomId, cursor: Option<string>, e: Remembered)
    requires OneEntryEach(cs) && |cs| <= MAX_ROOMS
    ensures OneEntryEach(Remember(cs, room, cursor))
    ensures e.room == room ==> (e in Remember(cs, room, cursor) <==> cursor == Some(e.cursor) && e.cursor != "")
    ensures e.room != room ==> (e in Remember(cs, room, cursor) ==> e in cs)
    ensures e.room != room && e in cs && e !in Remember(cs, room, cursor) ==> |cs| == MAX_ROOMS && !Knows(cs, room) && e == cs[0]
  {
    ForgetRemoves(cs, room);
    ForgetKeepsOthers(cs, room, e);
    var rest := Forget(cs, room);
    if cursor.Some? && cursor.value != "" {
      var all := rest + [Remembered(room, cursor.value)];
      EvictsAtMostOne(all);
      AppendedRoom(rest, room, cursor.value);
      assert e in all <==> e in rest || e == Remembered(room, cursor.value);
      if |all| > MAX_ROOMS {
        KnowsSplits(cs, room);
        KnowsSplits(all, room);
        assert all[0] == cs[0];
        assert e in all <==> e == all[0] || e in all[1..];
      }
    }
  }

  /** Over every run of cursors for rooms with real ids the map never holds more than its limit. */
  lemma {:induction false} CursorsStayBounded(cs: Cursors, updates: seq<(RoomId, Option<string>)>)
    requires OneEntryEach(cs) && |cs| <= MAX_ROOMS && !Knows(cs, "")
    requires forall i :: 0 <= i < |updates| ==> updates[i].0 != ""
    ensures var end := RememberAll(cs, updates); OneEntryEach(end) && |end| <= MAX_ROOMS && !Knows(end, "")
    decreases |updates|
  {
    if updates != [] {
      var room, cursor := updates[0].0, updates[0].1;
      var next := Remember(cs, room, cursor);
      RememberIsBounded(cs, room, cursor);
      if |cs| > 0 { assert cs[0].room != "" by { assert cs[0].room == "" ==> Knows(cs, ""); } }
      forall i | 0 <= i < |next|
        ensures next[i].room != ""
      {
        RememberUpdatesOneRoom(cs, room, cursor, next[i]);
        if next[i] in cs { assert Knows(cs, next[i].room); }
      }
      RememberUpdatesOneRoom(cs, room, cursor, Remembered(room, ""));
      CursorsStayBounded(next, updates[1..]);
    }
  }

  function RememberAll(cs: Cursors, updates: seq<(RoomId, Option<string>)>): Cursors
    decreases |updates|
  {
    if updates == [] then cs else RememberAll(Remember(cs, updates[0].0, updates[0].1), updates[1..])
  }

  /** Distinct room ids, the empty one first. */
  function Room(n: nat): (r: RoomId)
    ensures |r| == n
  {
    if n == 0 then "" else Room(n - 1) + "r"
  }

  function FirstRooms(n: nat): seq<(RoomId, Option<string>)> {
    seq(n, i requires 0 <= i < n => (Room(i), Some("1")))
  }

  function RoomsSince(first: nat, n: nat): seq<(RoomId, Option<string>)>
    requires first <= n
  {
    FirstRooms(n)[first..]
  }

  lemma {:induction false} EmptyRoomStaysFirst(cs: Cursors, n: nat, all: nat)
    requires n <= all && |cs| == n && OneEntryEach(cs)
    requires forall i :: 0 <= i < n ==> cs[i] == Remembered(Room(i), "1")
    requires all <= MAX_ROOMS + 1
    ensures var end := RememberAll(cs, RoomsSince(n, all)); |end| == all
    decreases all - n
  {
    if n < all {
      var updates := RoomsSince(n, all);
      assert updates[0] == (Room(n), Some("1")) && updates[1..] == RoomsSince(n + 1, all);
      forall i | 0 <= i < |cs|
        ensures cs[i].room != Room(n)
      {
        assert |Room(i)| == i && |Room(n)| == n;
      }
      ForgetUnknown(cs, Room(n));
      var next := cs + [Remembered(Room(n), "1")];
      EvictsAtMostOne(next);
      AppendedRoom(cs, Room(n), "1");
      EmptyRoomStaysFirst(next, n + 1, all);
    } else {
      assert RoomsSince(n, all) == [];
    }
  }

  lemma {:induction false} ForgetUnknown(cs: Cursors, room: RoomId)
    requires !Knows(cs, room)
    ensures Forget(cs, room) == cs
  {
    if cs != [] {
      KnowsSplits(cs, room);
      ForgetUnknown(cs[1..], room);
    }
  }

  /** From an empty map, 33 rooms of which the first has the empty id all stay. */
  lemma EmptyRoomOverflows()
    ensures |RememberAll([], FirstRooms(MAX_ROOMS + 1))| == MAX_ROOMS + 1
  {
    EmptyRoomStaysFirst([], 0, MAX_ROOMS + 1);
    assert RoomsSince(0, MAX_ROOMS + 1) == FirstRooms(MAX_ROOMS + 1);
  }

  // ----- one stream -----

  /** `log` lists the callbacks made so far; a broken stream was cancelled after a malformed frame. */
  datatype Stream = Stream(buffer: string, last: Option<string>, cursors: Cursors, log: seq<Delivery>, broken: bool)

  function ProcessFrame(parse: Parser, room: RoomId, st: Stream, raw: string): Stream {
    match HandleEvent(parse, raw, st.last)
    case Malformed => Stream("", None, Forget(st.cursors, room), st.log + [OnRepair], true)
    case Handled(cursor, delivery) =>
      st.(last := cursor, cursors := Remember(st.cursors, room, cursor),
          log := if delivery.Some? then st.log + [delivery.value] else st.log)
  }

  /** The loop over the complete frames of the buffer. */
  function Drain(parse: Parser, room: RoomId, st: Stream): Stream
    decreases |st.buffer|
  {
    var i := Boundary(st.buffer, 0);
    if st.broken || i == -1 then st
    else
      var next := ProcessFrame(parse, room, st.(buffer := st.buffer[i + 2..]), st.buffer[..i]);
      if next.broken then next else Drain(parse, room, next)
  }

  function Feed(parse: Parser, room: RoomId, st: Stream, chunk: string): Stream {
    if st.broken then st else Drain(parse, room, st.(buffer := st.buffer + chunk))
  }

  function FeedAll(parse: Parser, room: RoomId, st: Stream, chunks: seq<string>): Stream
    decreases |chunks|
  {
    if chunks == [] then st else FeedAll(parse, room, Feed(parse, room, st, chunks[0]), chunks[1..])
  }

  /** The end of the body: a trailing frame that is not blank is handled too. */
  function Finish(parse: Parser, room: RoomId, st: Stream, flush: string): Stream {
    var trailing := st.buffer + flush;
    if st.broken || !NonBlank(trailing) then st.(buffer := "")
    else ProcessFrame(parse, room, st, trailing).(buffer := "")
  }

  // ----- the reference: all frames of the whole text, one after another -----

  /** Handles frames in order until one is malformed. */
  function Process(parse: Parser, room: RoomId, st: Stream, frames: seq<string>): Stream
    decreases |frames|
  {
    if st.broken || frames == [] then st
    else Process(parse, room, ProcessFrame(parse, room, st, frames[0]), frames[1..])
  }

  function Concat(chunks: seq<string>): string {
    if chunks == [] then "" else chunks[0] + Concat(chunks[1..])
  }

  /** A broken stream keeps no text. */
  function Buffered(st: Stream, rest: string): Stream { if st.broken then st else st.(buffer := rest) }

  lemma {:induction false} ProcessIgnoresBuffer(parse: Parser, room: RoomId, st: Stream, frames: seq<string>, rest: string)
    requires !st.broken
    ensures Process(parse, room, st.(buffer := rest), frames) == Buffered(Process(parse, room, st, frames), rest)
    decreases |frames|
  {
    if frames != [] {
      var next := ProcessFrame(parse, room, st, frames[0]);
      if !next.broken { ProcessIgnoresBuffer(parse, room, next, frames[1..], rest); }
    }
  }

  /** The loop handles exactly the greedy frames of its buffer and keeps the rest. */
  lemma {:induction false} DrainProcessesFrames(parse: Parser, room: RoomId, st: Stream)
    requires !st.broken
    ensures Drain(parse, room, st) == Process(parse, room, st.(buffer := Rest(st.buffer)), Frames(st.buffer))
    decreases |st.buffer|
  {
    var i := Boundary(st.buffer, 0);
    if i != -1 {
      var raw, more := st.buffer[..i], st.buffer[i + 2..];
      var next := ProcessFrame(parse, room, st.(buffer := more), raw);
      assert Frames(st.buffer)[0] == raw && Frames(st.buffer)[1..] == Frames(more);
      if !next.broken { DrainProcessesFrames(parse, room, next); }
    }
  }

  lemma {:induction false} ProcessConcat(parse: Parser, room: RoomId, st: Stream, a: seq<string>, b: seq<string>)
    ensures Process(parse, room, st, a + b) == Process(parse, room, Process(parse, room, st, a), b)
    decreases |a|
  {
    if !st.broken && a != [] {
      assert (a + b)[0] == a[0] && (a + b)[1..] == a[1..] + b;
      ProcessConcat(parse, room, ProcessFrame(parse, room, st, a[0]), a[1..], b);
    } else if a == [] {
      assert a + b == b;
    }
  }

  /** However the text arrives, the stream ends where handling the greedy frames of the whole text, one
    * after another up to the first malformed one, would leave it. */
  lemma {:induction false} FeedAllProcessesWholeText(parse: Parser, room: RoomId, st: Stream, chunks: seq<string>)
    requires !st.broken && Unbroken(st.buffer)
    ensures var text := st.buffer + Concat(chunks);
            FeedAll(parse, room, st, chunks) == Process(parse, room, st.(buffer := Rest(text)), Frames(text))
    decreases |chunks|
  {
    if chunks == [] {
      assert st.buffer + "" == st.buffer;
      DecompositionIsUnique(st.buffer, [], st.buffer);
    } else {
      var first, more := st.buffer + chunks[0], Concat(chunks[1..]);
      var next := Feed(parse, room, st, chunks[0]);
      DrainProcessesFrames(parse, room, st.(buffer := first));
      Regroup(st.buffer, chunks[0], more);
      FramesOfMore(first, more);
      ProcessIgnoresBuffer(parse, room, st, Frames(first), Rest(first));
      ProcessIgnoresBuffer(parse, room, st, Frames(first), Rest(first + more));
      ProcessConcat(parse, room, st.(buffer := Rest(first + more)), Frames(first), Frames(Rest(first) + more));
      if next.broken {
        BrokenStays(parse, room, next, chunks[1..]);
      } else {
        FramesDecompose(first);
        FeedAllProcessesWholeText(parse, room, next, chunks[1..]);
      }
    }
  }

  lemma {:induction false} BrokenStays(parse: Parser, room: RoomId, st: Stream, chunks: seq<string>)
    requires st.broken
    ensures FeedAll(parse, room, st, chunks) == st
    decreases |chunks|
  {
    if chunks != [] { BrokenStays(parse, room, st, chunks[1..]); }
  }

  /** Two ways of cutting the same text into chunks make the same callbacks in the same order, and leave
    * the same cursor and the same cursor map, malformed frames and trailing frame included. */
  lemma ChunkingDoesNotMatter(
    parse: Parser, room: RoomId, last: Option<string>, cursors: Cursors, one: seq<string>, other: seq<string>, flush: string)
    requires Concat(one) == Concat(other)
    ensures var st := Stream("", last, cursors, [], false);
            Finish(parse, room, FeedAll(parse, room, st, one), flush) == Finish(parse, room, FeedAll(parse, room, st, other), flush)
  {
    var st := Stream("", last, cursors, [], false);
    FeedAllProcessesWholeText(parse, room, st, one);
    FeedAllProcessesWholeText(parse, room, st, other);
  }

  // ----- the client's fields, updated in place -----

  class SseClient {
    var eventCursors: Cursors
    var buffer: string
    var lastEventId: Option<string>
    ghost var log: seq<Delivery>
    ghost var broken: bool

    ghost function State(): Stream
      reads this
    {
      Stream(buffer, lastEventId, eventCursors, log, broken)
    }

    constructor ()
      ensures State() == Stream("", None, [], [], false)
    {
      eventCursors, buffer, lastEventId, log, broken := [], "", None, [], false;
    }

    method RememberEventCursor(room: RoomId, cursor: Option<string>)
      modifies this`eventCursors
      ensures eventCursors == Remember(old(eventCursors), room, cursor)
    {
      eventCursors := Forget(eventCursors, room);
      if cursor.None? || cursor.value == "" { return; }
      eventCursors := eventCursors + [Remembered(room, cursor.value)];
      while |eventCursors| > MAX_ROOMS
        invariant Evict(eventCursors) == Remember(old(eventCursors), room, cursor)
        decreases |eventCursors|
      {
        if eventCursors[0].room == "" { break; }
        eventCursors := eventCursors[1..];
      }
    }

    /** One frame; a malformed one cancels the reader and forgets the room's cursor. */
    method HandleFrame(parse: Parser, room: RoomId, raw: string) returns (ok: bool)
      requires !broken
      modifies this
      ensures State() == ProcessFrame(parse, room, old(State()), raw) && ok == !broken
    {
      match HandleEvent(parse, raw, lastEventId) {
        case Malformed =>
          eventCursors := Forget(eventCursors, room);
          log := log + [OnRepair];
          buffer, lastEventId, broken := "", None, true;
          ok := false;
        case Handled(cursor, delivery) =>
          lastEventId := cursor;
          if delivery.Some? { log := log + [delivery.value]; }
          RememberEventCursor(room, cursor);
          ok := true;
      }
    }

    /** One read of the body: every complete frame in the buffer is handled at once. */
    method ReadChunk(parse: Parser, room: RoomId, chunk: string) returns (ok: bool)
      requires !broken
      modifies this
      ensures State() == Feed(parse, room, old(State()), chunk) && ok == !broken
    {
      buffer := buffer + chunk;
      var boundary := Boundary(buffer, 0);
      while boundary != -1
        invariant !broken && boundary == Boundary(buffer, 0)
        invariant Drain(parse, room, State()) == Feed(parse, room, old(State()), chunk)
        decreases |buffer|
      {
        var raw := buffer[..boundary];
        buffer := buffer[boundary + 2..];
        ok := HandleFrame(parse, room, raw);
        if !ok { return; }
        boundary := Boundary(buffer, 0);
      }
      ok := true;
    }

    method EndOfBody(parse: Parser, room: RoomId, flush: string) returns (ok: bool)
      requires !broken
      modifies this
      ensures State() == Finish(parse, room, old(State()), flush) && ok == !broken
    {
      var trailing := buffer + flush;
      ok := true;
      if NonBlank(trailing) { ok := HandleFrame(parse, room, trailing); }
      buffer := "";
    }
  }
}
