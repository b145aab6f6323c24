/**
  * The agent stream registry: one bounded event feed for each entry, drained by a consumer that feeds
  * its cursor back, and long polls that sleep until the feed changes.
  */
module AgentStream {
  import opened Wrappers

  type Id = string

  datatype StreamEvent = StreamEvent(sequence: nat, content: string)

  datatype Buffer = Buffer(sequence: nat, generation: nat, start: nat, events: seq<StreamEvent>, ended: bool)

  datatype Result = Result(sequence: int, generation: nat, dropped: nat, events: seq<StreamEvent>, ended: bool)

  function Max(a: int, b: int): int { if a < b then b else a }

  function Min(a: int, b: int): int { if a < b then a else b }

  // ----- one feed -----

  function Pushed(b: Buffer, content: string, limit: nat): Buffer {
    if b.ended then b
    else
      var events := b.events + [StreamEvent(b.sequence + 1, content)];
      b.(sequence := b.sequence + 1, events := if |events| > limit then events[|events| - limit..] else events)
  }

  function Reset(b: Buffer): Buffer {
    Buffer(b.sequence, b.generation + 1, b.sequence + 1, [], false)
  }

  const Fresh := Buffer(0, 1, 1, [], false)

  const Unborn := Buffer(0, 0, 1, [], false)

  /** The events past a cursor, in order. */
  function After(events: seq<StreamEvent>, cursor: int): seq<StreamEvent> {
    if events == [] then []
    else (if events[0].sequence > cursor then [events[0]] else []) + After(events[1..], cursor)
  }

  function Slice(events: seq<StreamEvent>, batch: nat): seq<StreamEvent> {
    if |events| > batch then events[..batch] else events
  }

  function Oldest(b: Buffer): nat { if b.events == [] then b.sequence + 1 else b.events[0].sequence }

  function Effective(b: Buffer, after: int): int { Max(after, b.start - 1) }

  function Snapshot(b: Buffer, after: int, batch: nat): Result {
    var effective := Effective(b, after);
    var events := Slice(After(b.events, effective), batch);
    var sequence := if events != [] then events[|events| - 1].sequence else effective;
    Result(sequence, b.generation, Max(0, Oldest(b) - effective - 1), events, b.ended && sequence >= b.sequence)
  }

  // ----- the buffer retains the end of its generation's log -----

  /** The buffer holds the last `limit` events of everything its generation pushed. */
  ghost predicate Retains(b: Buffer, limit: nat, log: seq<string>) {
    && b.start >= 1 && b.sequence == b.start - 1 + |log|
    && |b.events| == Min(limit, |log|)
    && forall i :: 0 <= i < |b.events| ==>
         b.events[i] == StreamEvent(b.sequence - |b.events| + 1 + i, log[|log| - |b.events| + i])
  }

  lemma PushRetains(b: Buffer, limit: nat, log: seq<string>, content: string)
    requires Retains(b, limit, log)
    ensures Retains(Pushed(b, content, limit), limit, if b.ended then log else log + [content])
  {
    if !b.ended {
      var next, grown := Pushed(b, content, limit), log + [content];
      var cut := |b.events| + 1 - |next.events|;
      forall i | 0 <= i < |next.events|
        ensures next.events[i] == StreamEvent(next.sequence - |next.events| + 1 + i, grown[|grown| - |next.events| + i])
      {
        assert next.events[i] == (b.events + [StreamEvent(b.sequence + 1, content)])[i + cut];
        if i + cut < |b.events| { assert grown[|log| - |b.events| + i + cut] == log[|log| - |b.events| + i + cut]; }
      }
    }
  }

  lemma ResetRetains(b: Buffer, limit: nat, log: seq<string>)
    requires Retains(b, limit, log)
    ensures Retains(Reset(b), limit, []) && Retains(Fresh, limit, []) && Retains(Unborn, limit, [])
  {
  }

  // ----- one poll -----

  /** On consecutive events the filter is a suffix. */
  lemma {:induction false} AfterIsSuffix(events: seq<StreamEvent>, first: nat, cursor: int)
    requires forall i :: 0 <= i < |events| ==> events[i].sequence == first + i
    ensures After(events, cursor) == events[Min(|events|, Max(0, cursor + 1 - first))..]
  {
    if events != [] {
      AfterIsSuffix(events[1..], first + 1, cursor);
      if events[0].sequence > cursor {
        assert [events[0]] + events[1..] == events;
      }
    }
  }

  /** How many retained events lie past the cursor. */
  function Available(b: Buffer, after: int): int {
    Max(0, b.sequence - Max(Effective(b, after), Oldest(b) - 1))
  }

  lemma SliceOfSuffix(events: seq<StreamEvent>, k: nat, batch: nat)
    requires k <= |events|
    ensures Slice(events[k..], batch) == events[k..k + Min(batch, |events| - k)]
  {
  }

  lemma OldestRetained(b: Buffer, limit: nat, log: seq<string>)
    requires Retains(b, limit, log)
    ensures |b.events| <= b.sequence && Oldest(b) == b.sequence - |b.events| + 1
    ensures forall i :: 0 <= i < |b.events| ==> b.events[i].sequence == Oldest(b) + i
  {
  }

  /** A poll returns the oldest retained events past the cursor, as a slice of the buffer. */
  lemma PollIsSlice(b: Buffer, limit: nat, log: seq<string>, after: int, batch: nat)
    requires Retains(b, limit, log)
    ensures var k := |b.events| - Available(b, after); var n := Min(batch, Available(b, after));
            0 <= k <= k + n <= |b.events| && Snapshot(b, after, batch).events == b.events[k..k + n]
  {
    hide After, Retains, Oldest, Effective, Slice;
    OldestRetained(b, limit, log);
    AfterIsSuffix(b.events, Oldest(b), Effective(b, after));
    var k := |b.events| - Available(b, after);
    assert k == Min(|b.events|, Max(0, Effective(b, after) + 1 - Oldest(b)));
    SliceOfSuffix(b.events, k, batch);
  }

  /** A poll delivers the next events in a row, beginning just past what was dropped. */
  lemma PollDeliversNext(b: Buffer, limit: nat, log: seq<string>, after: int, batch: nat)
    requires Retains(b, limit, log)
    ensures var r := Snapshot(b, after, batch); var effective := Effective(b, after);
            && |r.events| == Min(batch, Available(b, after))
            && r.generation == b.generation && r.ended == (b.ended && r.sequence >= b.sequence)
            && r.dropped == Max(0, Oldest(b) - 1 - effective)
            && (r.events == [] ==> r.sequence == effective)
            && (r.events != [] ==> r.sequence == effective + r.dropped + |r.events|)
            && forall i :: 0 <= i < |r.events| ==>
                 var s := effective + r.dropped + 1 + i;
                 b.start <= s <= b.sequence && r.events[i] == StreamEvent(s, log[s - b.start])
  {
    PollIsSlice(b, limit, log, after, batch);
    hide After, Slice;
  }

  /** Nothing past the cursor has been evicted. */
  predicate NothingLost(b: Buffer, after: int) { Oldest(b) - 1 <= Effective(b, after) }

  /** The effective cursor accounts for every event, as dropped or as delivered, exactly when both limits
    * are positive or nothing past it was evicted. A consumer of a zero-sized buffer or batch is told about
    * the same dropped events again and again. */
  lemma CursorConserves(b: Buffer, limit: nat, log: seq<string>, after: int, batch: nat)
    requires Retains(b, limit, log)
    ensures var r := Snapshot(b, after, batch);
            r.sequence == Effective(b, after) + r.dropped + |r.events|
            <==> NothingLost(b, after) || (limit >= 1 && batch >= 1)
  {
    PollDeliversNext(b, limit, log, after, batch);
  }

  /** With a buffer of size zero every poll reports the one pushed event as dropped, and the cursor stays. */
  lemma ZeroBufferRepeatsItself(content: string, batch: nat)
    ensures var b := Pushed(Fresh, content, 0);
            Retains(b, 0, [content]) && Snapshot(b, 0, batch) == Result(0, 1, 1, [], false)
  {
  }

  /** The end of a generation is reported exactly when it ended and no event lies past the cursor handed
    * back. The report then accounts for everything past the given cursor if and only if that cursor is not
    * ahead of the feed. */
  lemma EndedMeansDrained(b: Buffer, limit: nat, log: seq<string>, after: int, batch: nat)
    requires Retains(b, limit, log) && limit >= 1 && batch >= 1
    ensures var r := Snapshot(b, after, batch);
            && (r.ended <==> b.ended && r.dropped + |r.events| == Max(0, b.sequence - Effective(b, after)))
            && (r.ended ==> (r.dropped + |r.events| == b.sequence - Effective(b, after) <==> after <= b.sequence))
  {
    PollDeliversNext(b, limit, log, after, batch);
  }

  // ----- a consumer over one generation -----

  datatype Input = Push(content: string) | Poll | End

  /** A feed with its log, and a consumer that feeds back its cursor. */
  datatype Consumer = Consumer(buffer: Buffer, log: seq<string>, cursor: int, delivered: seq<StreamEvent>, dropped: nat)

  ghost function Consume(c: Consumer, limit: nat, batch: nat, input: Input): Consumer {
    match input
    case Push(content) =>
      c.(buffer := Pushed(c.buffer, content, limit), log := if c.buffer.ended then c.log else c.log + [content])
    case End => c.(buffer := c.buffer.(ended := true))
    case Poll =>
      var r := Snapshot(c.buffer, c.cursor, batch);
      c.(cursor := r.sequence, delivered := c.delivered + r.events, dropped := c.dropped + r.dropped)
  }

  ghost function ConsumeAll(c: Consumer, limit: nat, batch: nat, inputs: seq<Input>): Consumer
    decreases |inputs|
  {
    if inputs == [] then c
    else Consume(ConsumeAll(c, limit, batch, inputs[..|inputs| - 1]), limit, batch, inputs[|inputs| - 1])
  }

  /** Where the consumer's account began, and everything it has accounted for since. */
  ghost predicate Accounted(c: Consumer, limit: nat, origin: int) {
    && Retains(c.buffer, limit, c.log)
    && origin >= c.buffer.start - 1
    && Effective(c.buffer, c.cursor) == origin + c.dropped + |c.delivered|
    && (forall i :: 0 <= i < |c.delivered| ==>
          var s := c.delivered[i].sequence;
          c.buffer.start <= s <= c.buffer.sequence && origin < s <= c.cursor && c.delivered[i].content == c.log[s - c.buffer.start])
    && (forall i, j :: 0 <= i < j < |c.delivered| ==> c.delivered[i].sequence < c.delivered[j].sequence)
  }

  lemma PushKeepsAccount(c: Consumer, limit: nat, batch: nat, origin: int, content: string)
    requires Accounted(c, limit, origin)
    ensures Accounted(Consume(c, limit, batch, Push(content)), limit, origin)
  {
    PushRetains(c.buffer, limit, c.log, content);
  }

  lemma EndKeepsAccount(c: Consumer, limit: nat, batch: nat, origin: int)
    requires Accounted(c, limit, origin)
    ensures Accounted(Consume(c, limit, batch, End), limit, origin)
  {
  }

  lemma PollKeepsAccount(c: Consumer, limit: nat, batch: nat, origin: int)
    requires Accounted(c, limit, origin) && limit >= 1 && batch >= 1
    ensures Accounted(Consume(c, limit, batch, Poll), limit, origin)
  {
    PollDeliversNext(c.buffer, limit, c.log, c.cursor, batch);
    CursorConserves(c.buffer, limit, c.log, c.cursor, batch);
  }

  /** Under any interleaving of pushes and polls, a consumer that feeds back its cursor receives every
    * event at most once, in order and with its own content, and its cursor is exactly what it was
    * given plus everything delivered and everything reported dropped. */
  lemma {:induction false} StreamConserves(c: Consumer, limit: nat, batch: nat, inputs: seq<Input>, origin: int)
    requires Accounted(c, limit, origin) && limit >= 1 && batch >= 1
    ensures Accounted(ConsumeAll(c, limit, batch, inputs), limit, origin)
    decreases |inputs|
  {
    hide Accounted;
    if inputs != [] {
      StreamConserves(c, limit, batch, inputs[..|inputs| - 1], origin);
      var before := ConsumeAll(c, limit, batch, inputs[..|inputs| - 1]);
      match inputs[|inputs| - 1] {
        case Push(content) => PushKeepsAccount(before, limit, batch, origin, content);
        case Poll => PollKeepsAccount(before, limit, batch, origin);
        case End => EndKeepsAccount(before, limit, batch, origin);
      }
    }
  }

  /** A new consumer of a feed has accounted for everything up to its own cursor. */
  lemma NewConsumerAccounts(b: Buffer, limit: nat, log: seq<string>, after: int)
    requires Retains(b, limit, log)
    ensures Accounted(Consumer(b, log, after, [], 0), limit, Effective(b, after))
  {
  }

  /** When a poll reports the end, everything pushed past the starting cursor was delivered once or counted
    * as dropped, if and only if that cursor was not ahead of the whole feed. */
  lemma EndReportsEverything(b: Buffer, limit: nat, log: seq<string>, after: int, batch: nat, inputs: seq<Input>)
    requires Retains(b, limit, log) && limit >= 1 && batch >= 1
    requires var c := ConsumeAll(Consumer(b, log, after, [], 0), limit, batch, inputs);
             Snapshot(c.buffer, c.cursor, batch).ended
    ensures var c := ConsumeAll(Consumer(b, log, after, [], 0), limit, batch, inputs + [Poll]);
            && c.buffer.ended
            && (c.dropped + |c.delivered| == c.buffer.sequence - Effective(b, after) <==> after <= c.buffer.sequence)
            && (after > c.buffer.sequence ==> c.dropped == 0 && c.delivered == [])
  {
    var start := Consumer(b, log, after, [], 0);
    NewConsumerAccounts(b, limit, log, after);
    StreamConserves(start, limit, batch, inputs, Effective(b, after));
    StreamConserves(start, limit, batch, inputs + [Poll], Effective(b, after));
    CursorWithinStream(start, limit, batch, inputs);
    CursorWithinStream(start, limit, batch, inputs + [Poll]);
    assert (inputs + [Poll])[..|inputs|] == inputs;
  }

  /** A cursor passes the end of the feed only if it started there, and then it never moves. */
  lemma {:induction false} CursorWithinStream(c: Consumer, limit: nat, batch: nat, inputs: seq<Input>)
    requires Retains(c.buffer, limit, c.log)
    ensures var d := ConsumeAll(c, limit, batch, inputs);
            && Retains(d.buffer, limit, d.log) && d.buffer.start == c.buffer.start
            && c.buffer.sequence <= d.buffer.sequence && d.cursor <= Max(c.cursor, d.buffer.sequence)
    decreases |inputs|
  {
    if inputs != [] {
      CursorWithinStream(c, limit, batch, inputs[..|inputs| - 1]);
      var before := ConsumeAll(c, limit, batch, inputs[..|inputs| - 1]);
      match inputs[|inputs| - 1] {
        case Push(content) => PushRetains(before.buffer, limit, before.log, content);
        case Poll => PollDeliversNext(before.buffer, limit, before.log, before.cursor, batch);
        case End =>
      }
    }
  }

  // ----- the registry -----

  datatype Watcher = Watcher(entry: Id, after: int, settled: bool)

  datatype Registry = Registry(
    limit: nat, batch: nat, streams: map<Id, Buffer>, waiters: map<Id, set<nat>>, watchers: seq<Watcher>,
    logs: map<Id, seq<string>>)

  function SnapshotOf(r: Registry, entry: Id, after: int): Result {
    if entry in r.streams then Snapshot(r.streams[entry], after, r.batch) else Result(after, 0, 0, [], false)
  }

  /** A long poll has nothing to return yet. */
  predicate NothingNew(r: Registry, entry: Id, after: int) {
    SnapshotOf(r, entry, after).events == [] && !SnapshotOf(r, entry, after).ended
  }

  predicate Sleeping(r: Registry, entry: Id, w: nat) {
    w < |r.watchers| && r.watchers[w].entry == entry && !r.watchers[w].settled
  }

  predicate Listed(r: Registry, entry: Id, w: nat) { entry in r.waiters && w in r.waiters[entry] }

  /** Each feed retains its log; the waiter sets hold exactly the sleeping polls, at most one for each
    * entry, and nobody sleeps past something to return. */
  ghost predicate Valid(r: Registry) {
    && r.logs.Keys == r.streams.Keys
    && (forall entry :: entry in r.streams ==> Retains(r.streams[entry], r.limit, r.logs[entry]))
    && (forall entry: Id, w: nat {:trigger Listed(r, entry, w)} :: Listed(r, entry, w) <==> Sleeping(r, entry, w))
    && (forall entry: Id, v: nat, w: nat {:trigger Sleeping(r, entry, v), Sleeping(r, entry, w)} ::
          Sleeping(r, entry, v) && Sleeping(r, entry, w) ==> v == w)
    && (forall entry: Id, w: nat {:trigger Sleeping(r, entry, w)} :: Sleeping(r, entry, w) ==> NothingNew(r, entry, r.watchers[w].after))
  }

  // ----- steps of the registry -----

  datatype Request =
    | PushEvent(entry: Id, content: string)
    | ResetStream(entry: Id)
    | EndStream(entry: Id)
    | DeleteEntry(entry: Id)
    | Watch(entry: Id, after: int, patient: bool, handoff: bool)
    | WaitExpires(watcher: nat)

  /** Finishes every poll of the entry's waiter set and clears the set. */
  function Notified(r: Registry, entry: Id): Registry {
    if entry !in r.waiters then r
    else
      r.(watchers := seq(|r.watchers|, w requires 0 <= w < |r.watchers| =>
           if w in r.waiters[entry] then r.watchers[w].(settled := true) else r.watchers[w]),
         waiters := r.waiters[entry := {}])
  }

  function WithStream(r: Registry, entry: Id, b: Buffer, log: seq<string>): Registry {
    r.(streams := r.streams[entry := b], logs := r.logs[entry := log])
  }

  function LogOf(r: Registry, entry: Id): seq<string> { if entry in r.logs then r.logs[entry] else [] }

  function Step(r: Registry, q: Request): Registry {
    match q
    case PushEvent(entry, content) =>
      var b := if entry in r.streams then r.streams[entry] else Fresh;
      if b.ended then r else Notified(WithStream(r, entry, Pushed(b, content, r.limit), LogOf(r, entry) + [content]), entry)
    case ResetStream(entry) =>
      var b := if entry in r.streams then r.streams[entry] else Unborn;
      Notified(WithStream(r, entry, Reset(b), []), entry)
    case EndStream(entry) =>
      if entry !in r.streams || r.streams[entry].ended then r
      else Notified(WithStream(r, entry, r.streams[entry].(ended := true), LogOf(r, entry)), entry)
    case DeleteEntry(entry) =>
      Notified(r, entry).(streams := r.streams - {entry}, logs := r.logs - {entry}, waiters := r.waiters - {entry})
    case Watch(entry, after, patient, handoff) =>
      if handoff || !patient || !NothingNew(r, entry, after) then r
      else
        var alone := Notified(r, entry);
        var others := if entry in alone.waiters then alone.waiters[entry] else {};
        alone.(watchers := alone.watchers + [Watcher(entry, after, false)],
               waiters := alone.waiters[entry := others + {|alone.watchers|}])
    case WaitExpires(w) =>
      if w >= |r.watchers| || r.watchers[w].settled then r
      else
        var entry := r.watchers[w].entry;
        r.(watchers := r.watchers[w := r.watchers[w].(settled := true)],
           waiters := if entry in r.waiters then r.waiters[entry := r.waiters[entry] - {w}] else r.waiters)
  }

  // ----- no poll sleeps past something to return -----

  lemma NotifiedWakesEntry(r: Registry, entry: Id)
    requires forall e: Id, w: nat {:trigger Listed(r, e, w)} :: Listed(r, e, w) <==> Sleeping(r, e, w)
    ensures var n := Notified(r, entry);
            && n.streams == r.streams && n.logs == r.logs && |n.watchers| == |r.watchers|
            && (forall w: nat :: !Sleeping(n, entry, w) && !Listed(n, entry, w))
            && (forall e: Id, w: nat :: e != entry ==> (Sleeping(n, e, w) <==> Sleeping(r, e, w)) && (Listed(n, e, w) <==> Listed(r, e, w)))
            && (forall w :: 0 <= w < |r.watchers| ==> n.watchers[w].entry == r.watchers[w].entry && n.watchers[w].after == r.watchers[w].after)
  {
    var n := Notified(r, entry);
    forall e: Id, w: nat
      ensures e == entry ==> !Sleeping(n, e, w)
      ensures e != entry ==> (Sleeping(n, e, w) <==> Sleeping(r, e, w))
    {
      assert Listed(r, e, w) <==> Sleeping(r, e, w);
      assert Listed(r, entry, w) <==> Sleeping(r, entry, w);
    }
  }

  /** A registry that differs from a valid one in a single feed, whose polls were all woken. */
  lemma WokenFeedIsValid(r: Registry, next: Registry, entry: Id)
    requires Valid(r) && next.limit == r.limit && next.batch == r.batch
    requires next.logs.Keys == next.streams.Keys
    requires forall e :: e in next.streams ==> if e == entry then Retains(next.streams[e], r.limit, next.logs[e])
                                               else e in r.streams && next.streams[e] == r.streams[e] && next.logs[e] == r.logs[e]
    requires forall e :: e in r.streams && e != entry ==> e in next.streams
    requires next.watchers == Notified(r, entry).watchers
    requires forall e: Id, w: nat :: Listed(next, e, w) <==> Listed(Notified(r, entry), e, w)
    ensures Valid(next) && forall w: nat :: !Sleeping(next, entry, w)
  {
    NotifiedWakesEntry(r, entry);
    var n := Notified(r, entry);
    forall e: Id, w: nat
      ensures Listed(next, e, w) <==> Sleeping(next, e, w)
      ensures Sleeping(next, e, w) ==> e != entry && Sleeping(r, e, w) && next.watchers[w].after == r.watchers[w].after
    {
      assert Listed(r, e, w) <==> Sleeping(r, e, w);
      assert Listed(n, e, w) <==> Listed(next, e, w);
      assert Sleeping(next, e, w) <==> Sleeping(n, e, w);
    }
    forall e: Id, w: nat | Sleeping(next, e, w)
      ensures NothingNew(next, e, next.watchers[w].after)
    {
      assert NothingNew(r, e, r.watchers[w].after);
    }
  }

  lemma WatchKeepsValid(r: Registry, entry: Id, after: int)
    requires Valid(r) && NothingNew(r, entry, after)
    ensures Valid(Step(r, Watch(entry, after, true, false)))
    ensures Sleeping(Step(r, Watch(entry, after, true, false)), entry, |r.watchers|)
  {
    var next := Step(r, Watch(entry, after, true, false));
    var alone := Notified(r, entry);
    WokenFeedIsValid(r, alone, entry);
    forall e: Id, w: nat
      ensures Listed(next, e, w) <==> Sleeping(next, e, w)
      ensures Sleeping(next, e, w) ==> NothingNew(next, e, next.watchers[w].after)
      ensures Sleeping(next, e, w) ==> if w == |r.watchers| then e == entry else e != entry && Sleeping(alone, e, w)
    {
      assert Listed(alone, e, w) <==> Sleeping(alone, e, w);
      if Sleeping(alone, e, w) { assert NothingNew(alone, e, alone.watchers[w].after); }
    }
  }

  lemma ExpiryKeepsValid(r: Registry, w: nat)
    requires Valid(r) && w < |r.watchers| && !r.watchers[w].settled
    ensures Valid(Step(r, WaitExpires(w)))
  {
    var next := Step(r, WaitExpires(w));
    assert Sleeping(r, r.watchers[w].entry, w);
    assert Listed(r, r.watchers[w].entry, w);
    forall e: Id, v: nat
      ensures Listed(next, e, v) <==> Sleeping(next, e, v)
      ensures Sleeping(next, e, v) ==> v != w && Sleeping(r, e, v) && NothingNew(next, e, next.watchers[v].after)
    {
      assert Listed(r, e, v) <==> Sleeping(r, e, v);
      if Sleeping(r, e, v) { assert NothingNew(r, e, r.watchers[v].after); }
    }
  }

  lemma PushKeepsValid(r: Registry, entry: Id, content: string)
    requires Valid(r)
    ensures Valid(Step(r, PushEvent(entry, content)))
  {
    var b := if entry in r.streams then r.streams[entry] else Fresh;
    PushRetains(b, r.limit, LogOf(r, entry), content);
    hide Retains;
    if !b.ended { WokenFeedIsValid(r, Step(r, PushEvent(entry, content)), entry); }
  }

  lemma ResetKeepsValid(r: Registry, entry: Id)
    requires Valid(r)
    ensures Valid(Step(r, ResetStream(entry)))
  {
    var b := if entry in r.streams then r.streams[entry] else Unborn;
    ResetRetains(b, r.limit, LogOf(r, entry));
    hide Retains;
    WokenFeedIsValid(r, Step(r, ResetStream(entry)), entry);
  }

  lemma DeleteKeepsValid(r: Registry, entry: Id)
    requires Valid(r)
    ensures Valid(Step(r, DeleteEntry(entry)))
  {
    var next := Step(r, DeleteEntry(entry));
    NotifiedWakesEntry(r, entry);
    assert forall e: Id, w: nat :: Listed(next, e, w) <==> Listed(Notified(r, entry), e, w);
    WokenFeedIsValid(r, next, entry);
  }

  lemma EndKeepsValid(r: Registry, entry: Id)
    requires Valid(r)
    ensures Valid(Step(r, EndStream(entry)))
  {
    var next := Step(r, EndStream(entry));
    if next != r { WokenFeedIsValid(r, next, entry); }
  }

  lemma StepKeepsValid(r: Registry, q: Request)
    requires Valid(r)
    ensures Valid(Step(r, q)) && Step(r, q).limit == r.limit && Step(r, q).batch == r.batch
  {
    hide Valid;
    match q {
      case PushEvent(entry, content) => PushKeepsValid(r, entry, content);
      case ResetStream(entry) => ResetKeepsValid(r, entry);
      case EndStream(entry) => EndKeepsValid(r, entry);
      case DeleteEntry(entry) => DeleteKeepsValid(r, entry);
      case Watch(entry, after, patient, handoff) =>
        if !handoff && patient && NothingNew(r, entry, after) { WatchKeepsValid(r, entry, after); }
      case WaitExpires(w) => if w < |r.watchers| && !r.watchers[w].settled { ExpiryKeepsValid(r, w); }
    }
  }

  function Run(r: Registry, requests: seq<Request>): Registry
    decreases |requests|
  {
    if requests == [] then r else Step(Run(r, requests[..|requests| - 1]), requests[|requests| - 1])
  }

  /** In every reachable registry each feed holds the end of its generation's log, an entry has at
    * most one sleeping poll, and none sleeps while its feed has something to return. */
  lemma {:induction false} NoPollSleepsPastNews(limit: nat, batch: nat, requests: seq<Request>)
    ensures var r := Run(Registry(limit, batch, map[], map[], [], map[]), requests);
            Valid(r) && r.limit == limit && r.batch == batch
    decreases |requests|
  {
    if requests != [] {
      NoPollSleepsPastNews(limit, batch, requests[..|requests| - 1]);
      StepKeepsValid(Run(Registry(limit, batch, map[], map[], [], map[]), requests[..|requests| - 1]), requests[|requests| - 1]);
    }
  }

  lemma RunExtends(r: Registry, requests: seq<Request>, q: Request)
    ensures Run(r, requests + [q]) == Step(Run(r, requests), q)
  {
    assert (requests + [q])[..|requests|] == requests;
  }

  /** The same feed later: no number is taken back or given again, and a new generation starts past every
    * number of the one before it. */
  ghost predicate FeedLater(b: Buffer, next: Buffer) {
    && b.sequence <= next.sequence && b.generation <= next.generation
    && (next.generation == b.generation ==> next.start == b.start && (b.ended ==> next == b))
    && (next.generation > b.generation ==> next.start > b.sequence)
  }

  lemma StepFeedLater(r: Registry, q: Request, entry: Id)
    requires Valid(r) && entry in r.streams && q != DeleteEntry(entry)
    ensures entry in Step(r, q).streams && FeedLater(r.streams[entry], Step(r, q).streams[entry])
    ensures q == ResetStream(entry) ==>
              var b, next := r.streams[entry], Step(r, q).streams[entry];
              next.generation == b.generation + 1 && next.events == [] && !next.ended && next.sequence == b.sequence
  {
  }

  /** Over every run without a deletion a feed numbers its events upwards through all its generations, and an
    * ended generation never changes again. */
  lemma {:induction false} NumbersAreNeverReused(r: Registry, requests: seq<Request>, entry: Id)
    requires Valid(r) && entry in r.streams && forall i :: 0 <= i < |requests| ==> requests[i] != DeleteEntry(entry)
    ensures Valid(Run(r, requests))
    ensures entry in Run(r, requests).streams && FeedLater(r.streams[entry], Run(r, requests).streams[entry])
    decreases |requests|
  {
    hide Step, Valid;
    if requests != [] {
      var before := Run(r, requests[..|requests| - 1]);
      NumbersAreNeverReused(r, requests[..|requests| - 1], entry);
      StepKeepsValid(before, requests[|requests| - 1]);
      StepFeedLater(before, requests[|requests| - 1], entry);
      GenerationHasStart(before, entry);
    }
  }

  lemma GenerationHasStart(r: Registry, entry: Id)
    requires Valid(r) && entry in r.streams
    ensures r.streams[entry].start <= r.streams[entry].sequence + 1
  {
    assert Retains(r.streams[entry], r.limit, r.logs[entry]);
  }

  function TwoPushes(entry: Id): seq<Request> { [PushEvent(entry, "a")] + [PushEvent(entry, "b")] }

  lemma PushIntoRoom(b: Buffer, content: string, limit: nat)
    requires !b.ended && |b.events| < limit
    ensures Pushed(b, content, limit) == b.(sequence := b.sequence + 1, events := b.events + [StreamEvent(b.sequence + 1, content)])
  {
  }

  lemma TwoPushesRetained(entry: Id, limit: nat, batch: nat)
    requires limit >= 2
    ensures var start := Registry(limit, batch, map[], map[], [], map[]);
            Run(start, TwoPushes(entry)) ==
            start.(streams := map[entry := Buffer(2, 1, 1, [StreamEvent(1, "a"), StreamEvent(2, "b")], false)],
                   logs := map[entry := ["a", "b"]])
  {
    var start := Registry(limit, batch, map[], map[], [], map[]);
    RunExtends(start, [], PushEvent(entry, "a"));
    assert [] + [PushEvent(entry, "a")] == [PushEvent(entry, "a")];
    var one := Step(start, PushEvent(entry, "a"));
    PushIntoRoom(Fresh, "a", limit);
    assert [] + [StreamEvent(1, "a")] == [StreamEvent(1, "a")] && LogOf(start, entry) + ["a"] == ["a"];
    assert one == start.(streams := map[entry := Buffer(1, 1, 1, [StreamEvent(1, "a")], false)], logs := map[entry := ["a"]]);
    RunExtends(start, [PushEvent(entry, "a")], PushEvent(entry, "b"));
    var two := Step(one, PushEvent(entry, "b"));
    PushIntoRoom(one.streams[entry], "b", limit);
    assert [StreamEvent(1, "a")] + [StreamEvent(2, "b")] == [StreamEvent(1, "a"), StreamEvent(2, "b")];
    assert LogOf(one, entry) + ["b"] == ["a", "b"];
    assert two.streams == map[entry := Buffer(2, 1, 1, [StreamEvent(1, "a"), StreamEvent(2, "b")], false)];
    assert two.logs == map[entry := ["a", "b"]];
  }

  function Restart(entry: Id): seq<Request> {
    TwoPushes(entry) + [DeleteEntry(entry)] + [PushEvent(entry, "c")] + [EndStream(entry)]
  }

  lemma RestartedFeed(entry: Id, limit: nat, batch: nat)
    requires limit >= 2
    ensures var start := Registry(limit, batch, map[], map[], [], map[]); var r := Run(start, Restart(entry));
            r.batch == batch && r.streams == map[entry := Buffer(1, 1, 1, [StreamEvent(1, "c")], true)]
  {
    var start := Registry(limit, batch, map[], map[], [], map[]);
    TwoPushesRetained(entry, limit, batch);
    var pushed := Run(start, TwoPushes(entry));
    RunExtends(start, TwoPushes(entry), DeleteEntry(entry));
    var deleted := Step(pushed, DeleteEntry(entry));
    assert deleted.streams == map[] && deleted.logs == map[] && deleted.waiters == map[] && deleted.watchers == [];
    RunExtends(start, TwoPushes(entry) + [DeleteEntry(entry)], PushEvent(entry, "c"));
    var restarted := Step(deleted, PushEvent(entry, "c"));
    PushIntoRoom(Fresh, "c", limit);
    assert [] + [StreamEvent(1, "c")] == [StreamEvent(1, "c")];
    assert restarted.streams == map[entry := Buffer(1, 1, 1, [StreamEvent(1, "c")], false)];
    RunExtends(start, TwoPushes(entry) + [DeleteEntry(entry)] + [PushEvent(entry, "c")], EndStream(entry));
  }

  /** A deleted feed starts over at the first number. A consumer that still holds its cursor from before is
    * told that the new feed ended, although it was neither given the new event nor told of a drop. */
  lemma StaleCursorEndsEarly(entry: Id, limit: nat, batch: nat)
    requires limit >= 2 && batch >= 2
    ensures var start := Registry(limit, batch, map[], map[], [], map[]);
            && SnapshotOf(Run(start, TwoPushes(entry)), entry, 0).sequence == 2
            && SnapshotOf(Run(start, Restart(entry)), entry, 2) == Result(2, 1, 0, [], true)
  {
    var start := Registry(limit, batch, map[], map[], [], map[]);
    TwoPushesRetained(entry, limit, batch);
    var pushed := Run(start, TwoPushes(entry));
    PollDeliversNext(pushed.streams[entry], limit, ["a", "b"], 0, batch);
    RestartedFeed(entry, limit, batch);
    PollDeliversNext(Buffer(1, 1, 1, [StreamEvent(1, "c")], true), limit, ["c"], 2, batch);
  }

  /** A push to a live feed, a reset, an end or a deletion wakes the poll that sleeps on the entry. */
  lemma ChangesWakeTheSleeper(r: Registry, q: Request, w: nat)
    requires Valid(r) && !q.Watch? && !q.WaitExpires?
    requires Sleeping(r, q.entry, w)
    requires q.PushEvent? || q.EndStream? ==> q.entry in r.streams && !r.streams[q.entry].ended
    ensures Step(r, q).watchers[w].settled
  {
    assert Listed(r, q.entry, w);
  }

  // ----- the registry's fields, updated in place -----

  class AgentStreamRegistry {
    const bufferLimit: nat
    const maxBatch: nat
    var streams: map<Id, Buffer>
    var waiters: map<Id, set<nat>>
    var watchers: seq<Watcher>
    ghost var logs: map<Id, seq<string>>

    ghost function State(): Registry
      reads this
    {
      Registry(bufferLimit, maxBatch, streams, waiters, watchers, logs)
    }

    constructor (limit: nat, batch: nat)
      ensures Valid(State()) && State() == Registry(limit, batch, map[], map[], [], map[])
    {
      bufferLimit, maxBatch := limit, batch;
      streams, waiters, logs := map[], map[], map[];
      watchers := [];
    }

    /** Resolves every waiter of the entry and clears its set. */
    method NotifyWaiters(entry: Id)
      requires forall e: Id, w: nat {:trigger Listed(State(), e, w)} :: Listed(State(), e, w) ==> w < |watchers|
      modifies this`watchers, this`waiters
      ensures State() == Notified(old(State()), entry)
    {
      if entry !in waiters { return; }
      var all := waiters[entry];
      var rest := all;
      assert forall w: nat :: w in all ==> Listed(State(), entry, w);
      while rest != {}
        invariant rest <= all && |watchers| == |old(watchers)|
        invariant forall w :: 0 <= w < |watchers| ==>
                    watchers[w] == if w in all && w !in rest then old(watchers)[w].(settled := true) else old(watchers)[w]
        modifies this`watchers
        decreases |rest|
      {
        var w :| w in rest;
        watchers := watchers[w := watchers[w].(settled := true)];
        rest := rest - {w};
      }
      waiters := waiters[entry := {}];
      assert watchers == Notified(old(State()), entry).watchers;
    }

    method PushOne(entry: Id, content: string)
      requires Valid(State())
      modifies this
      ensures Valid(State()) && State() == Step(old(State()), PushEvent(entry, content))
    {
      hide Valid, Notified, Retains;
      StepKeepsValid(State(), PushEvent(entry, content));
      var buffer := if entry in streams then streams[entry] else Fresh;
      if buffer.ended { return; }
      logs := logs[entry := LogOf(State(), entry) + [content]];
      var sequence := buffer.sequence + 1;
      var events := buffer.events + [StreamEvent(sequence, content)];
      if |events| > bufferLimit { events := events[|events| - bufferLimit..]; }
      streams := streams[entry := buffer.(sequence := sequence, events := events)];
      ListedExist(old(State()), State());
      NotifyWaiters(entry);
    }

    method ResetOne(entry: Id)
      requires Valid(State())
      modifies this
      ensures Valid(State()) && State() == Step(old(State()), ResetStream(entry))
    {
      hide Valid, Notified, Retains;
      StepKeepsValid(State(), ResetStream(entry));
      var buffer := if entry in streams then streams[entry] else Unborn;
      logs := logs[entry := []];
      streams := streams[entry := Buffer(buffer.sequence, buffer.generation + 1, buffer.sequence + 1, [], false)];
      ListedExist(old(State()), State());
      NotifyWaiters(entry);
    }

    method EndOne(entry: Id)
      requires Valid(State())
      modifies this
      ensures Valid(State()) && State() == Step(old(State()), EndStream(entry))
    {
      StepKeepsValid(State(), EndStream(entry));
      if entry !in streams || streams[entry].ended { return; }
      streams := streams[entry := streams[entry].(ended := true)];
      assert logs[entry := logs[entry]] == logs;
      ListedExist(old(State()), State());
      NotifyWaiters(entry);
    }

    method Delete(entry: Id)
      requires Valid(State())
      modifies this
      ensures Valid(State()) && State() == Step(old(State()), DeleteEntry(entry))
    {
      StepKeepsValid(State(), DeleteEntry(entry));
      ListedExist(State(), State());
      NotifyWaiters(entry);
      streams, waiters, logs := streams - {entry}, waiters - {entry}, logs - {entry};
      assert waiters == old(waiters) - {entry};
    }

    /** A poll up to its await: it returns at once, or replaces the poll that sleeps on the entry. */
    method WatchOnce(entry: Id, after: int, patient: bool, handoff: bool) returns (current: Result, sleeper: Option<nat>)
      requires Valid(State())
      modifies this
      ensures Valid(State()) && State() == Step(old(State()), Watch(entry, after, patient, handoff))
      ensures current == SnapshotOf(old(State()), entry, after)
      ensures sleeper.Some? ==> current.events == [] && !current.ended && Sleeping(State(), entry, sleeper.value)
    {
      StepKeepsValid(State(), Watch(entry, after, patient, handoff));
      current := if entry in streams then Snapshot(streams[entry], after, maxBatch) else Result(after, 0, 0, [], false);
      sleeper := None;
      if !handoff && current.events == [] && !current.ended && patient {
        ListedExist(State(), State());
        NotifyWaiters(entry);
        var own := if entry in waiters then waiters[entry] else {};
        sleeper := Some(|watchers|);
        waiters := waiters[entry := own + {|watchers|}];
        watchers := watchers + [Watcher(entry, after, false)];
      }
    }

    method ExpireWait(w: nat)
      requires Valid(State()) && w < |watchers|
      modifies this
      ensures Valid(State()) && State() == Step(old(State()), WaitExpires(w))
    {
      StepKeepsValid(State(), WaitExpires(w));
      if watchers[w].settled { return; }
      var entry := watchers[w].entry;
      watchers := watchers[w := watchers[w].(settled := true)];
      if entry in waiters { waiters := waiters[entry := waiters[entry] - {w}]; }
    }
  }

  /** Listed polls exist, whatever happened to the feeds. */
  lemma ListedExist(before: Registry, r: Registry)
    requires Valid(before) && r.waiters == before.waiters && r.watchers == before.watchers
    ensures forall e: Id, w: nat {:trigger Listed(r, e, w)} :: Listed(r, e, w) ==> w < |r.watchers|
  {
    forall e: Id, w: nat | Listed(r, e, w)
      ensures w < |r.watchers|
    {
      assert Listed(before, e, w);
      assert Sleeping(before, e, w);
    }
  }
}
