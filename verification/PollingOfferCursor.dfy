/**
  * Cursor accounting over the full log of one activation: an offer is always recorded at the cursor
  * the acknowledgements before it have reached, and only the tail can move that cursor.
  */
module PollingOfferCursor {
  import opened CustodyTables
  import opened PollingActivations
  import opened PollingOffers
  import opened PollingOfferLog
  import opened Text
  import opened Wrappers

  /** The cursor reached from `start` by the acknowledged offers of a log. */
  ghost function Reached(start: string, entries: seq<Logged>): string {
    if entries == [] then start
    else
      var last := entries[|entries| - 1].offer;
      if last.acknowledgedAt.Some? then last.frontier else Reached(start, entries[..|entries| - 1])
  }

  /** What an insert checks of one offer, wherever the worker cursor stands. */
  ghost predicate RecordableAt(e: Logged) {
    && NonBlank(e.id) && OfferAccepted(e.offer)
    && CursorValue(e.offer.input) <= CursorValue(e.offer.frontier)
  }

  ghost predicate Recordable(entries: seq<Logged>) {
    forall i {:trigger RecordableAt(entries[i])} :: 0 <= i < |entries| ==> RecordableAt(entries[i])
  }

  ghost predicate AdvancesAt(start: string, entries: seq<Logged>, i: nat)
    requires i < |entries|
  {
    RecordableAt(entries[i]) && entries[i].offer.input == Reached(start, entries[..i])
  }

  /** Every offer was recorded exactly where the acknowledgements before it had led. */
  ghost predicate Advances(start: string, entries: seq<Logged>) {
    && IsCursor(start)
    && forall i {:trigger AdvancesAt(start, entries, i)} :: 0 <= i < |entries| ==> AdvancesAt(start, entries, i)
  }

  lemma {:induction false} ReachedIsCursor(start: string, entries: seq<Logged>)
    requires Advances(start, entries)
    ensures IsCursor(Reached(start, entries))
    decreases |entries|
  {
    if entries != [] {
      assert AdvancesAt(start, entries, |entries| - 1);
      AdvancesPrefix(start, entries, |entries| - 1);
      ReachedIsCursor(start, entries[..|entries| - 1]);
    }
  }

  lemma AdvancesPrefix(start: string, entries: seq<Logged>, n: nat)
    requires Advances(start, entries) && n <= |entries|
    ensures Advances(start, entries[..n])
  {
    forall i | 0 <= i < n
      ensures AdvancesAt(start, entries[..n], i)
    {
      assert AdvancesAt(start, entries, i);
      assert entries[..n][..i] == entries[..i];
    }
  }

  /** Along the log the reached cursor never goes back numerically. */
  lemma {:induction false} ReachedMonotone(start: string, entries: seq<Logged>, n: nat)
    requires Advances(start, entries) && n <= |entries|
    ensures IsCursor(Reached(start, entries[..n])) && IsCursor(Reached(start, entries))
    ensures CursorValue(Reached(start, entries[..n])) <= CursorValue(Reached(start, entries))
    decreases |entries|
  {
    AdvancesPrefix(start, entries, n);
    ReachedIsCursor(start, entries[..n]);
    ReachedIsCursor(start, entries);
    if n < |entries| {
      var prefix := entries[..|entries| - 1];
      AdvancesPrefix(start, entries, |entries| - 1);
      ReachedMonotone(start, prefix, n);
      assert prefix[..n] == entries[..n];
      assert AdvancesAt(start, entries, |entries| - 1);
    } else {
      assert entries[..n] == entries;
    }
  }

  /** What the accounting says of neighbours and of the tail, for the cursor the log has reached. */
  lemma TailAndNeighbours(start: string, entries: seq<Logged>, i: nat)
    requires Advances(start, entries) && i < |entries|
    ensures i == 0 ==> entries[i].offer.input == start
    ensures i > 0 ==>
              entries[i].offer.input ==
              if entries[i - 1].offer.acknowledgedAt.Some? then entries[i - 1].offer.frontier else entries[i - 1].offer.input
    ensures i == |entries| - 1 ==>
              Reached(start, entries) ==
              if entries[i].offer.acknowledgedAt.Some? then entries[i].offer.frontier else entries[i].offer.input
  {
    assert AdvancesAt(start, entries, i);
    if i > 0 {
      assert AdvancesAt(start, entries, i - 1);
      assert entries[..i][..i - 1] == entries[..i - 1];
    }
  }

  lemma AppendAdvances(start: string, log: Log, id: Id, offer: Offer)
    requires Advances(start, log.entries)
    requires NonBlank(id) && OfferAccepted(offer) && CursorValue(offer.input) <= CursorValue(offer.frontier)
    requires offer.input == Reached(start, log.entries) && offer.acknowledgedAt.None?
    ensures Advances(start, Appended(log, id, offer).entries)
    ensures Reached(start, Appended(log, id, offer).entries) == Reached(start, log.entries)
  {
    var next, n := Appended(log, id, offer).entries, |log.entries|;
    assert next[..n] == log.entries;
    forall i | 0 <= i <= n
      ensures AdvancesAt(start, next, i)
    {
      if i < n {
        assert AdvancesAt(start, log.entries, i);
        assert next[..i] == log.entries[..i];
      }
    }
  }

  lemma AppendStaysRecordable(log: Log, id: Id, offer: Offer)
    requires Recordable(log.entries) && RecordableAt(Logged(id, offer))
    ensures Recordable(Appended(log, id, offer).entries)
  {
    var next := Appended(log, id, offer).entries;
    forall i | 0 <= i < |next|
      ensures RecordableAt(next[i])
    {
      if i < |log.entries| { assert RecordableAt(log.entries[i]); }
    }
  }

  // ----- acknowledging the tail -----

  ghost function WithTailAcknowledged(log: Log, at: nat): Log
    requires log.entries != []
  {
    var n := |log.entries| - 1;
    log.(entries := log.entries[n := log.entries[n].(offer := log.entries[n].offer.(acknowledgedAt := Some(at)))])
  }

  lemma AcknowledgeStaysRecordable(log: Log, at: nat)
    requires Recordable(log.entries) && log.entries != []
    requires log.entries[|log.entries| - 1].offer.createdAt <= at
    ensures Recordable(WithTailAcknowledged(log, at).entries)
  {
    var next := WithTailAcknowledged(log, at).entries;
    forall i | 0 <= i < |next|
      ensures RecordableAt(next[i])
    {
      assert RecordableAt(log.entries[i]);
    }
  }

  lemma AcknowledgeAdvances(start: string, log: Log, at: nat)
    requires Advances(start, log.entries) && log.entries != []
    requires log.entries[|log.entries| - 1].offer.acknowledgedAt.None?
    requires log.entries[|log.entries| - 1].offer.createdAt <= at
    ensures var next := WithTailAcknowledged(log, at).entries;
            && Advances(start, next)
            && Reached(start, next) == log.entries[|log.entries| - 1].offer.frontier
            && Reached(start, log.entries) == log.entries[|log.entries| - 1].offer.input
            && IsCursor(Reached(start, log.entries)) && IsCursor(Reached(start, next))
            && CursorValue(Reached(start, log.entries)) <= CursorValue(Reached(start, next))
  {
    var n := |log.entries| - 1;
    var next := WithTailAcknowledged(log, at).entries;
    forall i | 0 <= i <= n
      ensures AdvancesAt(start, next, i)
    {
      assert AdvancesAt(start, log.entries, i);
      assert next[..i] == log.entries[..i];
    }
    assert AdvancesAt(start, log.entries, n);
  }

  lemma AcknowledgeShows(rows: Rows, activation: Id, log: Log, at: nat)
    requires Linked(log.entries, activation) && Distinct(log) && Shows(rows, activation, log)
    requires log.first < |log.entries|
    ensures var id := log.entries[|log.entries| - 1].id;
            && id in rows
            && Shows(rows[id := rows[id].(acknowledgedAt := Some(at))], activation, WithTailAcknowledged(log, at))
  {
    var n := |log.entries| - 1;
    var id := log.entries[n].id;
    assert Retained(log, n);
    ShownFacts(rows, activation, log, n);
    var next := WithTailAcknowledged(log, at);
    var after := rows[id := rows[id].(acknowledgedAt := Some(at))];
    forall i | Retained(next, i)
      ensures next.entries[i].id in after && after[next.entries[i].id] == Shown(next, i)
    {
      assert Retained(log, i);
      assert rows[log.entries[i].id] == Shown(log, i);
    }
    forall other | other in after && after[other].activation == activation
      ensures exists i :: Retained(next, i) && next.entries[i].id == other
    {
      var i :| Retained(log, i) && log.entries[i].id == other;
      assert Retained(next, i);
    }
  }

  lemma AcknowledgeStaysLinked(activation: Id, log: Log, at: nat)
    requires Linked(log.entries, activation) && Distinct(log) && log.entries != []
    ensures Linked(WithTailAcknowledged(log, at).entries, activation) && Distinct(WithTailAcknowledged(log, at))
  {
    var next := WithTailAcknowledged(log, at);
    forall i | 0 <= i < |next.entries|
      ensures LinkedAt(next.entries, activation, i)
    {
      assert LinkedAt(log.entries, activation, i);
    }
    forall i, j | Retained(next, i) && Retained(next, j) && next.entries[i].id == next.entries[j].id
      ensures i == j
    {
      assert Retained(log, i) && Retained(log, j);
    }
  }

  /** Acknowledging the tail row acknowledges the last log entry and nothing else. */
  lemma AcknowledgeRefines(db: Db, activation: Id, log: Log, at: nat)
    requires Refines(db, activation, log) && Closed(db.offers) && log.entries != []
    ensures var id := log.entries[|log.entries| - 1].id;
            && id in db.offers
            && var after := db.offers[id := db.offers[id].(acknowledgedAt := Some(at))];
               && Refines(db.(offers := after), activation, WithTailAcknowledged(log, at))
               && Closed(after) && OthersThan(after, activation) == OthersThan(db.offers, activation)
  {
    AcknowledgeStaysLinked(activation, log, at);
    AcknowledgeShows(db.offers, activation, log, at);
    var n := |log.entries| - 1;
    assert Retained(log, n);
    ShownFacts(db.offers, activation, log, n);
    var id := log.entries[n].id;
    var after := db.offers[id := db.offers[id].(acknowledgedAt := Some(at))];
    forall other | other in after
      ensures ClosedAt(after, other)
    {
      assert ClosedAt(db.offers, other);
    }
  }
}
