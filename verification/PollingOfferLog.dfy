/**
  * The compacted offer journal refines an append-only log. For every activation the log lists each
  * offer ever recorded, with the predecessor it was recorded with; `first` is the oldest entry that
  * is still a row.
  */
module PollingOfferLog {
  import opened CustodyTables
  import opened PollingActivations
  import opened PollingOffers
  import opened Text
  import opened Wrappers

  datatype Logged = Logged(id: Id, offer: Offer)

  datatype Log = Log(entries: seq<Logged>, first: nat)

  ghost predicate LinkedAt(log: seq<Logged>, activation: Id, i: nat)
    requires i < |log|
  {
    && log[i].offer.activation == activation
    && log[i].offer.predecessor == (if i == 0 then None else Some(log[i - 1].id))
  }

  ghost predicate Linked(log: seq<Logged>, activation: Id) {
    forall i {:trigger LinkedAt(log, activation, i)} :: 0 <= i < |log| ==> LinkedAt(log, activation, i)
  }

  /** The row a log entry leaves behind: the oldest retained one has lost its predecessor. */
  ghost function Shown(log: Log, i: nat): Offer
    requires i < |log.entries|
  {
    if i == log.first then log.entries[i].offer.(predecessor := None) else log.entries[i].offer
  }

  ghost predicate Retained(log: Log, i: int) { log.first <= i < |log.entries| }

  ghost predicate Distinct(log: Log) {
    forall i, j :: Retained(log, i) && Retained(log, j) && log.entries[i].id == log.entries[j].id ==> i == j
  }

  ghost predicate Shows(rows: Rows, activation: Id, log: Log) {
    && (forall i :: Retained(log, i) ==> log.entries[i].id in rows && rows[log.entries[i].id] == Shown(log, i))
    && (forall id :: id in rows && rows[id].activation == activation ==> exists i :: Retained(log, i) && log.entries[i].id == id)
  }

  ghost function Anchor(log: Log): Option<Id>
    requires log.first <= |log.entries|
  {
    if log.first == 0 then None else Some(log.entries[log.first - 1].id)
  }

  /** Every predecessor names a row of the same activation. */
  ghost predicate ClosedAt(rows: Rows, id: Id)
    requires id in rows
  {
    rows[id].predecessor.Some? ==>
      && rows[id].predecessor.value in rows
      && rows[rows[id].predecessor.value].activation == rows[id].activation
  }

  ghost predicate Closed(rows: Rows) {
    forall id {:trigger ClosedAt(rows, id)} :: id in rows ==> ClosedAt(rows, id)
  }

  /** One root, one tail, linked in order, holding exactly the entries from `first` on; the anchor
    * names the entry just before the root. */
  ghost predicate Refines(db: Db, activation: Id, log: Log) {
    && activation in db.activations
    && (log.first < |log.entries| || log == Log([], 0))
    && Linked(log.entries, activation)
    && Distinct(log)
    && Shows(db.offers, activation, log)
    && db.activations[activation].compactedThrough == Anchor(log)
  }

  ghost function OthersThan(rows: Rows, activation: Id): Rows {
    map id | id in rows && rows[id].activation != activation :: rows[id]
  }

  /** The snapshots agree outside the rows and the anchor of one activation. */
  ghost predicate ElsewhereSame(before: Db, after: Db, activation: Id) {
    && after == before.(offers := after.offers, activations := after.activations)
    && OthersThan(after.offers, activation) == OthersThan(before.offers, activation)
    && activation in before.activations && activation in after.activations
    && after.activations ==
       before.activations[activation := before.activations[activation].(compactedThrough := after.activations[activation].compactedThrough)]
  }

  /** The tail a new offer must name. */
  ghost function LastId(log: Log): Option<Id> {
    if log.entries == [] then None else Some(log.entries[|log.entries| - 1].id)
  }

  /** What a retained entry looks like as a row. */
  lemma ShownFacts(rows: Rows, activation: Id, log: Log, i: int)
    requires Linked(log.entries, activation) && Shows(rows, activation, log) && Retained(log, i)
    ensures log.entries[i].id in rows && rows[log.entries[i].id].activation == activation
    ensures rows[log.entries[i].id].predecessor == if i == log.first then None else Some(log.entries[i - 1].id)
  {
    assert rows[log.entries[i].id] == Shown(log, i) && LinkedAt(log.entries, activation, i);
  }

  /** Only the next entry names an entry as its predecessor. */
  lemma SuccessorIsNext(rows: Rows, activation: Id, log: Log, i: int, s: Id)
    requires Linked(log.entries, activation) && Distinct(log) && Shows(rows, activation, log) && Closed(rows)
    requires Retained(log, i) && s in rows
    ensures rows[s].predecessor == Some(log.entries[i].id) <==> i + 1 < |log.entries| && s == log.entries[i + 1].id
  {
    ShownFacts(rows, activation, log, i);
    if i + 1 < |log.entries| { ShownFacts(rows, activation, log, i + 1); }
    if rows[s].predecessor == Some(log.entries[i].id) {
      assert ClosedAt(rows, s);
      var j :| Retained(log, j) && log.entries[j].id == s;
      ShownFacts(rows, activation, log, j);
      assert Retained(log, j - 1);
    }
  }

  lemma TailIsLast(db: Db, activation: Id, log: Log)
    requires Refines(db, activation, log) && Closed(db.offers)
    ensures Tail(db.offers, activation) == LastId(log)
  {
    var rows, n := db.offers, |log.entries|;
    forall id | id in rows
      ensures IsTail(rows, activation, id) <==> LastId(log) == Some(id)
    {
      if rows[id].activation == activation {
        var i :| Retained(log, i) && log.entries[i].id == id;
        if i + 1 < n {
          assert Retained(log, i + 1);
          SuccessorIsNext(rows, activation, log, i, log.entries[i + 1].id);
          assert Retained(log, n - 1);
        } else {
          forall s | s in rows ensures rows[s].predecessor != Some(id) { SuccessorIsNext(rows, activation, log, i, s); }
        }
      } else if n > 0 {
        ShownFacts(rows, activation, log, n - 1);
      }
    }
    if n > 0 { ShownFacts(rows, activation, log, n - 1); }
  }

  lemma ElsewhereTransitive(a: Db, b: Db, c: Db, activation: Id)
    requires ElsewhereSame(a, b, activation) && ElsewhereSame(b, c, activation)
    ensures ElsewhereSame(a, c, activation)
  {
  }

  // ----- counting the retained rows -----

  lemma {:induction false} DistinctCount(ids: seq<Id>)
    requires forall i, j :: 0 <= i < j < |ids| ==> ids[i] != ids[j]
    ensures |set id | id in ids| == |ids|
  {
    if ids != [] {
      DistinctCount(ids[1..]);
      assert (set id | id in ids) == (set id | id in ids[1..]) + {ids[0]};
    }
  }

  ghost function RetainedIds(log: Log): (ids: seq<Id>)
    requires log.first <= |log.entries|
    ensures |ids| == |log.entries| - log.first
    ensures forall i :: 0 <= i < |ids| ==> ids[i] == log.entries[log.first + i].id
  {
    seq(|log.entries| - log.first, i requires 0 <= i < |log.entries| - log.first => log.entries[log.first + i].id)
  }

  lemma CountRetained(rows: Rows, activation: Id, log: Log)
    requires Linked(log.entries, activation) && Distinct(log) && Shows(rows, activation, log) && log.first <= |log.entries|
    ensures |RowsOf(rows, activation)| == |log.entries| - log.first
  {
    var ids := RetainedIds(log);
    forall i | 0 <= i < |ids|
      ensures ids[i] in RowsOf(rows, activation) && Retained(log, log.first + i)
    {
      ShownFacts(rows, activation, log, log.first + i);
    }
    forall id | id in RowsOf(rows, activation)
      ensures id in ids
    {
      var i :| Retained(log, i) && log.entries[i].id == id;
      assert ids[i - log.first] == id;
    }
    assert RowsOf(rows, activation) == set id | id in ids;
    DistinctCount(ids);
  }

  // ----- compaction -----

  lemma RootIsFirst(rows: Rows, activation: Id, log: Log, id: Id)
    requires Linked(log.entries, activation) && Shows(rows, activation, log)
    requires id in rows
    ensures IsRoot(rows, activation, id) <==> Retained(log, log.first) && id == log.entries[log.first].id
  {
    if Retained(log, log.first) { ShownFacts(rows, activation, log, log.first); }
    if rows[id].activation == activation {
      var i :| Retained(log, i) && log.entries[i].id == id;
      ShownFacts(rows, activation, log, i);
      assert Retained(log, log.first);
    }
  }

  lemma DeleteRootAccepted(db: Db, activation: Id, log: Log)
    requires Refines(db, activation, log) && Closed(db.offers)
    requires |log.entries| - log.first > REPLAY_WINDOW
    ensures var root := log.entries[log.first].id;
            && root in db.offers && DeleteAccepted(db.offers, root)
            && AnchorAccepted(db.offers - {root}, activation, db.activations[activation].compactedThrough, Some(root))
  {
    var root, child := log.entries[log.first].id, log.entries[log.first + 1].id;
    var rest := db.offers - {root};
    CountRetained(db.offers, activation, log);
    assert Retained(log, log.first) && Retained(log, log.first + 1);
    ShownFacts(db.offers, activation, log, log.first);
    ShownFacts(db.offers, activation, log, log.first + 1);
    assert child in rest && rest[child].predecessor == Some(root);
    forall s | s in rest
      ensures !IsRoot(rest, activation, s)
    {
      RootIsFirst(db.offers, activation, log, s);
    }
  }

  /** Dropping the root and detaching its child shows the log from the next entry on. */
  lemma DetachShows(rows: Rows, activation: Id, log: Log)
    requires Linked(log.entries, activation) && Distinct(log) && Shows(rows, activation, log) && Closed(rows)
    requires log.first + 1 < |log.entries|
    ensures var root := log.entries[log.first].id;
            Shows(Detached(rows - {root}, root), activation, log.(first := log.first + 1))
  {
    var root := log.entries[log.first].id;
    var after := Detached(rows - {root}, root);
    var next := log.(first := log.first + 1);
    assert Retained(log, log.first);
    forall i | Retained(next, i)
      ensures next.entries[i].id in after && after[next.entries[i].id] == Shown(next, i)
    {
      assert Retained(log, i) && Retained(log, next.first);
      ShownFacts(rows, activation, log, i);
      SuccessorIsNext(rows, activation, log, log.first, log.entries[i].id);
    }
    forall id | id in after && after[id].activation == activation
      ensures exists i :: Retained(next, i) && next.entries[i].id == id
    {
      var i :| Retained(log, i) && log.entries[i].id == id;
      assert Retained(next, i);
    }
  }

  lemma DetachKeepsOthers(rows: Rows, activation: Id, log: Log)
    requires Linked(log.entries, activation) && Distinct(log) && Shows(rows, activation, log) && Closed(rows)
    requires log.first + 1 < |log.entries|
    ensures var root := log.entries[log.first].id;
            var after := Detached(rows - {root}, root);
            OthersThan(after, activation) == OthersThan(rows, activation) && Closed(after)
  {
    var root := log.entries[log.first].id;
    var after := Detached(rows - {root}, root);
    assert Retained(log, log.first);
    ShownFacts(rows, activation, log, log.first);
    forall id | id in rows
      ensures rows[id].activation != activation ==> id in after && after[id] == rows[id]
      ensures id in after ==> ClosedAt(after, id)
    {
      assert ClosedAt(rows, id);
    }
  }

  /** One deletion drops exactly the oldest retained entry, and no trigger refuses it. */
  lemma DeleteRootAdvances(db: Db, activation: Id, log: Log)
    requires Refines(db, activation, log) && Closed(db.offers)
    requires |log.entries| - log.first > REPLAY_WINDOW
    ensures var tx := DeleteRoot(db, activation);
            && tx.Commit? && ElsewhereSame(db, tx.db, activation) && Closed(tx.db.offers)
            && Refines(tx.db, activation, log.(first := log.first + 1))
  {
    var root := log.entries[log.first].id;
    DeleteRootAccepted(db, activation, log);
    assert Retained(log, log.first);
    RootIsFirst(db.offers, activation, log, root);
    forall id | id in db.offers && IsRoot(db.offers, activation, id)
      ensures id == root
    {
      RootIsFirst(db.offers, activation, log, id);
    }
    DetachShows(db.offers, activation, log);
    DetachKeepsOthers(db.offers, activation, log);
  }

  lemma {:induction false} DeleteRootsAdvance(db: Db, activation: Id, log: Log, count: nat)
    requires Refines(db, activation, log) && Closed(db.offers)
    requires count == 0 || |log.entries| - log.first >= REPLAY_WINDOW + count
    ensures var tx := DeleteRoots(db, activation, count);
            && tx.Commit? && ElsewhereSame(db, tx.db, activation) && Closed(tx.db.offers)
            && Refines(tx.db, activation, log.(first := log.first + count))
  {
    if count > 0 {
      DeleteRootsAdvance(db, activation, log, count - 1);
      var middle := DeleteRoots(db, activation, count - 1).db;
      var trimmed := log.(first := log.first + count - 1);
      DeleteRootAdvances(middle, activation, trimmed);
      ElsewhereTransitive(db, middle, DeleteRoot(middle, activation).db, activation);
      assert trimmed.(first := trimmed.first + 1) == log.(first := log.first + count);
    } else {
      assert log.(first := log.first) == log;
    }
  }

  // ----- appending -----

  ghost function Appended(log: Log, id: Id, offer: Offer): Log {
    Log(log.entries + [Logged(id, offer)], log.first)
  }

  /** The part of the log a journal keeps after an append: the last `REPLAY_WINDOW` entries. */
  ghost function Compacted(log: Log): Log {
    log.(first := if |log.entries| > log.first + REPLAY_WINDOW then |log.entries| - REPLAY_WINDOW else log.first)
  }

  lemma AppendLinks(log: Log, activation: Id, id: Id, offer: Offer)
    requires Linked(log.entries, activation)
    requires offer.activation == activation && offer.predecessor == LastId(log)
    ensures Linked(Appended(log, id, offer).entries, activation)
  {
    var next := Appended(log, id, offer).entries;
    forall i | 0 <= i < |next|
      ensures LinkedAt(next, activation, i)
    {
      if i < |log.entries| { assert LinkedAt(log.entries, activation, i); }
    }
  }

  lemma AppendStaysDistinct(rows: Rows, activation: Id, log: Log, id: Id, offer: Offer)
    requires Distinct(log) && Shows(rows, activation, log) && id !in rows
    ensures Distinct(Appended(log, id, offer))
  {
    var next, n := Appended(log, id, offer), |log.entries|;
    forall i, j | Retained(next, i) && Retained(next, j) && next.entries[i].id == next.entries[j].id
      ensures i == j
    {
      if i < n { assert Retained(log, i); }
      if j < n { assert Retained(log, j); }
    }
  }

  lemma InsertShows(rows: Rows, activation: Id, log: Log, id: Id, offer: Offer)
    requires Linked(log.entries, activation) && Shows(rows, activation, log)
    requires log.first < |log.entries| || log == Log([], 0)
    requires id !in rows && offer.activation == activation && offer.predecessor == LastId(log)
    ensures Shows(rows[id := offer], activation, Appended(log, id, offer))
  {
    var next, n := Appended(log, id, offer), |log.entries|;
    var after := rows[id := offer];
    forall i | Retained(next, i)
      ensures next.entries[i].id in after && after[next.entries[i].id] == Shown(next, i)
    {
      if i < n { assert Retained(log, i) && Shown(log, i) == Shown(next, i); }
    }
    assert Retained(next, n);
    forall other | other in after && after[other].activation == activation
      ensures exists i :: Retained(next, i) && next.entries[i].id == other
    {
      if other != id {
        var i :| Retained(log, i) && log.entries[i].id == other;
        assert Retained(next, i);
      }
    }
  }

  lemma InsertRefines(db: Db, activation: Id, log: Log, id: Id, offer: Offer)
    requires Refines(db, activation, log) && Closed(db.offers)
    requires id !in db.offers && offer.activation == activation && offer.predecessor == LastId(log)
    ensures var after := db.(offers := db.offers[id := offer]);
            && Refines(after, activation, Appended(log, id, offer)) && Closed(after.offers)
            && ElsewhereSame(db, after, activation)
  {
    AppendLinks(log, activation, id, offer);
    AppendStaysDistinct(db.offers, activation, log, id, offer);
    InsertShows(db.offers, activation, log, id, offer);
    if log.entries != [] {
      assert Retained(log, |log.entries| - 1);
      ShownFacts(db.offers, activation, log, |log.entries| - 1);
    }
    var after := db.offers[id := offer];
    forall other | other in after
      ensures ClosedAt(after, other)
    {
      if other != id { assert ClosedAt(db.offers, other); }
    }
  }

  /** The insert constraints hold for every offer the transaction builds; a clash of offer ids is
    * the only way the table can refuse it. */
  lemma InsertRefusedOnlyByClash(db: Db, log: Log, input: RecordInput, current: Option<Entry>, offerId: Id, now: nat)
    requires Refines(db, input.scope.operationId, log) && Closed(db.offers)
    requires RecordGuard(db, input, current, now).None?
    requires Prior(db.offers, input.scope.operationId, input.scope.incarnation, input.request).None?
    requires NonBlank(offerId)
    ensures var tail := Tail(db.offers, input.scope.operationId);
            InsertAccepted(db, offerId, NewOffer(db, input, tail, now)) <==> offerId !in db.offers
  {
    var a := input.scope.operationId;
    TailIsLast(db, a, log);
    if log.entries == [] {
      forall other | other in db.offers ensures !IsRoot(db.offers, a, other) { RootIsFirst(db.offers, a, log, other); }
    }
  }

  /** A recorded offer becomes the last log entry, and whatever the chain looked like before, the
    * rows that remain are the last `REPLAY_WINDOW` entries of the log. */
  lemma RecordAppends(db: Db, log: Log, input: RecordInput, current: Option<Entry>, offerId: Id, now: nat)
    requires Refines(db, input.scope.operationId, log) && Closed(db.offers)
    requires RecordGuard(db, input, current, now).None?
    requires Prior(db.offers, input.scope.operationId, input.scope.incarnation, input.request).None?
    requires db.bindings[input.scope.agentId].cursor == Some(input.input) && input.frontier != input.input
    requires NonBlank(offerId) && offerId !in db.offers
    ensures var a := input.scope.operationId;
            var offer := NewOffer(db, input, LastId(log), now);
            var tx := Record(db, input, current, offerId, now);
            && tx.Commit? && tx.reply == Some(offerId)
            && Refines(tx.db, a, Compacted(Appended(log, offerId, offer)))
            && Closed(tx.db.offers) && ElsewhereSame(db, tx.db, a)
  {
    var a := input.scope.operationId;
    TailIsLast(db, a, log);
    InsertRefusedOnlyByClash(db, log, input, current, offerId, now);
    var offer := NewOffer(db, input, LastId(log), now);
    var inserted := db.(offers := db.offers[offerId := offer]);
    var next := Appended(log, offerId, offer);
    InsertRefines(db, a, log, offerId, offer);
    CountRetained(inserted.offers, a, next);
    var excess := Excess(inserted, a);
    DeleteRootsAdvance(inserted, a, next, excess);
    var final := DeleteRoots(inserted, a, excess).db;
    assert Compacted(next) == next.(first := next.first + excess);
    TailIsLast(final, a, Compacted(next));
  }
}
