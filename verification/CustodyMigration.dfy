/**
  * Any database whose uncompacted offer chains pass the constraints they were written under has a
  * history: a log for every activation that its rows show from the first entry on. So every theorem
  * about runs applies from such a database, not only from empty journals.
  */
module CustodyMigration {
  import opened CustodyRuns
  import opened CustodyTables
  import opened PollingActivations
  import opened PollingOfferCursor
  import opened PollingOfferLog
  import opened PollingOffers
  import opened Text
  import opened Wrappers

  // ----- chains without compaction -----

  /** One row names another of its activation, recorded before it. */
  predicate LinkedRow(rows: Rows, rank: map<Id, nat>, id: Id)
    requires id in rows
  {
    rows[id].predecessor.Some? ==>
      && rows[id].predecessor.value in rows && rows[rows[id].predecessor.value].activation == rows[id].activation
      && id in rank && rows[id].predecessor.value in rank && rank[rows[id].predecessor.value] < rank[id]
  }

  /** Rows written under the insert trigger and the unique indexes: each names an earlier row, no two
    * rows of an activation share a predecessor or the lack of one. `rank` is any order they were
    * written in. */
  ghost predicate WellFormed(rows: Rows, rank: map<Id, nat>) {
    && (forall id :: id in rows ==> id in rank && LinkedRow(rows, rank, id))
    && (forall x, y | x in rows && y in rows ::
          rows[x].activation == rows[y].activation && rows[x].predecessor == rows[y].predecessor ==> x == y)
  }

  /** A set of rows of one activation that holds the predecessors of its members. */
  ghost predicate Prefix(rows: Rows, a: Id, ids: set<Id>) {
    && ids <= RowsOf(rows, a)
    && forall id :: id in ids && rows[id].predecessor.Some? ==> rows[id].predecessor.value in ids
  }

  /** The entries list exactly these rows, each once, linked in order. */
  ghost predicate Lists(rows: Rows, a: Id, ids: set<Id>, entries: seq<Logged>) {
    && Linked(entries, a)
    && (forall i :: 0 <= i < |entries| ==> entries[i].id in ids && entries[i].id in rows && entries[i].offer == rows[entries[i].id])
    && (forall i, j :: 0 <= i < j < |entries| ==> entries[i].id != entries[j].id)
    && (forall id :: id in ids ==> exists i :: 0 <= i < |entries| && entries[i].id == id)
  }

  lemma {:induction false} Newest(ids: set<Id>, rank: map<Id, nat>) returns (newest: Id)
    requires ids != {} && forall id :: id in ids ==> id in rank
    ensures newest in ids && forall id :: id in ids ==> rank[id] <= rank[newest]
    decreases ids
  {
    var some :| some in ids;
    newest := some;
    if ids != {some} {
      var other := Newest(ids - {some}, rank);
      if rank[other] > rank[some] { newest := other; }
    }
  }

  /** A listed row follows its neighbour, and the newest row follows another one. */
  lemma EntryElsewhere(rows: Rows, rank: map<Id, nat>, a: Id, ids: set<Id>, newest: Id, entries: seq<Logged>, i: nat)
    requires WellFormed(rows, rank) && Prefix(rows, a, ids) && newest in ids
    requires Lists(rows, a, ids - {newest}, entries) && i < |entries|
    ensures newest in rows && rows[newest].predecessor != if i == 0 then None else Some(entries[i - 1].id)
  {
    assert LinkedAt(entries, a, i) && entries[i].id in ids - {newest};
    assert newest in RowsOf(rows, a) && entries[i].id in RowsOf(rows, a);
  }

  /** The newest row continues the list of the others: it is the first, or follows the last. */
  lemma NewestFollowsLast(rows: Rows, rank: map<Id, nat>, a: Id, ids: set<Id>, newest: Id, entries: seq<Logged>)
    requires WellFormed(rows, rank) && Prefix(rows, a, ids) && newest in ids
    requires Lists(rows, a, ids - {newest}, entries)
    ensures newest in rows && rows[newest].predecessor == if entries == [] then None else Some(entries[|entries| - 1].id)
  {
    assert LinkedRow(rows, rank, newest);
    if rows[newest].predecessor.Some? {
      var p := rows[newest].predecessor.value;
      assert p in ids - {newest};
      var i :| 0 <= i < |entries| && entries[i].id == p;
      if i + 1 < |entries| { EntryElsewhere(rows, rank, a, ids, newest, entries, i + 1); }
    } else if entries != [] {
      EntryElsewhere(rows, rank, a, ids, newest, entries, 0);
    }
  }

  lemma NewestExtendsList(rows: Rows, a: Id, ids: set<Id>, newest: Id, earlier: seq<Logged>)
    requires newest in ids && newest in rows && rows[newest].activation == a
    requires Lists(rows, a, ids - {newest}, earlier)
    requires rows[newest].predecessor == if earlier == [] then None else Some(earlier[|earlier| - 1].id)
    ensures Lists(rows, a, ids, earlier + [Logged(newest, rows[newest])])
  {
    var entries := earlier + [Logged(newest, rows[newest])];
    forall i | 0 <= i < |entries|
      ensures LinkedAt(entries, a, i)
    {
      if i < |earlier| { assert LinkedAt(earlier, a, i); }
    }
    forall id | id in ids
      ensures exists i :: 0 <= i < |entries| && entries[i].id == id
    {
      if id == newest {
        assert entries[|earlier|].id == id;
      } else {
        assert id in ids - {newest};
        var i :| 0 <= i < |earlier| && earlier[i].id == id;
        assert entries[i].id == id;
      }
    }
  }

  lemma PrefixWithoutNewest(rows: Rows, rank: map<Id, nat>, a: Id, ids: set<Id>, newest: Id)
    requires WellFormed(rows, rank) && Prefix(rows, a, ids) && newest in ids
    requires forall id :: id in ids ==> id in rank && newest in rank && rank[id] <= rank[newest]
    ensures Prefix(rows, a, ids - {newest})
  {
    forall id | id in ids - {newest} && rows[id].predecessor.Some?
      ensures rows[id].predecessor.value in ids - {newest}
    {
      assert LinkedRow(rows, rank, id);
    }
  }

  lemma {:induction false} ChainIsListed(rows: Rows, rank: map<Id, nat>, a: Id, ids: set<Id>) returns (entries: seq<Logged>)
    requires WellFormed(rows, rank) && Prefix(rows, a, ids)
    ensures Lists(rows, a, ids, entries)
    decreases ids
  {
    if ids == {} { return []; }
    var newest := Newest(ids, rank);
    PrefixWithoutNewest(rows, rank, a, ids, newest);
    var earlier := ChainIsListed(rows, rank, a, ids - {newest});
    NewestFollowsLast(rows, rank, a, ids, newest, earlier);
    NewestExtendsList(rows, a, ids, newest, earlier);
    entries := earlier + [Logged(newest, rows[newest])];
  }

  /** Every offer row passes the checks of its insert. */
  ghost predicate RowsRecordable(rows: Rows) {
    forall id {:trigger RecordableAt(Logged(id, rows[id]))} :: id in rows ==> RecordableAt(Logged(id, rows[id]))
  }

  /** A well-formed chain that was never compacted refines a log of which it shows every entry. */
  lemma UncompactedChainHasLog(db: Db, rank: map<Id, nat>, a: Id) returns (log: Log)
    requires WellFormed(db.offers, rank) && RowsRecordable(db.offers)
    requires a in db.activations && db.activations[a].compactedThrough.None?
    ensures LogRefined(db, a, log) && log.first == 0
  {
    var ids := RowsOf(db.offers, a);
    forall id | id in ids && db.offers[id].predecessor.Some?
      ensures db.offers[id].predecessor.value in ids
    {
      assert LinkedRow(db.offers, rank, id);
    }
    var entries := ChainIsListed(db.offers, rank, a, ids);
    log := Log(entries, 0);
    forall i | Retained(log, i)
      ensures log.entries[i].id in db.offers && db.offers[log.entries[i].id] == Shown(log, i)
    {
      assert LinkedAt(entries, a, i);
    }
    forall id | id in db.offers && db.offers[id].activation == a
      ensures exists i :: Retained(log, i) && log.entries[i].id == id
    {
      assert id in ids;
      var i :| 0 <= i < |entries| && entries[i].id == id;
      assert Retained(log, i);
    }
    forall i | 0 <= i < |entries|
      ensures RecordableAt(entries[i])
    {
      assert RecordableAt(Logged(entries[i].id, db.offers[entries[i].id]));
      assert entries[i] == Logged(entries[i].id, db.offers[entries[i].id]);
    }
  }

  // ----- a whole database -----

  /** What the constraints of an uncompacted database say of its three journals. */
  ghost predicate Migrated(db: Db, rank: map<Id, nat>) {
    && ActivationsAccepted(db) && OneUnresolvedActivation(db) && OneUnresolvedDrain(db) && Exclusive(db)
    && WellFormed(db.offers, rank) && RowsRecordable(db.offers) && InvocationsUnique(db.offers)
    && (forall id :: id in db.offers ==> db.offers[id].activation in db.activations)
    && (forall id :: id in db.activations ==> db.activations[id].compactedThrough.None?)
  }

  lemma {:induction false} LogsFor(db: Db, rank: map<Id, nat>, ids: set<Id>) returns (logs: map<Id, Log>)
    requires Migrated(db, rank) && ids <= db.activations.Keys
    ensures logs.Keys == ids && forall id :: id in ids ==> LogRefined(db, id, logs[id])
    decreases ids
  {
    if ids == {} { return map[]; }
    var id :| id in ids;
    var others := LogsFor(db, rank, ids - {id});
    var log := UncompactedChainHasLog(db, rank, id);
    logs := others[id := log];
  }

  /** A migrated database is a state that runs may start from: it has a history under which the
    * invariant of all runs holds. */
  lemma MigratedDatabaseHasHistory(db: Db, rank: map<Id, nat>) returns (w: World)
    requires Migrated(db, rank)
    ensures w.db == db && Inv(w)
  {
    var logs := LogsFor(db, rank, db.activations.Keys);
    w := World(db, logs, set id | id in db.activations && db.activations[id].phase !in {Prepared, Cancelled});
    forall id | id in db.offers
      ensures ClosedAt(db.offers, id)
    {
      assert LinkedRow(db.offers, rank, id);
    }
  }
}
