/**
  * The offer journal: the bounded reply frontiers published under an active polling activation.
  * Offers form a linked list through `predecessor`; only the tail may be acknowledged, and the
  * oldest rows are deleted beyond a replay window, leaving the activation an anchor.
  */
module PollingOffers {
  import opened CustodyTables
  import opened PollingActivations
  import opened Text
  import opened Wrappers

  const REPLAY_WINDOW: nat := 256

  const MAX_SAFE_INTEGER := 9007199254740991

  type Rows = map<Id, Offer>

  // ----- the table's constraints -----

  predicate OfferAccepted(o: Offer) {
    && |o.incarnation| == 36 && o.epoch >= 1 && IsCursor(o.input) && IsCursor(o.frontier)
    && (o.acknowledgedAt.Some? ==> o.createdAt <= o.acknowledgedAt.value)
  }

  predicate HasSuccessorOffer(rows: Rows, id: Id) {
    exists s :: s in rows && rows[s].predecessor == Some(id)
  }

  predicate IsTail(rows: Rows, activation: Id, id: Id) {
    id in rows && rows[id].activation == activation && !HasSuccessorOffer(rows, id)
  }

  predicate IsRoot(rows: Rows, activation: Id, id: Id) {
    id in rows && rows[id].activation == activation && rows[id].predecessor.None?
  }

  predicate SameInvocation(o: Offer, activation: Id, incarnation: string, request: RequestId) {
    o.activation == activation && o.incarnation == incarnation && o.request == request
  }

  /** The insert trigger, the unique indexes and the CHECK clauses. */
  predicate InsertAccepted(db: Db, id: Id, o: Offer) {
    && NonBlank(id) && OfferAccepted(o)
    && id !in db.offers
    && o.acknowledgedAt.None?
    && o.activation in db.activations && db.activations[o.activation].phase == Active
    && (match o.predecessor
        case None => forall other :: other in db.offers ==> !IsRoot(db.offers, o.activation, other)
        case Some(p) =>
          && p in db.offers && db.offers[p].activation == o.activation && db.offers[p].createdAt <= o.createdAt
          && !HasSuccessorOffer(db.offers, p))
    && forall other :: other in db.offers ==> !SameInvocation(db.offers[other], o.activation, o.incarnation, o.request)
  }

  /** The update trigger restricted to an acknowledgement. */
  predicate AcknowledgeAccepted(rows: Rows, id: Id, at: nat)
    requires id in rows
  {
    rows[id].acknowledgedAt.None? && !HasSuccessorOffer(rows, id) && rows[id].createdAt <= at
  }

  function RowsOf(rows: Rows, activation: Id): set<Id> {
    set id | id in rows && rows[id].activation == activation
  }

  /** The delete trigger: a root with a successor, beyond the replay window. */
  predicate DeleteAccepted(rows: Rows, id: Id)
    requires id in rows
  {
    && rows[id].predecessor.None?
    && (exists s :: s in rows && rows[s].predecessor == Some(id) && rows[s].activation == rows[id].activation)
    && |RowsOf(rows, rows[id].activation)| > REPLAY_WINDOW
  }

  /** The trigger that guards the compaction anchor, evaluated after the parent is gone and before
    * its child is detached. */
  predicate AnchorAccepted(rows: Rows, activation: Id, before: Option<Id>, after: Option<Id>) {
    before != after ==>
      && after.Some?
      && after.value !in rows
      && (exists s :: s in rows && rows[s].predecessor == after && rows[s].activation == activation)
      && forall s :: s in rows ==> !IsRoot(rows, activation, s)
  }

  // ----- queries -----

  ghost function Tail(rows: Rows, activation: Id): (r: Option<Id>)
    ensures r.Some? ==> IsTail(rows, activation, r.value)
    ensures r.None? ==> forall id :: id in rows ==> !IsTail(rows, activation, id)
  {
    if exists id :: id in rows && IsTail(rows, activation, id)
    then var id :| id in rows && IsTail(rows, activation, id); Some(id)
    else None
  }

  ghost function Prior(rows: Rows, activation: Id, incarnation: string, request: RequestId): (r: Option<Id>)
    ensures r.Some? ==> r.value in rows && SameInvocation(rows[r.value], activation, incarnation, request)
    ensures r.None? ==> forall id :: id in rows ==> !SameInvocation(rows[id], activation, incarnation, request)
  {
    if exists id :: id in rows && SameInvocation(rows[id], activation, incarnation, request)
    then var id :| id in rows && SameInvocation(rows[id], activation, incarnation, request); Some(id)
    else None
  }

  /** Two rows of the same invocation. */
  predicate Clash(rows: Rows, x: Id, y: Id)
    requires x in rows && y in rows
  {
    SameInvocation(rows[x], rows[y].activation, rows[y].incarnation, rows[y].request)
  }

  /** The unique index over invocations. */
  ghost predicate InvocationsUnique(rows: Rows) {
    forall x, y {:trigger Clash(rows, x, y)} :: x in rows && y in rows && Clash(rows, x, y) ==> x == y
  }

  // ----- deletion of one root, with its cascade -----

  /** Deletes row `root` and detaches its children through the foreign key, moving the anchor of
    * each child's activation. At most one child exists: `predecessor` is unique. */
  function DeleteRow(db: Db, root: Id): Tx<()>
    requires root in db.offers
  {
    if !DeleteAccepted(db.offers, root) then Abort(ConstraintFailed)
    else
      var activation := db.offers[root].activation;
      var rest := db.offers - {root};
      if activation !in db.activations || !AnchorAccepted(rest, activation, db.activations[activation].compactedThrough, Some(root))
      then Abort(ConstraintFailed)
      else
        Commit(db.(offers := Detached(rest, root),
                   activations := db.activations[activation := db.activations[activation].(compactedThrough := Some(root))]), ())
  }

  function Detached(rows: Rows, parent: Id): Rows {
    map id | id in rows :: if rows[id].predecessor == Some(parent) then rows[id].(predecessor := None) else rows[id]
  }

  /** DELETE ... WHERE activation_id = ? AND predecessor_offer_id IS NULL. */
  ghost function DeleteRoot(db: Db, activation: Id): Tx<()> {
    if exists id :: id in db.offers && IsRoot(db.offers, activation, id)
    then var id :| id in db.offers && IsRoot(db.offers, activation, id); DeleteRow(db, id)
    else Commit(db, ())
  }

  ghost function DeleteRoots(db: Db, activation: Id, count: nat): Tx<()> {
    if count == 0 then Commit(db, ())
    else match DeleteRoots(db, activation, count - 1)
      case Abort(e) => Abort(e)
      case Commit(next, _) => DeleteRoot(next, activation)
  }

  // ----- transactions -----

  datatype Scope = Scope(operationId: Id, agentId: Id, incarnation: string)

  datatype RecordInput = RecordInput(scope: Scope, request: RequestId, input: string, frontier: string, expectedEpoch: int)

  predicate IsHex(c: char) { '0' <= c <= '9' || 'a' <= c <= 'f' }

  predicate IsUuid(s: string) {
    && |s| == 36
    && forall i :: 0 <= i < 36 ==> if i in {8, 13, 18, 23} then s[i] == '-' else IsHex(s[i])
  }

  /** The worker session that holds the credential of the current binding, not yet expired. */
  predicate LiveSession(db: Db, agent: Id, now: nat) {
    && agent in db.context.sessions && agent in db.bindings
    && var s := db.context.sessions[agent]; var b := db.bindings[agent];
       && b.roomId == s.roomId && b.sessionId == s.sessionId && b.generationId == s.generationId
       && b.credential == s.credential && s.expiresAt.Some? && s.expiresAt.value > now
  }

  function OfferAuthority(db: Db, scope: Scope, current: Option<Entry>, now: nat): Option<Refusal> {
    if !IsUuid(scope.incarnation) then Some(BadRequest)
    else if !OwnedActivation(db, scope.operationId, scope.agentId) then Some(NoOperation)
    else
      var a := db.activations[scope.operationId];
      if a.phase != Active then Some(WrongPhase)
      else if !CurrentAuthority(db, a, current, false) then Some(AuthorityLost)
      else if !LiveSession(db, a.identity.agentId, now) then Some(AuthorityLost)
      else None
  }

  predicate SafeRequest(r: RequestId) {
    r.NumberRequest? ==> -MAX_SAFE_INTEGER <= r.number <= MAX_SAFE_INTEGER
  }

  /** Refusals raised before the journal is consulted. */
  function RecordGuard(db: Db, input: RecordInput, current: Option<Entry>, now: nat): Option<Refusal> {
    var refusal := OfferAuthority(db, input.scope, current, now);
    if refusal.Some? then refusal
    else if !SafeRequest(input.request) then Some(BadRequest)
    else if !IsCursor(input.frontier) || !IsCursor(input.input) then Some(BadCursor)
    else if CursorValue(input.frontier) < CursorValue(input.input) then Some(BehindInput)
    else
      var epoch := db.bindings[input.scope.agentId].epoch;
      if epoch < 1 || epoch > MAX_SAFE_INTEGER then Some(EpochInvalid)
      else if input.expectedEpoch != epoch then Some(EpochChanged)
      else None
  }

  function NewOffer(db: Db, input: RecordInput, tail: Option<Id>, now: nat): Offer
    requires input.scope.agentId in db.bindings
    requires tail.Some? ==> tail.value in db.offers
  {
    Offer(input.scope.operationId, input.scope.incarnation, input.request, db.bindings[input.scope.agentId].epoch,
          input.input, input.frontier, tail,
          if tail.Some? then Max(now, db.offers[tail.value].createdAt) else now, None)
  }

  /** A replay of a retained invocation is answered by its own row, and only while it is the tail. */
  predicate ReplayAnswers(db: Db, input: RecordInput, prior: Id, tail: Option<Id>)
    requires prior in db.offers && input.scope.agentId in db.bindings
  {
    && db.offers[prior].input == input.input && db.offers[prior].frontier == input.frontier
    && tail == Some(prior) && db.offers[prior].epoch == db.bindings[input.scope.agentId].epoch
  }

  function Excess(db: Db, activation: Id): nat {
    var n := |RowsOf(db.offers, activation)|;
    if n > REPLAY_WINDOW then n - REPLAY_WINDOW else 0
  }

  ghost function Record(db: Db, input: RecordInput, current: Option<Entry>, offerId: Id, now: nat): Tx<Option<Id>> {
    var refusal := RecordGuard(db, input, current, now);
    if refusal.Some? then Abort(refusal.value)
    else
      var a := input.scope.operationId;
      var tail := Tail(db.offers, a);
      match Prior(db.offers, a, input.scope.incarnation, input.request)
      case Some(prior) =>
        if ReplayAnswers(db, input, prior, tail) then Commit(db, Some(prior)) else Abort(Superseded)
      case None =>
        if db.bindings[input.scope.agentId].cursor != Some(input.input) then Abort(StaleInput)
        else if input.frontier == input.input then Commit(db, None)
        else
          var offer := NewOffer(db, input, tail, now);
          if !InsertAccepted(db, offerId, offer) then Abort(ConstraintFailed)
          else
            var inserted := db.(offers := db.offers[offerId := offer]);
            match DeleteRoots(inserted, a, Excess(inserted, a))
            case Abort(e) => Abort(e)
            case Commit(next, _) => Commit(next, Tail(next.offers, a))
  }

  datatype AckReply = AckReply(acknowledged: bool, offer: Option<Id>, roomCursor: string, epoch: nat)

  ghost function Acknowledge(db: Db, scope: Scope, cursor: Option<string>, current: Option<Entry>, now: nat): Tx<AckReply> {
    var refusal := OfferAuthority(db, scope, current, now);
    if refusal.Some? then Abort(refusal.value)
    else if cursor.Some? && !IsCursor(cursor.value) then Abort(BadCursor)
    else
      var binding := db.bindings[scope.agentId];
      if binding.epoch < 1 || binding.epoch > MAX_SAFE_INTEGER then Abort(EpochInvalid)
      else if binding.cursor.None? || !IsCursor(binding.cursor.value) then Abort(BadCursor)
      else
        var room := binding.cursor.value;
        var tail := Tail(db.offers, scope.operationId);
        if cursor.None? || tail.None? || db.offers[tail.value].incarnation != scope.incarnation
           || db.offers[tail.value].frontier != cursor.value || db.offers[tail.value].epoch != binding.epoch
        then Commit(db, AckReply(false, tail, room, binding.epoch))
        else
          var offer := db.offers[tail.value];
          if offer.acknowledgedAt.Some? then
            if room != offer.frontier then Abort(AcknowledgementDisagrees)
            else Commit(db, AckReply(true, tail, room, binding.epoch))
          else if room != offer.input then Abort(CursorMoved)
          else
            var at := Max(now, offer.createdAt);
            if !AcknowledgeAccepted(db.offers, tail.value, at) then Abort(ConstraintFailed)
            else
              Commit(db.(offers := db.offers[tail.value := offer.(acknowledgedAt := Some(at))],
                         bindings := db.bindings[scope.agentId := binding.(cursor := Some(offer.frontier))]),
                     AckReply(true, tail, offer.frontier, binding.epoch))
  }
}
