/**
 * The handler that runs once per created order: skip guard, candidate query,
 * selection, and a single write that moves the order out of `pending`.
 */
module Orders {
  import opened Wrappers
  import opened Geo
  import opened Selection

  /** A status string other than the four the handler reads or writes. */
  type OtherStatus = s: string | s !in {"pending", "assigned", "no_master_found", "error_matching"} witness ""

  /**
   * The order's status field. Other carries any value the creator stored that
   * is none of the four strings the handler tests for or writes, so the
   * string "pending" is always Pending.
   */
  datatype Status = Pending | Assigned | NoMasterFound | ErrorMatching | Other(value: OtherStatus)

  /** The three statuses the handler writes; none of them is processed again. */
  predicate IsTerminal(s: Status) {
    s == Assigned || s == NoMasterFound || s == ErrorMatching
  }

  /** The fields of an order document that the handler reads or writes. */
  datatype OrderRecord = OrderRecord(
    status: Status,
    category: string,
    clientLocation: Option<Location>,
    masterId: Option<string>,
    masterName: Option<string>,
    distanceToMasterKm: Option<real>,
    errorMessage: Option<string>)

  /** The three field updates the handler can send to the order document. */
  datatype Update =
    | AssignMaster(master: MasterMatch)
    | MarkNoMasterFound
    | MarkErrorMatching(message: string)

  /** A thrown error and its message. */
  datatype Error = Error(message: string)

  /** What the store does with one write: store it, or reject it with an error. */
  datatype Write = Written | Rejected(error: Error)

  /** What the candidate query returns: the workers it found, or an error. */
  datatype Query = Found(workers: seq<Worker>) | QueryFailed(error: Error)

  /**
   * How the store answers one invocation: the candidate query, the write of
   * the outcome (assigned or no master found), and the write that records an
   * error in the catch block.
   */
  datatype Store = Store(query: Query, commit: Write, errorCommit: Write)

  /** The order document after a merge update: fields outside the update are kept. */
  function Applied(rec: OrderRecord, u: Update): (r: OrderRecord)
    ensures IsTerminal(r.status)
    ensures r.category == rec.category && r.clientLocation == rec.clientLocation
  {
    match u
    case AssignMaster(m) =>
      rec.(status := Assigned, masterId := Some(m.id), masterName := Some(m.name),
           distanceToMasterKm := Some(m.distance))
    case MarkNoMasterFound => rec.(status := NoMasterFound)
    case MarkErrorMatching(msg) => rec.(status := ErrorMatching, errorMessage := Some(msg))
  }

  /** The handler goes no further than its guard. */
  predicate Skips(rec: OrderRecord) {
    rec.status != Pending || rec.clientLocation.None?
  }

  /** The catch block: record the error, if the store accepts that write. */
  function ErrorWrite(e: Error, store: Store): Option<Update> {
    if store.errorCommit.Written? then Some(MarkErrorMatching(e.message)) else None
  }

  /** The update a selection outcome calls for. */
  function OutcomeUpdate(nearest: Option<MasterMatch>): Update {
    match nearest
    case Some(m) => AssignMaster(m)
    case None => MarkNoMasterFound
  }

  /**
   * The write that reaches the order document in one delivery of the creation
   * event, if any. Every decision reads the snapshot the event carries: its
   * status, its client location. When the query finds no worker, the write is
   * returned without being awaited, so its rejection escapes the catch block
   * and nothing is written.
   */
  function LandedWrite(snapshot: OrderRecord, store: Store, distance: DistanceOracle): Option<Update> {
    if Skips(snapshot) then None
    else
      match store.query
      case QueryFailed(e) => ErrorWrite(e, store)
      case Found(workers) =>
        if workers == [] then
          if store.commit.Written? then Some(MarkNoMasterFound) else None
        else
          var u := OutcomeUpdate(ChosenMatch(workers, snapshot.clientLocation.value, distance));
          if store.commit.Written? then Some(u) else ErrorWrite(store.commit.error, store)
  }

  /**
   * The order document after one delivery of the creation event: the write
   * decided from the event's snapshot, merged into the document as it stands
   * now. The document is either unchanged or in a terminal status, and only a
   * snapshot that says `pending` leads to a write.
   */
  function AfterDelivery(snapshot: OrderRecord, doc: OrderRecord, store: Store, distance: DistanceOracle): (r: OrderRecord)
    ensures r == doc || (snapshot.status == Pending && IsTerminal(r.status))
    ensures r.category == doc.category && r.clientLocation == doc.clientLocation
  {
    match LandedWrite(snapshot, store, distance)
    case None => doc
    case Some(u) => Applied(doc, u)
  }

  /** An order document, updated in place by the handler. */
  class Order {
    var status: Status
    var category: string
    var clientLocation: Option<Location>
    var masterId: Option<string>
    var masterName: Option<string>
    var distanceToMasterKm: Option<real>
    var errorMessage: Option<string>

    /** The document's current field values. */
    function View(): OrderRecord
      reads this
    {
      OrderRecord(status, category, clientLocation, masterId, masterName, distanceToMasterKm, errorMessage)
    }

    constructor (rec: OrderRecord)
      ensures View() == rec
    {
      status := rec.status;
      category := rec.category;
      clientLocation := rec.clientLocation;
      masterId := rec.masterId;
      masterName := rec.masterName;
      distanceToMasterKm := rec.distanceToMasterKm;
      errorMessage := rec.errorMessage;
    }

    /** A merge update of the document: only the fields the update names change. */
    method Apply(u: Update)
      modifies this
      ensures View() == Applied(old(View()), u)
    {
      match u
      case AssignMaster(m) =>
        status := Assigned;
        masterId := Some(m.id);
        masterName := Some(m.name);
        distanceToMasterKm := Some(m.distance);
      case MarkNoMasterFound =>
        status := NoMasterFound;
      case MarkErrorMatching(msg) =>
        status := ErrorMatching;
        errorMessage := Some(msg);
    }
  }

  /** The catch block as a statement: write `error_matching` unless the store rejects it. */
  method RecordError(order: Order, e: Error, store: Store)
    modifies order
    ensures order.View() == match ErrorWrite(e, store)
                            case None => old(order.View())
                            case Some(u) => Applied(old(order.View()), u)
  {
    if store.errorCommit.Written? {
      order.Apply(MarkErrorMatching(e.message));
    }
  }

  /**
   * One delivery of the creation event. The snapshot is the document data the
   * event carries (None when it carries none); `order` is the document that
   * the event's reference points to, which the handler updates.
   */
  method MatchNearestMaster(snapshot: Option<OrderRecord>, order: Order, store: Store, distance: DistanceOracle)
    modifies order
    ensures order.View() == match snapshot
                            case None => old(order.View())
                            case Some(s) => AfterDelivery(s, old(order.View()), store, distance)
  {
    if snapshot.None? {
      return;
    }
    var data := snapshot.value;
    if data.status != Pending || data.clientLocation.None? {
      return;
    }
    var client := data.clientLocation.value;
    match store.query {
      case QueryFailed(e) =>
        RecordError(order, e, store);
      case Found(workers) =>
        if workers == [] {
          if store.commit.Written? {
            order.Apply(MarkNoMasterFound);
          }
        } else {
          var nearest := SelectNearestMaster(workers, client, distance);
          if store.commit.Written? {
            order.Apply(OutcomeUpdate(nearest));
          } else {
            RecordError(order, store.commit.error, store);
          }
        }
    }
  }

  /** An order whose snapshot is not pending, or has no client location, is left exactly as it was. */
  lemma SkippedOrderIsUnchanged(snapshot: OrderRecord, doc: OrderRecord, store: Store, distance: DistanceOracle)
    requires snapshot.status != Pending || snapshot.clientLocation.None?
    ensures LandedWrite(snapshot, store, distance).None?
    ensures AfterDelivery(snapshot, doc, store, distance) == doc
  {
  }

  /**
   * When the query finds no worker and the store accepts the write, the order
   * ends in `no_master_found` and its master fields are not touched.
   */
  lemma EmptyQueryEndsNoMasterFound(snapshot: OrderRecord, doc: OrderRecord, store: Store, distance: DistanceOracle)
    requires snapshot.status == Pending && snapshot.clientLocation.Some?
    requires store.query == Found([]) && store.commit.Written?
    ensures var r := AfterDelivery(snapshot, doc, store, distance);
      && r.status == NoMasterFound
      && r.masterId == doc.masterId && r.masterName == doc.masterName
      && r.distanceToMasterKm == doc.distanceToMasterKm && r.errorMessage == doc.errorMessage
  {
  }

  /**
   * When the query finds no worker and the store rejects the `no_master_found`
   * write, the rejection escapes the catch block: no `error_matching` is
   * written and the document stays as it was, still `pending`.
   */
  lemma EmptyResultRejectionLeavesPending(snapshot: OrderRecord, doc: OrderRecord, store: Store, distance: DistanceOracle)
    requires snapshot.status == Pending && snapshot.clientLocation.Some?
    requires store.query == Found([]) && store.commit.Rejected?
    ensures LandedWrite(snapshot, store, distance).None?
    ensures AfterDelivery(snapshot, doc, store, distance) == doc
  {
  }

  /**
   * With the query and the write succeeding, the order is assigned exactly when
   * some eligible worker is within the radius, and otherwise ends in
   * `no_master_found`. The assigned master is the first of the nearest such
   * workers, and the order records its id, name and distance.
   */
  lemma AssignedIffQualifiedWorker(snapshot: OrderRecord, doc: OrderRecord, store: Store, distance: DistanceOracle)
    requires snapshot.status == Pending && snapshot.clientLocation.Some?
    requires store.query.Found? && store.commit.Written?
    ensures var r := AfterDelivery(snapshot, doc, store, distance);
      var ws := store.query.workers;
      var client := snapshot.clientLocation.value;
      && (r.status == Assigned <==> exists j :: 0 <= j < |ws| && Qualifies(ws[j], client, distance))
      && (r.status == NoMasterFound <==> forall j :: 0 <= j < |ws| ==> !Qualifies(ws[j], client, distance))
      && (r.status == Assigned ==>
            exists i: nat :: IsFirstNearest(ws, |ws|, i, client, distance)
              && r.masterId == Some(ws[i].id) && r.masterName == ws[i].name
              && r.distanceToMasterKm == Some(DistanceTo(ws[i], client, distance)))
  {
    var ws := store.query.workers;
    var client := snapshot.clientLocation.value;
    var f := FirstNearest(ws, client, distance);
    if f.Some? {
      assert Qualifies(ws[f.value], client, distance);
    }
  }

  /**
   * A failed query, or a rejected outcome write after a non-empty query, ends
   * in `error_matching` with the error's message, provided the store accepts
   * that write; the master fields are not touched.
   */
  lemma FailureRecordsError(snapshot: OrderRecord, doc: OrderRecord, store: Store, distance: DistanceOracle, e: Error)
    requires snapshot.status == Pending && snapshot.clientLocation.Some?
    requires store.errorCommit.Written?
    requires store.query == QueryFailed(e)
          || (store.query.Found? && store.query.workers != [] && store.commit == Rejected(e))
    ensures var r := AfterDelivery(snapshot, doc, store, distance);
      && r.status == ErrorMatching && r.errorMessage == Some(e.message)
      && r.masterId == doc.masterId && r.masterName == doc.masterName
  {
  }

  /**
   * A pending snapshot with a client location, with every write accepted by the
   * store, leads to exactly one write, and the order ends in one of the three
   * terminal statuses.
   */
  lemma CompletedRunIsTerminal(snapshot: OrderRecord, doc: OrderRecord, store: Store, distance: DistanceOracle)
    requires snapshot.status == Pending && snapshot.clientLocation.Some?
    requires store.commit.Written? && store.errorCommit.Written?
    ensures IsTerminal(AfterDelivery(snapshot, doc, store, distance).status)
    ensures LandedWrite(snapshot, store, distance).Some?
  {
  }

  /**
   * The guard reads the snapshot the event carries, so a redelivered creation
   * event runs matching again even though the document has left `pending`: an
   * order assigned by the first delivery is overwritten with `error_matching`
   * when the second delivery's query fails.
   */
  lemma RedeliveryRerunsMatching(rec: OrderRecord, first: Store, second: Store, distance: DistanceOracle)
    requires rec.status == Pending && rec.clientLocation.Some?
    requires AfterDelivery(rec, rec, first, distance).status == Assigned
    requires second.query.QueryFailed? && second.errorCommit.Written?
    ensures var once := AfterDelivery(rec, rec, first, distance);
      var twice := AfterDelivery(rec, once, second, distance);
      && twice.status == ErrorMatching
      && twice != once
  {
  }

  /**
   * The delivery as intended: the guard reads the document as it stands, not
   * the event's snapshot. Only a pending document is ever written.
   */
  function AfterFreshDelivery(doc: OrderRecord, store: Store, distance: DistanceOracle): (r: OrderRecord)
    ensures r == doc || (doc.status == Pending && IsTerminal(r.status))
  {
    AfterDelivery(doc, doc, store, distance)
  }

  /** The handler with its guard on a fresh read: the snapshot is the document it updates, as it stands. */
  method MatchNearestMasterOnFreshRead(order: Order, store: Store, distance: DistanceOracle)
    modifies order
    ensures order.View() == AfterFreshDelivery(old(order.View()), store, distance)
  {
    MatchNearestMaster(Some(order.View()), order, store, distance);
  }

  /**
   * With the guard on a fresh read, redelivery of the creation event does
   * nothing once the first delivery has moved the order out of `pending`,
   * whatever the store answers the second time.
   */
  lemma FreshGuardRedeliveryIsNoOp(rec: OrderRecord, first: Store, second: Store, distance: DistanceOracle)
    requires AfterFreshDelivery(rec, first, distance).status != Pending
    ensures var once := AfterFreshDelivery(rec, first, distance);
      AfterFreshDelivery(once, second, distance) == once
  {
  }

  /** The store's filter: the worker offers the category and is available. */
  predicate MatchesQuery(w: Worker, category: string) {
    category in w.specialization && w.isAvailable
  }

  /**
   * When the store returns only workers that offer the snapshot's category and
   * are available, a master assigned by this delivery is one of them, whatever
   * the document held before: a nearer worker without the category is never
   * assigned because the query never returns it.
   */
  lemma AssignedMasterOffersCategory(snapshot: OrderRecord, doc: OrderRecord, store: Store, distance: DistanceOracle)
    requires store.query.Found?
    requires forall w :: w in store.query.workers ==> MatchesQuery(w, snapshot.category)
    ensures var r := AfterDelivery(snapshot, doc, store, distance);
      var lw := LandedWrite(snapshot, store, distance);
      lw.Some? && lw.value.AssignMaster? ==>
        exists w :: w in store.query.workers && MatchesQuery(w, snapshot.category)
          && r.masterId == Some(w.id) && r.masterName == w.name
  {
    var lw := LandedWrite(snapshot, store, distance);
    if lw.Some? && lw.value.AssignMaster? {
      var ws := store.query.workers;
      var i := FirstNearest(ws, snapshot.clientLocation.value, distance).value;
      assert ws[i] in ws;
    }
  }
}
