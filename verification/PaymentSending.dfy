/**
 Every interleaving of senders, reconciler, checks, webhooks, completions and service calls.
 The claim of a send carries no token: that two senders never hold the same item, and that
 nothing is sent twice, follows from the shape of the conditional updates alone.
 */
module PaymentSending {
  import opened Common
  import opened PaymentContent
  import opened PaymentModel
  import opened PaymentInvariant
  import opened PaymentWorld

  datatype Event =
    | Service(call: Call)
    | ReadBatch(w: WorkerId, b: BatchId)
    | GiveUp(w: WorkerId)
    | FetchPending(w: WorkerId, queue: seq<Queued>)
    | ClaimNext(w: WorkerId)
    | Stop(w: WorkerId)
    | Transmit(w: WorkerId)
    | ProviderReceives(k: nat, verdict: Verdict, result: Remote)
    | ProviderSettles(i: ItemId, result: Remote)
    | RecordAnswer(w: WorkerId, outcome: Outcome)
    | Reconcile(late: set<ItemId>)
    | CheckAnswered(i: ItemId, seen: ItemStatus, found: Found)
    | Webhook(i: ItemId, realized: bool)
    | Complete(b: BatchId)

  function WorkerAt(w: World, x: WorkerId): Worker { if x in w.workers then w.workers[x] else Idle }

  /** The provider does not lie; it may stay silent. */
  predicate Truthful(w: World, i: ItemId, verdict: Option<Verdict>, outcome: Outcome) {
    match outcome
    case SaidNothing => true
    case SaidDuplicate => verdict == Some(Duplicate)
    case SaidRateLimited => verdict == Some(RateLimited)
    case SaidPaid => verdict == Some(Accepted) && i in w.remote && w.remote[i] == Realized
    case SaidInProcessing => verdict == Some(Accepted)
    case SaidRefused =>
      verdict == Some(Refused) || (verdict == Some(Accepted) && i in w.remote && w.remote[i] == NotRealized)
  }

  predicate FoundTrue(w: World, i: ItemId, found: Found) {
    match found
    case NotFoundYet => true
    case FoundRealized => i in w.remote && w.remote[i] == Realized
    case FoundNotRealized => i in w.remote && w.remote[i] == NotRealized
    case FoundOther => i in w.remote
  }

  predicate QueuedPending(db: Db, b: BatchId, q: Queued) {
    q.id in db.items && db.items[q.id].batch == b && db.items[q.id].status == Pending
    && q.payload == PayloadOf(db.items[q.id])
  }

  ghost predicate Enabled(w: World, e: Event) {
    match e
    case Service(call) => Allowed(w.db, call)
    case ReadBatch(x, b) => WorkerAt(w, x) == Idle
      && b in w.db.batches && w.db.batches[b].status == Processing && w.db.batches[b].issuer.Some?
    case GiveUp(x) => WorkerAt(w, x).Reading?
    case FetchPending(x, queue) => WorkerAt(w, x).Reading?
      && forall n :: 0 <= n < |queue| ==> QueuedPending(w.db, WorkerAt(w, x).order.batch, queue[n])
    case ClaimNext(x) => WorkerAt(w, x).Loaded? && WorkerAt(w, x).queue != []
    case Stop(x) => true
    case Transmit(x) => WorkerAt(w, x).Claimed?
    case ProviderReceives(k, verdict, result) => k < |w.sends| && w.sends[k].verdict == None
      && (verdict == Accepted ==> w.sends[k].item !in w.remote)
      && (verdict == Duplicate ==> w.sends[k].item in w.remote)
    case ProviderSettles(i, result) => i in w.remote && w.remote[i] == Moving
    case RecordAnswer(x, outcome) => WorkerAt(w, x).Waiting? && WorkerAt(w, x).send < |w.sends|
      && Truthful(w, w.sends[WorkerAt(w, x).send].item, w.sends[WorkerAt(w, x).send].verdict, outcome)
    case Reconcile(late) => true
    case CheckAnswered(i, seen, found) => seen in {Uncertain, InProcessing} && FoundTrue(w, i, found)
    case Webhook(i, realized) => FoundTrue(w, i, if realized then FoundRealized else FoundNotRealized)
    case Complete(b) => true
  }

  /** The status an answer leaves the item in; only a rate limit makes it pending again. */
  function Answered(outcome: Outcome): ItemStatus {
    match outcome
    case SaidInProcessing => InProcessing
    case SaidPaid => Paid
    case SaidRefused => Failed
    case SaidRateLimited => Pending
    case SaidDuplicate => Uncertain
    case SaidNothing => Uncertain
  }

  function Recorded(db: Db, i: ItemId, outcome: Outcome): Db { SetItem(db, i, {Sending}, Answered(outcome)) }

  function Checked(db: Db, i: ItemId, seen: ItemStatus, found: Found): Db {
    match found
    case NotFoundYet => db
    case FoundRealized => SetItem(db, i, {seen}, Paid)
    case FoundNotRealized => SetItem(db, i, {seen}, Failed)
    case FoundOther => if seen == Uncertain then SetItem(db, i, {seen}, InProcessing) else db
  }

  function Notified(db: Db, i: ItemId, realized: bool): Db {
    SetItem(db, i, {Sending, InProcessing, Uncertain}, if realized then Paid else Failed)
  }

  ghost function Next(w: World, e: Event): World
    requires Enabled(w, e)
  {
    match e
    case Service(call) => w.(db := Apply(w.db, call))
    case ReadBatch(x, b) =>
      w.(workers := w.workers[x := Reading(Order(b, w.db.batches[b].reference, w.db.batches[b].issuer.value))])
    case GiveUp(x) =>
      w.(db := FailPending(w.db, w.workers[x].order.batch), workers := w.workers[x := Idle])
    case FetchPending(x, queue) => w.(workers := w.workers[x := Loaded(w.workers[x].order, queue)])
    case ClaimNext(x) =>
      var queue := w.workers[x].queue;
      var i := queue[0].id;
      if i in w.db.items && w.db.items[i].status == Pending
      then w.(db := SetItem(w.db, i, {Pending}, Sending),
              workers := w.workers[x := Claimed(w.workers[x].order, queue[0], queue[1..])])
      else w.(workers := w.workers[x := Loaded(w.workers[x].order, queue[1..])])
    case Stop(x) => w.(workers := w.workers[x := Idle])
    case Transmit(x) =>
      var me := w.workers[x];
      w.(sends := w.sends + [Send(me.current.id, me.order, me.current.payload, None)],
         workers := w.workers[x := Waiting(me.order, |w.sends|, me.queue)])
    case ProviderReceives(k, verdict, result) =>
      w.(sends := w.sends[k := w.sends[k].(verdict := Some(verdict))],
         remote := if verdict == Accepted then w.remote[w.sends[k].item := result] else w.remote)
    case ProviderSettles(i, result) => w.(remote := w.remote[i := result])
    case RecordAnswer(x, outcome) =>
      var me := w.workers[x];
      w.(db := Recorded(w.db, w.sends[me.send].item, outcome),
         workers := w.workers[x := if outcome == SaidRateLimited then Idle else Loaded(me.order, me.queue)])
    case Reconcile(late) => w.(db := MarkLost(w.db, late))
    case CheckAnswered(i, seen, found) => w.(db := Checked(w.db, i, seen, found))
    case Webhook(i, realized) => w.(db := Notified(w.db, i, realized))
    case Complete(b) => w.(db := CompleteFinished(w.db, b))
  }

  // ---- the invariant ---------------------------------------------------------------------

  predicate OrderStands(db: Db, o: Order) {
    && o.batch in db.batches
    && Paying(db.batches[o.batch].status)
    && db.batches[o.batch].reference == o.reference
    && db.batches[o.batch].issuer == Some(o.account)
  }

  predicate QueuedStands(db: Db, o: Order, q: Queued) {
    q.id in db.items && db.items[q.id].batch == o.batch && PayloadOf(db.items[q.id]) == q.payload
  }

  /** No request for the item may have been taken by the provider, now or later. */
  ghost predicate Untaken(w: World, i: ItemId) {
    && i !in w.remote
    && forall k {:trigger w.sends[k]} :: 0 <= k < |w.sends| && w.sends[k].item == i ==> w.sends[k].verdict == Some(RateLimited)
  }

  ghost predicate Decided(w: World, i: ItemId) {
    forall k {:trigger w.sends[k]} :: 0 <= k < |w.sends| && w.sends[k].item == i ==> w.sends[k].verdict.Some?
  }

  ghost predicate ItemTrue(w: World, i: ItemId) {
    i in w.db.items ==>
      && (w.db.items[i].status in {Pending, Canceled} ==> Untaken(w, i))
      && (w.db.items[i].status == Paid ==> i in w.remote && w.remote[i] == Realized)
      && (w.db.items[i].status == InProcessing ==> i in w.remote)
      && (w.db.items[i].status == Failed ==> Decided(w, i) && (i in w.remote ==> w.remote[i] == NotRealized))
  }

  predicate SendStands(w: World, k: nat) {
    k < |w.sends| ==>
      OrderStands(w.db, w.sends[k].order)
      && QueuedStands(w.db, w.sends[k].order, Queued(w.sends[k].item, w.sends[k].payload))
  }

  /** At most one request for an item is not one the provider turned away unread. */
  predicate SentOnce(w: World, j: nat, k: nat) {
    (j < |w.sends| && k < |w.sends| && w.sends[j].item == w.sends[k].item
     && w.sends[j].verdict != Some(RateLimited) && w.sends[k].verdict != Some(RateLimited)) ==> j == k
  }

  ghost predicate RemoteKnown(w: World, i: ItemId) {
    i in w.remote ==> exists k {:trigger w.sends[k]} :: 0 <= k < |w.sends| && w.sends[k].item == i && w.sends[k].verdict == Some(Accepted)
  }

  predicate AcceptedKnown(w: World, k: nat) {
    k < |w.sends| && w.sends[k].verdict == Some(Accepted) ==> w.sends[k].item in w.remote
  }

  ghost predicate OnlyOpen(w: World, i: ItemId, k: nat) {
    forall j {:trigger w.sends[j]} :: 0 <= j < |w.sends| && j != k && w.sends[j].item == i ==> w.sends[j].verdict == Some(RateLimited)
  }

  ghost predicate WorkerStands(w: World, x: WorkerId) {
    match WorkerAt(w, x)
    case Idle => true
    case Reading(o) => OrderStands(w.db, o)
    case Loaded(o, queue) => OrderStands(w.db, o) && QueueStands(w.db, o, queue)
    case Claimed(o, current, queue) =>
      && OrderStands(w.db, o) && QueueStands(w.db, o, queue) && QueuedStands(w.db, o, current)
      && w.db.items[current.id].status in {Sending, Uncertain}
      && Untaken(w, current.id)
    case Waiting(o, k, queue) =>
      && OrderStands(w.db, o) && QueueStands(w.db, o, queue)
      && k < |w.sends|
      && w.sends[k].item in w.db.items
      && w.db.items[w.sends[k].item].status !in {Pending, Canceled}
      && OnlyOpen(w, w.sends[k].item, k)
  }

  predicate QueueStands(db: Db, o: Order, queue: seq<Queued>) {
    forall n {:trigger queue[n]} :: 0 <= n < |queue| ==> QueuedStands(db, o, queue[n])
  }

  function Holding(w: World, x: WorkerId): Option<ItemId> {
    match WorkerAt(w, x)
    case Claimed(_, current, _) => Some(current.id)
    case Waiting(_, k, _) => if k < |w.sends| then Some(w.sends[k].item) else None
    case _ => None
  }

  predicate HoldersApart(w: World, x: WorkerId, y: WorkerId) {
    Holding(w, x).Some? && Holding(w, x) == Holding(w, y) ==> x == y
  }

  ghost predicate WorldInv(w: World) {
    && Inv(w.db)
    && (forall i {:trigger ItemTrue(w, i)} :: ItemTrue(w, i))
    && (forall k {:trigger SendStands(w, k)} :: SendStands(w, k))
    && (forall k {:trigger AcceptedKnown(w, k)} :: AcceptedKnown(w, k))
    && (forall j, k {:trigger SentOnce(w, j, k)} :: SentOnce(w, j, k))
    && (forall i {:trigger RemoteKnown(w, i)} :: RemoteKnown(w, i))
    && (forall x {:trigger WorkerStands(w, x)} :: WorkerStands(w, x))
    && (forall x, y {:trigger HoldersApart(w, x, y)} :: HoldersApart(w, x, y))
  }

  // ---- steps that only touch the database -------------------------------------------------

  lemma {:induction false} OrderServed(db: Db, after: Db, o: Order)
    requires Served(db, after) && OrderStands(db, o)
    ensures OrderStands(after, o)
  {
    assert BatchServed(db, after, o.batch);
  }

  lemma {:induction false} QueuedServed(db: Db, after: Db, o: Order, q: Queued)
    requires Served(db, after) && OrderStands(db, o) && QueuedStands(db, o, q)
    ensures QueuedStands(after, o, q)
  {
    assert ItemServed(db, after, q.id);
  }

  lemma {:induction false} QueueServed(db: Db, after: Db, o: Order, queue: seq<Queued>)
    requires Served(db, after) && OrderStands(db, o) && QueueStands(db, o, queue)
    ensures QueueStands(after, o, queue)
  {
    forall n | 0 <= n < |queue| ensures QueuedStands(after, o, queue[n]) {
      QueuedServed(db, after, o, queue[n]);
    }
  }

  lemma {:induction false} ServedKeepsWorker(w: World, after: Db, x: WorkerId)
    requires WorldInv(w) && Served(w.db, after)
    ensures WorkerStands(w.(db := after), x)
  {
    var v := w.(db := after);
    assert WorkerStands(w, x);
    match WorkerAt(w, x)
    case Idle =>
    case Reading(o) => OrderServed(w.db, after, o);
    case Loaded(o, queue) => OrderServed(w.db, after, o); QueueServed(w.db, after, o, queue);
    case Claimed(o, current, queue) =>
      OrderServed(w.db, after, o);
      QueueServed(w.db, after, o, queue);
      QueuedServed(w.db, after, o, current);
      assert ItemServed(w.db, after, current.id);
      assert Untaken(v, current.id);
    case Waiting(o, k, queue) =>
      OrderServed(w.db, after, o);
      QueueServed(w.db, after, o, queue);
      assert ItemServed(w.db, after, w.sends[k].item);
      assert OnlyOpen(v, w.sends[k].item, k);
  }

  lemma {:induction false} ServedKeeps(w: World, after: Db)
    requires WorldInv(w) && Served(w.db, after) && Inv(after)
    ensures WorldInv(w.(db := after))
  {
    var v := w.(db := after);
    forall i ensures ItemTrue(v, i) && RemoteKnown(v, i) {
      assert ItemTrue(w, i) && RemoteKnown(w, i) && ItemServed(w.db, after, i);
      if i in after.items && i !in w.db.items { NeverSent(w, i); }
      assert Untaken(w, i) == Untaken(v, i) && Decided(w, i) == Decided(v, i);
    }
    forall k: nat ensures SendStands(v, k) && AcceptedKnown(v, k) {
      assert SendStands(w, k) && AcceptedKnown(w, k);
      if k < |w.sends| {
        OrderServed(w.db, after, w.sends[k].order);
        QueuedServed(w.db, after, w.sends[k].order, Queued(w.sends[k].item, w.sends[k].payload));
      }
    }
    forall j: nat, k: nat ensures SentOnce(v, j, k) { assert SentOnce(w, j, k); }
    forall x ensures WorkerStands(v, x) { ServedKeepsWorker(w, after, x); }
    forall x, y ensures HoldersApart(v, x, y) { assert HoldersApart(w, x, y); }
  }

  /** An id no row uses was never on the wire. */
  lemma {:induction false} NeverSent(w: World, i: ItemId)
    requires WorldInv(w) && i !in w.db.items
    ensures Untaken(w, i)
  {
    forall k: nat | k < |w.sends| ensures w.sends[k].item != i {
      assert SendStands(w, k);
    }
    assert RemoteKnown(w, i);
  }

  // ---- one write of one item -------------------------------------------------------------

  /** A write of one in-flight item that tells the truth about it. */
  ghost predicate Honest(w: World, i: ItemId, from: set<ItemStatus>, to: ItemStatus) {
    && from <= {Sending, InProcessing, Uncertain}
    && (to == Paid ==> i in w.remote && w.remote[i] == Realized)
    && (to == InProcessing ==> i in w.remote && from <= {Sending, Uncertain})
    && (to == Failed ==> Decided(w, i) && (i in w.remote ==> w.remote[i] == NotRealized))
    && to in {Paid, Failed, InProcessing, Uncertain}
    && (to == Uncertain ==> from <= {Sending})
    && (to != Uncertain ==> forall x {:trigger WorkerAt(w, x)} :: WorkerAt(w, x).Claimed? ==> WorkerAt(w, x).current.id != i)
  }

  lemma {:induction false} SetItemStands(db: Db, i: ItemId, from: set<ItemStatus>, to: ItemStatus, o: Order)
    ensures OrderStands(db, o) ==> OrderStands(SetItem(db, i, from, to), o)
    ensures forall q :: QueuedStands(db, o, q) ==> QueuedStands(SetItem(db, i, from, to), o, q)
  {}

  lemma {:induction false} SetItemKeepsWorld(w: World, i: ItemId, from: set<ItemStatus>, to: ItemStatus)
    requires WorldInv(w) && Honest(w, i, from, to)
    ensures WorldInv(w.(db := SetItem(w.db, i, from, to)))
  {
    assert ItemFits(w.db, i);
    SetItemKeeps(w.db, i, from, to);
    var v := w.(db := SetItem(w.db, i, from, to));
    forall k ensures ItemTrue(v, k) && RemoteKnown(v, k) {
      assert ItemTrue(w, k) && RemoteKnown(w, k);
      assert Untaken(w, k) == Untaken(v, k) && Decided(w, k) == Decided(v, k);
    }
    forall k: nat ensures SendStands(v, k) && AcceptedKnown(v, k) {
      assert SendStands(w, k) && AcceptedKnown(w, k);
      if k < |w.sends| { SetItemStands(w.db, i, from, to, w.sends[k].order); }
    }
    forall j: nat, k: nat ensures SentOnce(v, j, k) { assert SentOnce(w, j, k); }
    forall x ensures WorkerStands(v, x) { SetItemKeepsWorker(w, i, from, to, x); }
    forall x, y ensures HoldersApart(v, x, y) { assert HoldersApart(w, x, y); }
  }

  lemma {:induction false} SetItemKeepsWorker(w: World, i: ItemId, from: set<ItemStatus>, to: ItemStatus, x: WorkerId)
    requires WorldInv(w) && Honest(w, i, from, to)
    ensures WorkerStands(w.(db := SetItem(w.db, i, from, to)), x)
  {
    var v := w.(db := SetItem(w.db, i, from, to));
    assert WorkerStands(w, x);
    if !WorkerAt(w, x).Idle? { SetItemStands(w.db, i, from, to, WorkerAt(w, x).order); }
    match WorkerAt(w, x)
    case Claimed(o, current, queue) => assert Untaken(v, current.id);
    case Waiting(o, k, queue) => assert OnlyOpen(v, w.sends[k].item, k);
    case _ =>
  }

  // ---- bulk writes -----------------------------------------------------------------------

  lemma {:induction false} FailPendingKeepsWorld(w: World, o: Order)
    requires WorldInv(w) && OrderStands(w.db, o)
    ensures WorldInv(w.(db := FailPending(w.db, o.batch)))
  {
    FailPendingKeeps(w.db, o.batch);
    var v := w.(db := FailPending(w.db, o.batch));
    forall k ensures ItemTrue(v, k) && RemoteKnown(v, k) {
      assert ItemTrue(w, k) && RemoteKnown(w, k);
      assert Untaken(w, k) == Untaken(v, k) && Decided(w, k) == Decided(v, k);
      assert Untaken(w, k) ==> Decided(w, k);
    }
    forall k: nat ensures SendStands(v, k) && AcceptedKnown(v, k) { assert SendStands(w, k) && AcceptedKnown(w, k); }
    forall j: nat, k: nat ensures SentOnce(v, j, k) { assert SentOnce(w, j, k); }
    forall i ensures BulkItem(w.db, v.db, i) {}
    forall x ensures WorkerStands(v, x) { BulkKeepsWorker(w, v, x); }
    forall x, y ensures HoldersApart(v, x, y) { assert HoldersApart(w, x, y); }
  }

  lemma {:induction false} MarkLostKeepsWorld(w: World, late: set<ItemId>)
    requires WorldInv(w)
    ensures WorldInv(w.(db := MarkLost(w.db, late)))
  {
    MarkLostKeeps(w.db, late);
    var v := w.(db := MarkLost(w.db, late));
    forall k ensures ItemTrue(v, k) && RemoteKnown(v, k) {
      assert ItemTrue(w, k) && RemoteKnown(w, k);
      assert Untaken(w, k) == Untaken(v, k) && Decided(w, k) == Decided(v, k);
    }
    forall k: nat ensures SendStands(v, k) && AcceptedKnown(v, k) { assert SendStands(w, k) && AcceptedKnown(w, k); }
    forall j: nat, k: nat ensures SentOnce(v, j, k) { assert SentOnce(w, j, k); }
    forall i ensures BulkItem(w.db, v.db, i) {}
    forall x ensures WorkerStands(v, x) { BulkKeepsWorker(w, v, x); }
    forall x, y ensures HoldersApart(v, x, y) { assert HoldersApart(w, x, y); }
  }

  /** A bulk write fails pending items or takes sending ones to verification, nothing else. */
  predicate BulkItem(db: Db, after: Db, i: ItemId) {
    i in db.items ==>
      && i in after.items
      && after.items[i] == db.items[i].(status := after.items[i].status)
      && (after.items[i].status == db.items[i].status
          || (db.items[i].status == Pending && after.items[i].status == Failed)
          || (db.items[i].status == Sending && after.items[i].status == Uncertain))
  }

  lemma {:induction false} BulkKeepsWorker(w: World, v: World, x: WorkerId)
    requires WorldInv(w) && v == w.(db := v.db) && v.db == w.db.(items := v.db.items)
    requires forall i {:trigger BulkItem(w.db, v.db, i)} :: BulkItem(w.db, v.db, i)
    ensures WorkerStands(v, x)
  {
    assert WorkerStands(w, x);
    forall o: Order, queue: seq<Queued> | QueueStands(w.db, o, queue) ensures QueueStands(v.db, o, queue) {
      forall n | 0 <= n < |queue| ensures QueuedStands(v.db, o, queue[n]) {
        assert QueuedStands(w.db, o, queue[n]) && BulkItem(w.db, v.db, queue[n].id);
      }
    }
    match WorkerAt(w, x)
    case Claimed(o, current, queue) =>
      assert Untaken(v, current.id) && BulkItem(w.db, v.db, current.id);
    case Waiting(o, k, queue) =>
      assert OnlyOpen(v, w.sends[k].item, k) && BulkItem(w.db, v.db, w.sends[k].item);
    case _ =>
  }

  lemma {:induction false} CompleteKeepsWorld(w: World, b: BatchId)
    requires WorldInv(w)
    ensures WorldInv(w.(db := CompleteFinished(w.db, b)))
  {
    CompleteFinishedKeeps(w.db, b);
    assert Served(w.db, CompleteFinished(w.db, b));
    ServedKeeps(w, CompleteFinished(w.db, b));
  }

  // ---- steps of a sender -----------------------------------------------------------------

  /** Only the place of one sender changes, and it holds no item it did not hold before. */
  lemma {:induction false} MoveWorkerKeeps(w: World, x: WorkerId, to: Worker)
    requires WorldInv(w)
    requires to.Idle? || to.Reading? || to.Loaded?
    requires !to.Idle? ==> OrderStands(w.db, to.order)
    requires to.Loaded? ==> QueueStands(w.db, to.order, to.queue)
    ensures WorldInv(w.(workers := w.workers[x := to]))
  {
    var v := w.(workers := w.workers[x := to]);
    forall i ensures ItemTrue(v, i) && RemoteKnown(v, i) {
      assert ItemTrue(w, i) && RemoteKnown(w, i);
      assert Untaken(w, i) == Untaken(v, i) && Decided(w, i) == Decided(v, i);
    }
    forall k: nat ensures SendStands(v, k) && AcceptedKnown(v, k) { assert SendStands(w, k) && AcceptedKnown(w, k); }
    forall j: nat, k: nat ensures SentOnce(v, j, k) { assert SentOnce(w, j, k); }
    forall y ensures WorkerStands(v, y) {
      assert WorkerStands(w, y);
      if y != x { SameSends(w, v, y); }
    }
    forall y, z ensures HoldersApart(v, y, z) { assert HoldersApart(w, y, z); }
  }

  lemma {:induction false} SameSends(w: World, v: World, y: WorkerId)
    requires w.sends == v.sends && w.remote == v.remote && w.db == v.db && WorkerAt(w, y) == WorkerAt(v, y)
    requires WorkerStands(w, y)
    ensures WorkerStands(v, y)
  {
    match WorkerAt(w, y)
    case Claimed(o, current, queue) => assert Untaken(v, current.id);
    case Waiting(o, k, queue) => assert OnlyOpen(v, w.sends[k].item, k);
    case _ =>
  }

  lemma {:induction false} TailStands(db: Db, o: Order, queue: seq<Queued>)
    requires QueueStands(db, o, queue) && queue != []
    ensures QueueStands(db, o, queue[1..]) && QueuedStands(db, o, queue[0])
  {
    forall n | 0 <= n < |queue[1..]| ensures QueuedStands(db, o, queue[1..][n]) {
      assert queue[1..][n] == queue[n + 1];
    }
  }

  lemma {:induction false} ClaimKeeps(w: World, x: WorkerId)
    requires WorldInv(w) && Enabled(w, ClaimNext(x))
    ensures WorldInv(Next(w, ClaimNext(x)))
  {
    var me := w.workers[x];
    var i := me.queue[0].id;
    assert WorkerStands(w, x);
    TailStands(w.db, me.order, me.queue);
    if w.db.items[i].status == Pending {
      assert ItemFits(w.db, i);
      SetItemKeeps(w.db, i, {Pending}, Sending);
      var v := Next(w, ClaimNext(x));
      forall k ensures ItemTrue(v, k) && RemoteKnown(v, k) {
        assert ItemTrue(w, k) && RemoteKnown(w, k);
        assert Untaken(w, k) == Untaken(v, k) && Decided(w, k) == Decided(v, k);
      }
      forall k: nat ensures SendStands(v, k) && AcceptedKnown(v, k) { assert SendStands(w, k) && AcceptedKnown(w, k); }
      forall j: nat, k: nat ensures SentOnce(v, j, k) { assert SentOnce(w, j, k); }
      assert ItemTrue(w, i);
      assert Untaken(v, i);
      forall y ensures WorkerStands(v, y) { ClaimKeepsWorker(w, x, y); }
      forall y, z ensures HoldersApart(v, y, z) {
        assert HoldersApart(w, y, z) && WorkerStands(w, y) && WorkerStands(w, z);
      }
    } else {
      MoveWorkerKeeps(w, x, Loaded(me.order, me.queue[1..]));
    }
  }

  lemma {:induction false} ClaimKeepsWorker(w: World, x: WorkerId, y: WorkerId)
    requires WorldInv(w) && Enabled(w, ClaimNext(x))
    requires w.workers[x].queue[0].id in w.db.items && w.db.items[w.workers[x].queue[0].id].status == Pending
    ensures WorkerStands(Next(w, ClaimNext(x)), y)
  {
    var v := Next(w, ClaimNext(x));
    var me := w.workers[x];
    var i := me.queue[0].id;
    assert WorkerStands(w, y) && WorkerStands(w, x);
    TailStands(w.db, me.order, me.queue);
    if y == x {
      assert ItemTrue(w, i);
      assert Untaken(v, i);
    } else {
      match WorkerAt(w, y)
      case Claimed(o, current, queue) => assert Untaken(v, current.id);
      case Waiting(o, k, queue) => assert OnlyOpen(v, w.sends[k].item, k);
      case _ =>
    }
  }

  lemma {:induction false} SentElsewhere(w: World, v: World, i: ItemId)
    requires |v.sends| == |w.sends| + 1 && v.sends[..|w.sends|] == w.sends && v.remote == w.remote
    requires v.sends[|w.sends|].item != i
    ensures Untaken(w, i) == Untaken(v, i) && Decided(w, i) == Decided(v, i)
  {
    forall k | 0 <= k < |w.sends| ensures v.sends[k] == w.sends[k] {
      assert v.sends[..|w.sends|][k] == v.sends[k];
    }
  }

  lemma {:induction false} TransmitKeeps(w: World, x: WorkerId)
    requires WorldInv(w) && Enabled(w, Transmit(x))
    ensures WorldInv(Next(w, Transmit(x)))
  {
    var v := Next(w, Transmit(x));
    var me := w.workers[x];
    var i := me.current.id;
    var n := |w.sends|;
    assert WorkerStands(w, x);
    forall k ensures ItemTrue(v, k) && RemoteKnown(v, k) {
      assert ItemTrue(w, k) && RemoteKnown(w, k);
      if k != i { SentElsewhere(w, v, k); }
      if k in w.remote {
        var s :| 0 <= s < |w.sends| && w.sends[s].item == k && w.sends[s].verdict == Some(Accepted);
        assert v.sends[s] == w.sends[s];
      }
    }
    forall k: nat ensures SendStands(v, k) && AcceptedKnown(v, k) { assert SendStands(w, k) && AcceptedKnown(w, k); }
    forall j: nat, k: nat ensures SentOnce(v, j, k) {
      assert SentOnce(w, j, k);
    }
    forall y ensures WorkerStands(v, y) { TransmitKeepsWorker(w, x, y); }
    forall y, z ensures HoldersApart(v, y, z) {
      assert HoldersApart(w, y, z) && WorkerStands(w, y) && WorkerStands(w, z);
    }
  }

  lemma {:induction false} TransmitKeepsWorker(w: World, x: WorkerId, y: WorkerId)
    requires WorldInv(w) && Enabled(w, Transmit(x))
    ensures WorkerStands(Next(w, Transmit(x)), y)
  {
    var v := Next(w, Transmit(x));
    var i := w.workers[x].current.id;
    assert WorkerStands(w, y) && WorkerStands(w, x) && HoldersApart(w, x, y);
    if y == x {
      assert OnlyOpen(v, i, |w.sends|);
    } else {
      match WorkerAt(w, y)
      case Claimed(o, current, queue) => assert Untaken(v, current.id);
      case Waiting(o, k, queue) => assert OnlyOpen(v, w.sends[k].item, k);
      case _ =>
    }
  }

  // ---- steps of the provider -------------------------------------------------------------

  lemma {:induction false} ReceiveKeeps(w: World, k: nat, verdict: Verdict, result: Remote)
    requires WorldInv(w) && Enabled(w, ProviderReceives(k, verdict, result))
    ensures WorldInv(Next(w, ProviderReceives(k, verdict, result)))
  {
    var v := Next(w, ProviderReceives(k, verdict, result));
    var i := w.sends[k].item;
    assert SendStands(w, k);
    forall j ensures ItemTrue(v, j) && RemoteKnown(v, j) {
      assert ItemTrue(w, j) && RemoteKnown(w, j);
      if j != i {
        assert Untaken(w, j) ==> Untaken(v, j);
        assert Decided(w, j) ==> Decided(v, j);
      } else {
        assert !Untaken(w, i) && !Decided(w, i) by { assert w.sends[k].verdict == None; }
      }
      if j in w.remote {
        var s :| 0 <= s < |w.sends| && w.sends[s].item == j && w.sends[s].verdict == Some(Accepted);
        assert v.sends[s].verdict == Some(Accepted);
      } else if j in v.remote {
        assert v.sends[k].verdict == Some(Accepted);
      }
    }
    forall j: nat ensures SendStands(v, j) && AcceptedKnown(v, j) { assert SendStands(w, j) && AcceptedKnown(w, j); }
    forall j: nat, s: nat ensures SentOnce(v, j, s) { assert SentOnce(w, j, s); }
    forall y ensures WorkerStands(v, y) {
      assert WorkerStands(w, y);
      match WorkerAt(w, y)
      case Claimed(o, current, queue) =>
        assert current.id != i by { assert w.sends[k].verdict == None; }
        assert Untaken(v, current.id);
      case Waiting(o, n, queue) => assert OnlyOpen(v, w.sends[n].item, n);
      case _ =>
    }
    forall y, z ensures HoldersApart(v, y, z) { assert HoldersApart(w, y, z); }
  }

  lemma {:induction false} SettleKeeps(w: World, i: ItemId, result: Remote)
    requires WorldInv(w) && Enabled(w, ProviderSettles(i, result))
    ensures WorldInv(Next(w, ProviderSettles(i, result)))
  {
    var v := Next(w, ProviderSettles(i, result));
    forall j ensures ItemTrue(v, j) && RemoteKnown(v, j) {
      assert ItemTrue(w, j) && RemoteKnown(w, j);
      assert Untaken(w, j) ==> Untaken(v, j);
      assert Decided(w, j) == Decided(v, j);
    }
    forall j: nat ensures SendStands(v, j) && AcceptedKnown(v, j) { assert SendStands(w, j) && AcceptedKnown(w, j); }
    forall j: nat, s: nat ensures SentOnce(v, j, s) { assert SentOnce(w, j, s); }
    forall y ensures WorkerStands(v, y) {
      assert WorkerStands(w, y);
      match WorkerAt(w, y)
      case Claimed(o, current, queue) => assert Untaken(v, current.id);
      case Waiting(o, n, queue) => assert OnlyOpen(v, w.sends[n].item, n);
      case _ =>
    }
    forall y, z ensures HoldersApart(v, y, z) { assert HoldersApart(w, y, z); }
  }

  // ---- answers, checks and notices -------------------------------------------------------

  /** A claim not yet on the wire is of an item the provider knows nothing about. */
  lemma {:induction false} NotClaimed(w: World, i: ItemId)
    requires WorldInv(w) && !Untaken(w, i)
    ensures forall x {:trigger WorkerAt(w, x)} :: WorkerAt(w, x).Claimed? ==> WorkerAt(w, x).current.id != i
  {
    forall x | WorkerAt(w, x).Claimed? ensures WorkerAt(w, x).current.id != i { assert WorkerStands(w, x); }
  }

  lemma {:induction false} CheckKeeps(w: World, i: ItemId, seen: ItemStatus, found: Found)
    requires WorldInv(w) && Enabled(w, CheckAnswered(i, seen, found))
    ensures WorldInv(Next(w, CheckAnswered(i, seen, found)))
  {
    if found != NotFoundYet {
      NotClaimed(w, i);
      if found == FoundRealized {
        SetItemKeepsWorld(w, i, {seen}, Paid);
      } else if found == FoundNotRealized {
        AllDecided(w, i);
        SetItemKeepsWorld(w, i, {seen}, Failed);
      } else if seen == Uncertain {
        SetItemKeepsWorld(w, i, {seen}, InProcessing);
      }
    }
  }

  /** Once the provider has the payment no other request for it is on its way. */
  lemma {:induction false} AllDecided(w: World, i: ItemId)
    requires WorldInv(w) && i in w.remote
    ensures Decided(w, i)
  {
    assert RemoteKnown(w, i);
    var k :| 0 <= k < |w.sends| && w.sends[k].item == i && w.sends[k].verdict == Some(Accepted);
    forall j: nat | j < |w.sends| && w.sends[j].item == i ensures w.sends[j].verdict.Some? {
      assert SentOnce(w, j, k);
    }
  }

  lemma {:induction false} WebhookKeeps(w: World, i: ItemId, realized: bool)
    requires WorldInv(w) && Enabled(w, Webhook(i, realized))
    ensures WorldInv(Next(w, Webhook(i, realized)))
  {
    NotClaimed(w, i);
    if !realized { AllDecided(w, i); }
    SetItemKeepsWorld(w, i, {Sending, InProcessing, Uncertain}, if realized then Paid else Failed);
  }

  lemma {:induction false} AnswerKeeps(w: World, x: WorkerId, outcome: Outcome)
    requires WorldInv(w) && Enabled(w, RecordAnswer(x, outcome))
    ensures WorldInv(Next(w, RecordAnswer(x, outcome)))
  {
    var me := w.workers[x];
    var i := w.sends[me.send].item;
    assert WorkerStands(w, x);
    var there := w.(workers := w.workers[x := if outcome == SaidRateLimited then Idle else Loaded(me.order, me.queue)]);
    MoveWorkerKeeps(w, x, there.workers[x]);
    HolderLeft(w, x, there, i);
    if outcome == SaidRateLimited {
      ReleaseKeeps(there, i, me.send);
    } else {
      if outcome == SaidRefused { RefusalDecides(w, x); }
      if outcome in {SaidInProcessing} { AcceptedIsRemote(w, me.send); }
      SetItemKeepsWorld(there, i, {Sending},
        match outcome case SaidInProcessing => InProcessing case SaidPaid => Paid case SaidRefused => Failed
                      case _ => Uncertain);
    }
  }

  /** Nobody else holds the item a sender lets go of. */
  lemma {:induction false} HolderLeft(w: World, x: WorkerId, there: World, i: ItemId)
    requires WorldInv(w) && WorkerAt(w, x).Waiting? && WorkerAt(w, x).send < |w.sends|
    requires i == w.sends[WorkerAt(w, x).send].item
    requires x in there.workers && there == w.(workers := w.workers[x := there.workers[x]])
    requires !there.workers[x].Claimed? && !there.workers[x].Waiting?
    ensures forall y {:trigger Holding(there, y)} :: Holding(there, y) != Some(i)
    ensures forall y {:trigger WorkerAt(there, y)} :: WorkerAt(there, y).Claimed? ==> WorkerAt(there, y).current.id != i
  {
    forall y ensures Holding(there, y) != Some(i) { assert HoldersApart(w, x, y); }
    forall y | WorkerAt(there, y).Claimed? ensures WorkerAt(there, y).current.id != i {
      assert Holding(there, y) != Some(i);
    }
  }

  ghost predicate TurnedAway(w: World, i: ItemId, k: nat) {
    k < |w.sends| && w.sends[k].item == i && w.sends[k].verdict == Some(RateLimited) && OnlyOpen(w, i, k)
  }

  /** Every request turned away: the provider has nothing of the item. */
  lemma {:induction false} TurnedAwayIsUntaken(w: World, i: ItemId, k: nat)
    requires WorldInv(w) && TurnedAway(w, i, k)
    ensures Untaken(w, i)
  {
    assert RemoteKnown(w, i);
    forall j | 0 <= j < |w.sends| && w.sends[j].item == i ensures w.sends[j].verdict == Some(RateLimited) {}
  }

  lemma {:induction false} ReleaseKeeps(w: World, i: ItemId, k: nat)
    requires WorldInv(w) && TurnedAway(w, i, k)
    requires forall y {:trigger Holding(w, y)} :: Holding(w, y) != Some(i)
    ensures WorldInv(w.(db := SetItem(w.db, i, {Sending}, Pending)))
  {
    TurnedAwayIsUntaken(w, i, k);
    assert ItemFits(w.db, i);
    SetItemKeeps(w.db, i, {Sending}, Pending);
    var v := w.(db := SetItem(w.db, i, {Sending}, Pending));
    forall j ensures ItemTrue(v, j) && RemoteKnown(v, j) {
      assert ItemTrue(w, j) && RemoteKnown(w, j);
      assert Untaken(w, j) == Untaken(v, j) && Decided(w, j) == Decided(v, j);
    }
    forall j: nat ensures SendStands(v, j) && AcceptedKnown(v, j) {
      assert SendStands(w, j) && AcceptedKnown(w, j);
      if j < |w.sends| { SetItemStands(w.db, i, {Sending}, Pending, w.sends[j].order); }
    }
    forall j: nat, s: nat ensures SentOnce(v, j, s) { assert SentOnce(w, j, s); }
    forall y ensures WorkerStands(v, y) {
      assert WorkerStands(w, y) && Holding(w, y) != Some(i);
      if !WorkerAt(w, y).Idle? { SetItemStands(w.db, i, {Sending}, Pending, WorkerAt(w, y).order); }
      match WorkerAt(w, y)
      case Claimed(o, current, queue) => assert Untaken(v, current.id);
      case Waiting(o, n, queue) => assert OnlyOpen(v, w.sends[n].item, n);
      case _ =>
    }
    forall y, z ensures HoldersApart(v, y, z) { assert HoldersApart(w, y, z); }
  }

  lemma {:induction false} AcceptedIsRemote(w: World, k: nat)
    requires WorldInv(w) && k < |w.sends| && w.sends[k].verdict == Some(Accepted)
    ensures w.sends[k].item in w.remote
  {
    assert AcceptedKnown(w, k);
  }

  lemma {:induction false} RefusalDecides(w: World, x: WorkerId)
    requires WorldInv(w) && Enabled(w, RecordAnswer(x, SaidRefused))
    ensures var i := w.sends[WorkerAt(w, x).send].item;
      Decided(w, i) && (i in w.remote ==> w.remote[i] == NotRealized)
  {
    var k := WorkerAt(w, x).send;
    var i := w.sends[k].item;
    assert WorkerStands(w, x) && RemoteKnown(w, i);
    forall j | 0 <= j < |w.sends| && w.sends[j].item == i ensures w.sends[j].verdict.Some? {}
  }
}
