/** What holds after every run of the payment services, from the empty database on. */
module PaymentTheorems {
  import opened Common
  import opened PaymentContent
  import opened PaymentModel
  import opened PaymentInvariant
  import opened PaymentWorld
  import opened PaymentSending

  const START := World(Db(map[], map[], map[], map[], map[], map[]), [], map[], map[])

  ghost predicate Possible(w: World, es: seq<Event>)
    decreases |es|
  {
    es == [] || (Enabled(w, es[0]) && Possible(Next(w, es[0]), es[1..]))
  }

  ghost function After(w: World, es: seq<Event>): World
    requires Possible(w, es)
    decreases |es|
  {
    if es == [] then w else After(Next(w, es[0]), es[1..])
  }

  lemma {:induction false} NextKeeps(w: World, e: Event)
    requires WorldInv(w) && Enabled(w, e)
    ensures WorldInv(Next(w, e))
  {
    match e
    case Service(call) => CallKeeps(w.db, call); CallServed(w.db, call); ServedKeeps(w, Apply(w.db, call));
    case ReadBatch(x, b) => MoveWorkerKeeps(w, x, Next(w, e).workers[x]);
    case GiveUp(x) =>
      assert WorkerStands(w, x);
      FailPendingKeepsWorld(w, w.workers[x].order);
      MoveWorkerKeeps(w.(db := FailPending(w.db, w.workers[x].order.batch)), x, Idle);
    case FetchPending(x, queue) =>
      assert WorkerStands(w, x);
      assert QueueStands(w.db, w.workers[x].order, queue);
      MoveWorkerKeeps(w, x, Loaded(w.workers[x].order, queue));
    case ClaimNext(x) => ClaimKeeps(w, x);
    case Stop(x) => MoveWorkerKeeps(w, x, Idle);
    case Transmit(x) => TransmitKeeps(w, x);
    case ProviderReceives(k, verdict, result) => ReceiveKeeps(w, k, verdict, result);
    case ProviderSettles(i, result) => SettleKeeps(w, i, result);
    case RecordAnswer(x, outcome) => AnswerKeeps(w, x, outcome);
    case Reconcile(late) => MarkLostKeepsWorld(w, late);
    case CheckAnswered(i, seen, found) => CheckKeeps(w, i, seen, found);
    case Webhook(i, realized) => WebhookKeeps(w, i, realized);
    case Complete(b) => CompleteKeepsWorld(w, b);
  }

  lemma {:induction false} RunKeeps(w: World, es: seq<Event>)
    requires WorldInv(w) && Possible(w, es)
    ensures WorldInv(After(w, es))
    decreases |es|
  {
    if es != [] {
      NextKeeps(w, es[0]);
      RunKeeps(Next(w, es[0]), es[1..]);
    }
  }

  lemma {:induction false} StartHolds()
    ensures WorldInv(START)
  {}

  // ---- nothing is sent twice -------------------------------------------------------------

  /** Of all requests ever put on the wire for one send id, at most one was not turned away unread. */
  lemma {:induction false} AtMostOneSend(es: seq<Event>, j: nat, k: nat)
    requires Possible(START, es)
    requires var w := After(START, es);
      j < |w.sends| && k < |w.sends| && w.sends[j].item == w.sends[k].item
      && w.sends[j].verdict != Some(RateLimited) && w.sends[k].verdict != Some(RateLimited)
    ensures j == k
  {
    StartHolds();
    RunKeeps(START, es);
    assert SentOnce(After(START, es), j, k);
  }

  /** The provider never sees a send id it already has. */
  lemma {:induction false} NoDuplicateAnswer(es: seq<Event>, k: nat)
    requires Possible(START, es)
    requires k < |After(START, es).sends| && After(START, es).sends[k].verdict == None
    ensures After(START, es).sends[k].item !in After(START, es).remote
  {
    StartHolds();
    RunKeeps(START, es);
    var w := After(START, es);
    forall s: nat | s < |w.sends| && w.sends[s].item == w.sends[k].item
      ensures w.sends[s].verdict != Some(Accepted)
    {
      assert SentOnce(w, s, k);
    }
    assert RemoteKnown(w, w.sends[k].item);
  }

  /** PAID means the provider paid; PENDING, CANCELED and FAILED mean it did not and never will. */
  lemma {:induction false} StatusIsTrue(es: seq<Event>, i: ItemId)
    requires Possible(START, es) && i in After(START, es).db.items
    ensures var w := After(START, es);
      && (w.db.items[i].status == Paid ==> i in w.remote && w.remote[i] == Realized)
      && (w.db.items[i].status in {Pending, Canceled} ==> i !in w.remote && Decided(w, i))
      && (w.db.items[i].status == Failed ==> Decided(w, i) && (i in w.remote ==> w.remote[i] == NotRealized))
  {
    StartHolds();
    RunKeeps(START, es);
    assert ItemTrue(After(START, es), i);
  }

  lemma {:induction false} NextKeepsFinal(w: World, e: Event, i: ItemId)
    requires WorldInv(w) && Enabled(w, e) && i in w.db.items && Final(w.db.items[i].status)
    ensures i in Next(w, e).db.items && Next(w, e).db.items[i].status == w.db.items[i].status
  {
    match e
    case Service(call) => CallKeepsFinal(w.db, call, i);
    case GiveUp(x) => FailKeepsFinal(w.db, w.workers[x].order.batch, i);
    case Reconcile(late) => LostKeepsFinal(w.db, late, i);
    case ClaimNext(x) => WriteKeepsFinal(w.db, w.workers[x].queue[0].id, {Pending}, Sending, i);
    case RecordAnswer(x, outcome) => RecordKeepsFinal(w.db, w.sends[w.workers[x].send].item, outcome, i);
    case CheckAnswered(k, seen, found) => CheckKeepsFinal(w.db, k, seen, found, i);
    case Webhook(k, realized) =>
      WriteKeepsFinal(w.db, k, {Sending, InProcessing, Uncertain}, if realized then Paid else Failed, i);
    case _ =>
  }

  lemma {:induction false} FailKeepsFinal(db: Db, b: BatchId, i: ItemId)
    requires i in db.items && Final(db.items[i].status)
    ensures i in FailPending(db, b).items && FailPending(db, b).items[i] == db.items[i]
  {}

  lemma {:induction false} LostKeepsFinal(db: Db, late: set<ItemId>, i: ItemId)
    requires i in db.items && Final(db.items[i].status)
    ensures i in MarkLost(db, late).items && MarkLost(db, late).items[i] == db.items[i]
  {}

  lemma {:induction false} CallKeepsFinal(db: Db, call: Call, i: ItemId)
    requires Inv(db) && Allowed(db, call) && i in db.items && Final(db.items[i].status)
    ensures i in Apply(db, call).items && Apply(db, call).items[i].status == db.items[i].status
  {
    CallServed(db, call);
    assert ItemServed(db, Apply(db, call), i);
  }

  lemma {:induction false} RecordKeepsFinal(db: Db, k: ItemId, outcome: Outcome, i: ItemId)
    requires i in db.items && Final(db.items[i].status)
    ensures Recorded(db, k, outcome).batches == db.batches
    ensures i in Recorded(db, k, outcome).items && Recorded(db, k, outcome).items[i] == db.items[i]
  {}

  lemma {:induction false} CheckKeepsFinal(db: Db, k: ItemId, seen: ItemStatus, found: Found, i: ItemId)
    requires i in db.items && Final(db.items[i].status) && !Final(seen)
    ensures i in Checked(db, k, seen, found).items && Checked(db, k, seen, found).items[i] == db.items[i]
  {}

  lemma {:induction false} WriteKeepsFinal(db: Db, k: ItemId, from: set<ItemStatus>, to: ItemStatus, i: ItemId)
    requires i in db.items && Final(db.items[i].status)
    requires forall s :: s in from ==> !Final(s)
    ensures i in SetItem(db, k, from, to).items && SetItem(db, k, from, to).items[i] == db.items[i]
  {}

  /** A known result is for ever. */
  lemma {:induction false} FinalForever(w: World, es: seq<Event>, i: ItemId)
    requires WorldInv(w) && Possible(w, es) && i in w.db.items && Final(w.db.items[i].status)
    ensures i in After(w, es).db.items && After(w, es).db.items[i].status == w.db.items[i].status
    decreases |es|
  {
    if es != [] {
      NextKeepsFinal(w, es[0], i);
      NextKeeps(w, es[0]);
      FinalForever(Next(w, es[0]), es[1..], i);
    }
  }

  // ---- nothing is sent that was not approved ---------------------------------------------

  /** The one approval of a batch that may send, and what it authorizes. */
  ghost predicate Authorizes(db: Db, a: ApprovalId, b: BatchId) {
    a in db.approvals && db.approvals[a].batch == b && db.approvals[a].state == Approved
  }

  lemma {:induction false} OneApproval(db: Db, b: BatchId) returns (a: ApprovalId)
    requires Inv(db) && b in db.batches && Paying(db.batches[b].status)
    ensures Authorizes(db, a, b)
    ensures forall c :: Authorizes(db, c, b) ==> c == a
    ensures db.batches[b].issuer.Some?
    ensures db.approvals[a].content
      == ContentOf(db.batches[b].reference, db.batches[b].issuer.value, Hashed(db.items, b))
    ensures db.approvals[a].totalCents == Total(Hashed(db.items, b))
  {
    assert BatchSound(db, b);
    a :| a in db.approvals && db.approvals[a].batch == b && db.approvals[a].state == Approved;
    assert ApprovalSound(db, a) && RequestFits(db, a);
    forall c | Authorizes(db, c, b) ensures c == a {
      assert ApprovalSound(db, c) && RequestFits(db, c) && RequestsDiffer(db, a, c);
    }
  }

  /**
   Every request ever sent is of a batch with exactly one approval, for the reference and
   from the account of that approval, to a destination and amount listed in it.
   */
  lemma {:induction false} EverySendIsApproved(es: seq<Event>, k: nat) returns (a: ApprovalId)
    requires Possible(START, es) && k < |After(START, es).sends|
    ensures var w := After(START, es);
      var s := w.sends[k];
      && s.item in w.db.items
      && w.db.items[s.item].batch == s.order.batch
      && Authorizes(w.db, a, s.order.batch)
      && (forall c :: Authorizes(w.db, c, s.order.batch) ==> c == a)
      && w.db.approvals[a].content.reference == s.order.reference
      && w.db.approvals[a].content.issuer == s.order.account
      && w.db.approvals[a].content.items == Lines(Hashed(w.db.items, s.order.batch))
      && HashedItem(s.payload.destination, s.payload.amountCents) in w.db.approvals[a].content.items
  {
    StartHolds();
    RunKeeps(START, es);
    var w := After(START, es);
    assert SendStands(w, k);
    a := OneApproval(w.db, w.sends[k].order.batch);
    LineIsListed(Hashed(w.db.items, w.sends[k].order.batch), w.sends[k].item);
  }

  function PaidOf(db: Db, b: BatchId): map<ItemId, HashedItem> {
    map i | i in db.items && db.items[i].batch == b && db.items[i].status == Paid ::
      HashedItem(db.items[i].destination, db.items[i].amountCents)
  }

  /** A batch without an approval paid nothing; one with it never more than it authorizes. */
  lemma {:induction false} PaidWithinApproved(es: seq<Event>, b: BatchId)
    requires Possible(START, es) && b in After(START, es).db.batches
    ensures var db := After(START, es).db;
      && (!Paying(db.batches[b].status) ==> PaidOf(db, b) == map[])
      && (forall a :: Authorizes(db, a, b) ==> Total(PaidOf(db, b)) <= db.approvals[a].totalCents)
  {
    StartHolds();
    RunKeeps(START, es);
    var db := After(START, es).db;
    if Paying(db.batches[b].status) {
      var a := OneApproval(db, b);
      PartOfTotal(PaidOf(db, b), Hashed(db.items, b));
    } else {
      forall i ensures i !in PaidOf(db, b) { assert ItemFits(db, i); }
      forall a ensures !Authorizes(db, a, b) { assert ApprovalSound(db, a); }
    }
  }

  // ---- what an ended batch says ------------------------------------------------------------

  /** Ended with failures only for an item that was not paid. */
  predicate UnpaidIn(db: Db, b: BatchId, i: ItemId) {
    i in db.items && db.items[i].batch == b && db.items[i].status in {Failed, Canceled}
  }

  ghost predicate HasReason(db: Db, b: BatchId) {
    b in db.batches && db.batches[b].status == CompletedWithFailures ==> exists i :: UnpaidIn(db, b, i)
  }

  lemma {:induction false} WritingCompletesNothing(db: Db, call: Call, b: BatchId)
    requires Allowed(db, call) && (call.CreateBatch? || call.AddOccurrence? || call.UpdateBatch? || call.RetryBatch?)
    requires b in Apply(db, call).batches && Apply(db, call).batches[b].status == CompletedWithFailures
    ensures b in db.batches && db.batches[b].status == CompletedWithFailures
  {}

  lemma {:induction false} CancelingCompletesNothing(db: Db, call: Call, b: BatchId)
    requires Allowed(db, call) && (call.ScheduleBatch? || call.CancelBatch? || call.EndRepetition? || call.BackToDraft?)
    requires b in Apply(db, call).batches && Apply(db, call).batches[b].status == CompletedWithFailures
    ensures b in db.batches && db.batches[b].status == CompletedWithFailures
  {}

  lemma {:induction false} AskingCompletesNothing(db: Db, call: Call, b: BatchId)
    requires Allowed(db, call) && call.AskApproval?
    requires b in Apply(db, call).batches && Apply(db, call).batches[b].status == CompletedWithFailures
    ensures b in db.batches && db.batches[b].status == CompletedWithFailures
  {}

  lemma {:induction false} DecidingCompletesNothing(db: Db, call: Call, b: BatchId)
    requires Allowed(db, call) && call.DecideRequest?
    requires b in Apply(db, call).batches && Apply(db, call).batches[b].status == CompletedWithFailures
    ensures b in db.batches && db.batches[b].status == CompletedWithFailures
  {}

  lemma {:induction false} ClosingCompletesNothing(db: Db, call: Call, b: BatchId)
    requires Allowed(db, call) && call.CloseRequest?
    requires b in Apply(db, call).batches && Apply(db, call).batches[b].status == CompletedWithFailures
    ensures b in db.batches && db.batches[b].status == CompletedWithFailures
  {}

  lemma {:induction false} SwitchingCompletesNothing(db: Db, call: Call, b: BatchId)
    requires Allowed(db, call) && (call.ConfigureFeature?)
    requires b in Apply(db, call).batches && Apply(db, call).batches[b].status == CompletedWithFailures
    ensures b in db.batches && db.batches[b].status == CompletedWithFailures
  {}

  lemma {:induction false} CallCompletesNothing(db: Db, call: Call, b: BatchId)
    requires Allowed(db, call) && b in Apply(db, call).batches && Apply(db, call).batches[b].status == CompletedWithFailures
    ensures b in db.batches && db.batches[b].status == CompletedWithFailures
  {
    if call.CreateBatch? || call.AddOccurrence? || call.UpdateBatch? || call.RetryBatch? { WritingCompletesNothing(db, call, b); }
    else if call.ScheduleBatch? || call.CancelBatch? || call.EndRepetition? || call.BackToDraft? { CancelingCompletesNothing(db, call, b); }
    else if call.AskApproval? { AskingCompletesNothing(db, call, b); }
    else if call.DecideRequest? { DecidingCompletesNothing(db, call, b); }
    else if call.CloseRequest? { ClosingCompletesNothing(db, call, b); }
    else if call.ConfigureFeature? { SwitchingCompletesNothing(db, call, b); }
  }

  lemma {:induction false} AnswerKeepsBatch(db: Db, k: ItemId, outcome: Outcome, i: ItemId)
    ensures Recorded(db, k, outcome).batches == db.batches
    ensures i in db.items ==> i in Recorded(db, k, outcome).items && Recorded(db, k, outcome).items[i].batch == db.items[i].batch
  {}

  lemma {:induction false} CheckKeepsBatch(db: Db, k: ItemId, seen: ItemStatus, found: Found, i: ItemId)
    ensures Checked(db, k, seen, found).batches == db.batches
    ensures i in db.items ==> i in Checked(db, k, seen, found).items && Checked(db, k, seen, found).items[i].batch == db.items[i].batch
  {}

  lemma {:induction false} BatchOfItemStays(w: World, e: Event, i: ItemId)
    requires Enabled(w, e) && !e.Service?
    ensures !e.Complete? ==> Next(w, e).db.batches == w.db.batches
    ensures i in w.db.items ==> i in Next(w, e).db.items && Next(w, e).db.items[i].batch == w.db.items[i].batch
  {
    match e
    case GiveUp(x) =>
    case ClaimNext(x) =>
    case RecordAnswer(x, outcome) => AnswerKeepsBatch(w.db, w.sends[w.workers[x].send].item, outcome, i);
    case CheckAnswered(k, seen, found) => CheckKeepsBatch(w.db, k, seen, found, i);
    case _ =>
  }

  lemma {:induction false} UnpaidStays(w: World, e: Event, b: BatchId, i: ItemId)
    requires WorldInv(w) && Enabled(w, e) && UnpaidIn(w.db, b, i) && b in w.db.batches && Paying(w.db.batches[b].status)
    ensures UnpaidIn(Next(w, e).db, b, i)
  {
    NextKeepsFinal(w, e, i);
    if e.Service? {
      CallServed(w.db, e.call);
      assert ItemServed(w.db, Apply(w.db, e.call), i);
    } else {
      BatchOfItemStays(w, e, i);
    }
  }

  lemma {:induction false} OnlyCompleteEnds(w: World, e: Event, b: BatchId)
    requires Enabled(w, e) && b in Next(w, e).db.batches && Next(w, e).db.batches[b].status == CompletedWithFailures
    ensures b in w.db.batches && (w.db.batches[b].status == CompletedWithFailures || e == Complete(b))
    ensures w.db.batches[b].status != CompletedWithFailures ==> exists i :: UnpaidIn(w.db, b, i)
  {
    if e.Service? { CallCompletesNothing(w.db, e.call, b); } else { BatchOfItemStays(w, e, 0); }
    if w.db.batches[b].status != CompletedWithFailures {
      var i :| i in w.db.items && w.db.items[i].batch == b && w.db.items[i].status in {Failed, Canceled};
      assert UnpaidIn(w.db, b, i);
    }
  }

  lemma {:induction false} ReasonStays(w: World, e: Event, b: BatchId)
    requires WorldInv(w) && Enabled(w, e) && HasReason(w.db, b)
    ensures HasReason(Next(w, e).db, b)
  {
    var after := Next(w, e).db;
    if b in after.batches && after.batches[b].status == CompletedWithFailures {
      OnlyCompleteEnds(w, e, b);
      var i :| UnpaidIn(w.db, b, i);
      if w.db.batches[b].status == CompletedWithFailures { UnpaidStays(w, e, b, i); } else { assert UnpaidIn(after, b, i); }
    }
  }

  lemma {:induction false} ReasonAlong(w: World, es: seq<Event>, b: BatchId)
    requires WorldInv(w) && Possible(w, es) && HasReason(w.db, b)
    ensures HasReason(After(w, es).db, b)
    decreases |es|
  {
    if es != [] {
      ReasonStays(w, es[0], b);
      NextKeeps(w, es[0]);
      ReasonAlong(Next(w, es[0]), es[1..], b);
    }
  }

  /**
   In every run, a batch that ended as completed has only items the provider paid, and one that
   ended with failures has an item the provider will never pay and none it might still pay unnoticed.
   */
  lemma {:induction false} EndedIsTrue(es: seq<Event>, b: BatchId)
    requires Possible(START, es) && b in After(START, es).db.batches
    ensures var w := After(START, es);
      && (w.db.batches[b].status == Completed ==> forall i :: i in w.db.items && w.db.items[i].batch == b ==> i in w.remote && w.remote[i] == Realized)
      && (w.db.batches[b].status == CompletedWithFailures ==>
           && (exists i :: UnpaidIn(w.db, b, i) && (i in w.remote ==> w.remote[i] == NotRealized))
           && (forall i :: i in w.db.items && w.db.items[i].batch == b ==>
                 Decided(w, i) && (i in w.remote ==> w.remote[i] == (if w.db.items[i].status == Paid then Realized else NotRealized))))
  {
    StartHolds();
    RunKeeps(START, es);
    ReasonAlong(START, es, b);
    var w := After(START, es);
    forall i | i in w.db.items && w.db.items[i].batch == b ensures ItemTrue(w, i) && ItemFits(w.db, i) {
      assert ItemTrue(w, i) && ItemFits(w.db, i);
    }
    if w.db.batches[b].status == CompletedWithFailures {
      forall i | i in w.db.items && w.db.items[i].batch == b ensures Decided(w, i) { EndedDecided(w, i); }
      var i :| UnpaidIn(w.db, b, i);
      assert ItemTrue(w, i);
    }
  }

  lemma {:induction false} EndedDecided(w: World, i: ItemId)
    requires WorldInv(w) && i in w.db.items && Final(w.db.items[i].status)
    ensures Decided(w, i)
  {
    assert ItemTrue(w, i);
    if w.db.items[i].status == Paid {
      assert RemoteKnown(w, i);
      var k: nat :| k < |w.sends| && w.sends[k].item == i && w.sends[k].verdict == Some(Accepted);
      forall j: nat | j < |w.sends| && w.sends[j].item == i ensures w.sends[j].verdict.Some? { assert SentOnce(w, j, k); }
    }
  }

  // ---- no obligation is paid twice -------------------------------------------------------

  /** `i` pays again, after `n` retries, what `root` failed to pay. */
  predicate Repays(db: Db, i: ItemId, root: ItemId, n: nat)
    decreases n
  {
    i in db.items &&
    if n == 0 then i == root
    else db.items[i].origin.Some? && Repays(db, db.items[i].origin.value, root, n - 1)
  }

  /** The item `n` retries back. */
  function Back(db: Db, i: ItemId, root: ItemId, n: nat, k: nat): (j: ItemId)
    requires Repays(db, i, root, n) && k <= n
    ensures Repays(db, j, root, n - k)
    decreases n
  {
    if k == 0 then i else Back(db, db.items[i].origin.value, root, n - 1, k - 1)
  }

  /** Anything in between two ends of a chain failed. */
  lemma {:induction false} BackFailed(db: Db, i: ItemId, root: ItemId, n: nat, k: nat)
    requires Inv(db) && Repays(db, i, root, n) && 0 < k <= n
    ensures db.items[Back(db, i, root, n, k)].status == Failed
    decreases n
  {
    assert OriginSound(db, i);
    if k > 1 { BackFailed(db, db.items[i].origin.value, root, n - 1, k - 1); }
  }

  /** Two retry items of one failed item, both able to pay, are the same item. */
  lemma {:induction false} OneLiveCopy(db: Db, i: ItemId, k: ItemId)
    requires Inv(db) && i in db.items && k in db.items
    requires db.items[i].origin.Some? && db.items[i].origin == db.items[k].origin
    requires db.items[i].status in {Paid, Failed} && db.items[k].status in {Paid, Failed}
    ensures i == k
  {
    assert OriginSound(db, i) && OriginSound(db, k) && ItemFits(db, i) && ItemFits(db, k);
    assert OneLiveRetry(db, db.items[i].batch, db.items[k].batch) && OneCopy(db, i, k);
  }

  lemma {:induction false} SameAncestors(db: Db, i: ItemId, n: nat, k: ItemId, m: nat, root: ItemId, up: nat)
    requires Inv(db) && Repays(db, i, root, n) && Repays(db, k, root, m)
    requires db.items[i].status == Paid && db.items[k].status == Paid
    requires up <= n && up <= m
    ensures Back(db, i, root, n, n - up) == Back(db, k, root, m, m - up)
    decreases up
  {
    if up > 0 {
      SameAncestors(db, i, n, k, m, root, up - 1);
      var x, y := Back(db, i, root, n, n - up), Back(db, k, root, m, m - up);
      BackStep(db, i, root, n, n - up);
      BackStep(db, k, root, m, m - up);
      if n - up > 0 { BackFailed(db, i, root, n, n - up); }
      if m - up > 0 { BackFailed(db, k, root, m, m - up); }
      OneLiveCopy(db, x, y);
    } else {
      BackToRoot(db, i, root, n);
      BackToRoot(db, k, root, m);
    }
  }

  lemma {:induction false} BackToRoot(db: Db, i: ItemId, root: ItemId, n: nat)
    requires Repays(db, i, root, n)
    ensures Back(db, i, root, n, n) == root
    decreases n
  {
    if n > 0 { BackToRoot(db, db.items[i].origin.value, root, n - 1); }
  }

  lemma {:induction false} BackStep(db: Db, i: ItemId, root: ItemId, n: nat, k: nat)
    requires Repays(db, i, root, n) && k < n
    ensures db.items[Back(db, i, root, n, k)].origin == Some(Back(db, i, root, n, k + 1))
    decreases n
  {
    if k > 0 { BackStep(db, db.items[i].origin.value, root, n - 1, k - 1); }
  }

  /**
   However many retries a failed payment goes through, at most one item of its chain is paid:
   the obligation is never paid twice.
   */
  lemma {:induction false} ObligationPaidOnce(es: seq<Event>, root: ItemId, i: ItemId, n: nat, k: ItemId, m: nat)
    requires Possible(START, es)
    requires var db := After(START, es).db;
      Repays(db, i, root, n) && Repays(db, k, root, m)
      && db.items[i].status == Paid && db.items[k].status == Paid
    ensures i == k
  {
    StartHolds();
    RunKeeps(START, es);
    var db := After(START, es).db;
    if n <= m {
      SameAncestors(db, i, n, k, m, root, n);
      if m - n > 0 { BackFailed(db, k, root, m, m - n); }
    } else {
      SameAncestors(db, i, n, k, m, root, m);
      BackFailed(db, i, root, n, n - m);
    }
  }

  /** A batch that ended without being approved never sent anything. */
  lemma {:induction false} DeadBatchesSentNothing(es: seq<Event>, k: nat)
    requires Possible(START, es) && k < |After(START, es).sends|
    ensures var w := After(START, es);
      w.sends[k].item in w.db.items && w.db.items[w.sends[k].item].batch in w.db.batches
      && !Dead(w.db.batches[w.db.items[w.sends[k].item].batch].status)
  {
    StartHolds();
    RunKeeps(START, es);
    assert SendStands(After(START, es), k);
  }

  /** A failed batch has at most one retry that is open or may have paid. */
  lemma {:induction false} OneRetryThatCanPay(es: seq<Event>, r: BatchId, q: BatchId)
    requires Possible(START, es)
    requires var db := After(START, es).db;
      r in db.batches && q in db.batches && db.batches[r].retryOf.Some?
      && db.batches[r].retryOf == db.batches[q].retryOf
      && !Dead(db.batches[r].status) && !Dead(db.batches[q].status)
    ensures r == q
  {
    StartHolds();
    RunKeeps(START, es);
    assert OneLiveRetry(After(START, es).db, r, q);
  }
}
