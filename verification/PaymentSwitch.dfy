/**
 What a switch-off leaves behind: every run after it in which the company stays off, and exactly
 which of its payments are unsent at the end.
 */
module PaymentSwitch {
  import opened PaymentContent
  import opened PaymentModel
  import opened PaymentInvariant
  import opened PaymentWorld
  import opened PaymentSending
  import opened PaymentEffects
  import opened PaymentTheorems

  predicate Off(db: Db, c: CompanyId) {
    && c in db.settings && !db.settings[c].enabled
    && (forall b :: b in db.batches && db.batches[b].company == c ==> db.batches[b].status != AwaitingApproval)
  }

  predicate SwitchesOn(e: Event, c: CompanyId) {
    e.Service? && e.call.ConfigureFeature? && e.call.company == c && e.call.enabled
  }

  predicate CallSwitchesOff(db: Db, call: Call, c: CompanyId) {
    call.ConfigureFeature? && call.company == c && !call.enabled && call.version == CurrentVersion(db, c)
  }

  predicate StaysOff(es: seq<Event>, c: CompanyId) { forall n :: 0 <= n < |es| ==> !SwitchesOn(es[n], c) }

  /** The answer to a send of the item was a rate limit, and the item goes back. */
  predicate Returns(w: World, e: Event, i: ItemId) {
    e.RecordAnswer? && e.outcome == SaidRateLimited && WorkerAt(w, e.w).Waiting? && WorkerAt(w, e.w).send < |w.sends|
    && w.sends[WorkerAt(w, e.w).send].item == i && i in w.db.items && w.db.items[i].status == Sending
  }

  /** A sender claims the item, gives up its batch, or the feature is switched off again. */
  predicate Takes(w: World, e: Event, c: CompanyId, i: ItemId) {
    || (e.ClaimNext? && WorkerAt(w, e.w).Loaded? && WorkerAt(w, e.w).queue != [] && WorkerAt(w, e.w).queue[0].id == i)
    || (e.GiveUp? && WorkerAt(w, e.w).Reading? && i in w.db.items && WorkerAt(w, e.w).order.batch == w.db.items[i].batch)
    || (e.Service? && CallSwitchesOff(w.db, e.call, c))
  }

  ghost predicate NotTaken(w: World, es: seq<Event>, c: CompanyId, i: ItemId)
    requires Possible(w, es)
    decreases |es|
  {
    es == [] || (!Takes(w, es[0], c, i) && NotTaken(Next(w, es[0]), es[1..], c, i))
  }

  /** At some point of the run the item went back, and nothing took it afterwards. */
  ghost predicate LeftBack(w: World, es: seq<Event>, c: CompanyId, i: ItemId)
    requires Possible(w, es)
    decreases |es|
  {
    es != [] && (
      || (Returns(w, es[0], i) && OfCompanyItem(w.db, c, i) && NotTaken(Next(w, es[0]), es[1..], c, i))
      || LeftBack(Next(w, es[0]), es[1..], c, i))
  }

  predicate OfCompanyItem(db: Db, c: CompanyId, i: ItemId) {
    i in db.items && db.items[i].batch in db.batches && db.batches[db.items[i].batch].company == c
  }

  /** Pending in an approved batch still in progress. */
  predicate Left(db: Db, c: CompanyId, i: ItemId) {
    OfCompanyItem(db, c, i) && db.batches[db.items[i].batch].status == Processing && db.items[i].status == Pending
  }

  lemma {:induction false} LeftIsUnsent(db: Db, c: CompanyId, i: ItemId)
    requires Inv(db) && Off(db, c)
    ensures Left(db, c, i) <==> i in db.items && Unsent(db, c, i)
  {
    assert ItemFits(db, i);
  }

  // ---- service calls -----------------------------------------------------------------------

  lemma {:induction false} OffAsk(db: Db, call: Call, c: CompanyId, i: ItemId)
    requires Inv(db) && Off(db, c) && Allowed(db, call) && call.AskApproval?
    ensures Off(Apply(db, call), c) && (Left(Apply(db, call), c, i) <==> Left(db, c, i))
  {
    assert ItemFits(db, i);
  }

  /** No request of the company awaits, so nothing is decided for it. */
  lemma {:induction false} OffDecide(db: Db, a: ApprovalId, approve: bool, c: CompanyId, i: ItemId)
    requires Inv(db) && Off(db, c)
    ensures Off(Decide(db, a, approve), c) && (Left(Decide(db, a, approve), c, i) <==> Left(db, c, i))
  {
    assert ItemFits(db, i) && RequestFits(db, a);
  }

  lemma {:induction false} OffClose(db: Db, a: ApprovalId, state: ApprovalState, status: BatchStatus, c: CompanyId, i: ItemId)
    requires Inv(db) && Off(db, c)
    ensures Off(Close(db, a, state, status), c) && (Left(Close(db, a, state, status), c, i) <==> Left(db, c, i))
  {
    assert ItemFits(db, i) && RequestFits(db, a);
  }

  lemma {:induction false} OffRetry(db: Db, call: Call, c: CompanyId, i: ItemId)
    requires Inv(db) && Off(db, c) && Allowed(db, call) && call.RetryBatch?
    ensures Off(Apply(db, call), c) && (Left(Apply(db, call), c, i) <==> Left(db, c, i))
  {
    assert ItemFits(db, i);
  }

  lemma {:induction false} OffCreate(db: Db, call: Call, c: CompanyId, i: ItemId)
    requires Inv(db) && Off(db, c) && Allowed(db, call) && (call.CreateBatch? || call.AddOccurrence?)
    ensures Off(Apply(db, call), c) && (Left(Apply(db, call), c, i) <==> Left(db, c, i))
  {
    assert ItemFits(db, i);
  }

  lemma {:induction false} OffUpdate(db: Db, call: Call, c: CompanyId, i: ItemId)
    requires Inv(db) && Off(db, c) && Allowed(db, call) && call.UpdateBatch?
    ensures Off(Apply(db, call), c) && (Left(Apply(db, call), c, i) <==> Left(db, c, i))
  {
    assert ItemFits(db, i);
  }

  /** Batches not yet requested are none of those being paid. */
  lemma {:induction false} OffCanceled(db: Db, which: set<BatchId>, c: CompanyId, i: ItemId)
    requires Inv(db) && Off(db, c) && forall b :: b in which ==> b in db.batches && Unrequested(db.batches[b].status)
    ensures Off(CancelUnrequested(db, which), c) && (Left(CancelUnrequested(db, which), c, i) <==> Left(db, c, i))
  {
    assert ItemFits(db, i);
  }

  lemma {:induction false} OffMoved(db: Db, b: BatchId, to: BatchStatus, c: CompanyId, i: ItemId)
    requires Off(db, c) && b in db.batches && Editable(db.batches[b].status) && Editable(to)
    ensures var after := db.(batches := Move(db.batches, {b}, to)); Off(after, c) && (Left(after, c, i) <==> Left(db, c, i))
  {}

  lemma {:induction false} OffEnded(db: Db, company: CompanyId, s: ScheduleId, version: nat, c: CompanyId, i: ItemId)
    requires Inv(db) && Off(db, c)
    ensures var after := Committed(db, EndSchedule(db, company, s, version)); Off(after, c) && (Left(after, c, i) <==> Left(db, c, i))
  {
    if EndSchedule(db, company, s, version).Success? && db.schedules[s].active {
      var ended := db.(schedules := db.schedules[s := Ended(db.schedules[s])]);
      SchedulesOnly(db, ended.schedules);
      OffCanceled(ended, Upcoming(db, company, s), c, i);
    }
  }

  lemma {:induction false} OffCancelUnsent(db: Db, company: CompanyId, c: CompanyId, i: ItemId)
    requires Off(db, c)
    ensures Off(CancelUnsent(db, company), c)
    ensures Left(CancelUnsent(db, company), c, i) <==> Left(db, c, i) && company != c
  {}

  lemma {:induction false} OffReturn(db: Db, company: CompanyId, c: CompanyId, i: ItemId)
    requires Off(db, c)
    ensures Off(ReturnRequestsToDraft(db, company), c)
    ensures Left(ReturnRequestsToDraft(db, company), c, i) <==> Left(db, c, i)
  {}

  lemma {:induction false} OffConfigure(db: Db, call: Call, c: CompanyId, i: ItemId)
    requires Inv(db) && Off(db, c) && call.ConfigureFeature? && !(call.company == c && call.enabled)
    ensures Off(Apply(db, call), c) && (Left(Apply(db, call), c, i) <==> Left(db, c, i) && !CallSwitchesOff(db, call, c))
  {
    if call.version == CurrentVersion(db, call.company) {
      var saved := db.(settings := db.settings[call.company := Settings(call.version + 1, call.enabled, call.phone)]);
      if call.enabled { OffReturn(saved, call.company, c, i); } else { OffCancelUnsent(saved, call.company, c, i); }
    }
  }

  lemma {:induction false} OffCall(db: Db, call: Call, c: CompanyId, i: ItemId)
    requires Inv(db) && Off(db, c) && Allowed(db, call) && !SwitchesOn(Service(call), c)
    ensures Off(Apply(db, call), c)
    ensures Left(Apply(db, call), c, i) <==> Left(db, c, i) && !CallSwitchesOff(db, call, c)
  {
    match call
    case SaveRecipient(r, row) =>
    case SaveSchedule(s, repetition) =>
    case CreateBatch(_, _, _, _, _, _) => OffCreate(db, call, c, i);
    case AddOccurrence(_, _, _, _, _) => OffCreate(db, call, c, i);
    case UpdateBatch(_, _, _, _, _, _) => OffUpdate(db, call, c, i);
    case RetryBatch(_, _, _, _, _) => OffRetry(db, call, c, i);
    case AskApproval(_, _, _, _, _) => OffAsk(db, call, c, i);
    case DecideRequest(a, approve) => OffDecide(db, a, approve, c, i);
    case CloseRequest(a, expired) =>
      if expired { OffClose(db, a, ExpiredRequest, Expired, c, i); } else { OffClose(db, a, Held, Draft, c, i); }
    case ConfigureFeature(_, _, _, _) => OffConfigure(db, call, c, i);
    case ScheduleBatch(company, b, version) =>
      if Schedule(db, company, b, version).Success? { OffMoved(db, b, Scheduled, c, i); }
    case CancelBatch(company, b) =>
      if Cancel(db, company, b).Success? { OffCanceled(db, {b}, c, i); }
    case EndRepetition(company, s, version) => OffEnded(db, company, s, version, c, i);
    case BackToDraft(b) =>
      if b in db.batches && Editable(db.batches[b].status) { OffMoved(db, b, Draft, c, i); }
  }

  // ---- every step ----------------------------------------------------------------------------

  /** Neither being sent nor left behind. */
  predicate Calm(db: Db, c: CompanyId, i: ItemId) { OfCompanyItem(db, c, i) ==> db.items[i].status != Sending && !Left(db, c, i) }

  lemma {:induction false} CompanyWritten(db: Db, call: Call, b: BatchId)
    requires Allowed(db, call) && b in db.batches && (call.CreateBatch? || call.AddOccurrence? || call.UpdateBatch? || call.RetryBatch?)
    ensures b in Apply(db, call).batches && Apply(db, call).batches[b].company == db.batches[b].company
  {}

  lemma {:induction false} CompanyCanceled(db: Db, call: Call, b: BatchId)
    requires Allowed(db, call) && b in db.batches && (call.ScheduleBatch? || call.CancelBatch? || call.EndRepetition? || call.BackToDraft?)
    ensures b in Apply(db, call).batches && Apply(db, call).batches[b].company == db.batches[b].company
  {}

  lemma {:induction false} CompanyAsked(db: Db, call: Call, b: BatchId)
    requires Allowed(db, call) && b in db.batches && call.AskApproval?
    ensures b in Apply(db, call).batches && Apply(db, call).batches[b].company == db.batches[b].company
  {}

  lemma {:induction false} CompanyDecided(db: Db, call: Call, b: BatchId)
    requires Allowed(db, call) && b in db.batches && call.DecideRequest?
    ensures b in Apply(db, call).batches && Apply(db, call).batches[b].company == db.batches[b].company
  {}

  lemma {:induction false} CompanyClosed(db: Db, call: Call, b: BatchId)
    requires Allowed(db, call) && b in db.batches && call.CloseRequest?
    ensures b in Apply(db, call).batches && Apply(db, call).batches[b].company == db.batches[b].company
  {}

  lemma {:induction false} CompanyStays(db: Db, call: Call, b: BatchId)
    requires Allowed(db, call) && b in db.batches
    ensures b in Apply(db, call).batches && Apply(db, call).batches[b].company == db.batches[b].company
  {
    if call.CreateBatch? || call.AddOccurrence? || call.UpdateBatch? || call.RetryBatch? { CompanyWritten(db, call, b); }
    else if call.ScheduleBatch? || call.CancelBatch? || call.EndRepetition? || call.BackToDraft? { CompanyCanceled(db, call, b); }
    else if call.AskApproval? { CompanyAsked(db, call, b); }
    else if call.DecideRequest? { CompanyDecided(db, call, b); }
    else if call.CloseRequest? { CompanyClosed(db, call, b); }
    else if call.ConfigureFeature? { CompanyConfigured(db, call.company, call.enabled, call.phone, call.version, b); }
  }

  lemma {:induction false} CompanyConfigured(db: Db, company: CompanyId, enabled: bool, phone: Phone, version: nat, b: BatchId)
    requires b in db.batches
    ensures var after := Committed(db, Configure(db, company, enabled, phone, version));
      b in after.batches && after.batches[b].company == db.batches[b].company
  {}

  lemma {:induction false} OffService(w: World, e: Event, c: CompanyId, i: ItemId)
    requires WorldInv(w) && Off(w.db, c) && Enabled(w, e) && e.Service? && !SwitchesOn(e, c)
    ensures Off(Next(w, e).db, c)
    ensures Left(Next(w, e).db, c, i) <==>
      (Returns(w, e, i) && OfCompanyItem(w.db, c, i)) || (Left(w.db, c, i) && !Takes(w, e, c, i))
    ensures Calm(w.db, c, i) ==> Calm(Next(w, e).db, c, i)
  {
    OffCall(w.db, e.call, c, i);
    CallServed(w.db, e.call);
    assert ItemServed(w.db, Apply(w.db, e.call), i) && ItemFits(w.db, i);
    if i in w.db.items { CompanyStays(w.db, e.call, w.db.items[i].batch); }
  }

  lemma {:induction false} OffClaim(w: World, e: Event, c: CompanyId, i: ItemId)
    requires WorldInv(w) && Off(w.db, c) && Enabled(w, e) && e.ClaimNext?
    ensures Off(Next(w, e).db, c)
    ensures Left(Next(w, e).db, c, i) <==>
      (Returns(w, e, i) && OfCompanyItem(w.db, c, i)) || (Left(w.db, c, i) && !Takes(w, e, c, i))
    ensures Calm(w.db, c, i) ==> Calm(Next(w, e).db, c, i)
  {
    assert ItemFits(w.db, i) && WorkerStands(w, e.w);
    assert QueuedStands(w.db, WorkerAt(w, e.w).order, WorkerAt(w, e.w).queue[0]);
  }

  lemma {:induction false} OffGiveUp(w: World, e: Event, c: CompanyId, i: ItemId)
    requires WorldInv(w) && Off(w.db, c) && Enabled(w, e) && e.GiveUp?
    ensures Off(Next(w, e).db, c)
    ensures Left(Next(w, e).db, c, i) <==>
      (Returns(w, e, i) && OfCompanyItem(w.db, c, i)) || (Left(w.db, c, i) && !Takes(w, e, c, i))
    ensures Calm(w.db, c, i) ==> Calm(Next(w, e).db, c, i)
  {
    assert ItemFits(w.db, i);
  }

  /** A result that is recorded ends a send and brings nothing back. */
  lemma {:induction false} SetCalm(db: Db, k: ItemId, from: set<ItemStatus>, to: ItemStatus, c: CompanyId, i: ItemId)
    requires Off(db, c) && Pending !in from && to != Pending && to != Sending
    ensures var after := SetItem(db, k, from, to);
      Off(after, c) && (Left(after, c, i) <==> Left(db, c, i)) && (Calm(db, c, i) ==> Calm(after, c, i))
  {}

  lemma {:induction false} SetBack(db: Db, k: ItemId, c: CompanyId, i: ItemId)
    requires Inv(db) && Off(db, c)
    ensures var after := SetItem(db, k, {Sending}, Pending);
      && Off(after, c) && (Calm(db, c, i) ==> Calm(after, c, i))
      && (Left(after, c, i) <==> Left(db, c, i) || (i == k && OfCompanyItem(db, c, i) && db.items[i].status == Sending))
  {
    assert ItemFits(db, i);
  }

  lemma {:induction false} OffAnswer(w: World, e: Event, c: CompanyId, i: ItemId)
    requires WorldInv(w) && Off(w.db, c) && Enabled(w, e) && e.RecordAnswer?
    ensures Off(Next(w, e).db, c)
    ensures Left(Next(w, e).db, c, i) <==>
      (Returns(w, e, i) && OfCompanyItem(w.db, c, i)) || (Left(w.db, c, i) && !Takes(w, e, c, i))
    ensures Calm(w.db, c, i) ==> Calm(Next(w, e).db, c, i)
  {
    var k := w.sends[w.workers[e.w].send].item;
    if e.outcome == SaidRateLimited { SetBack(w.db, k, c, i); } else { SetCalm(w.db, k, {Sending}, Answered(e.outcome), c, i); }
  }

  lemma {:induction false} OffReconcile(w: World, e: Event, c: CompanyId, i: ItemId)
    requires WorldInv(w) && Off(w.db, c) && Enabled(w, e) && e.Reconcile?
    ensures Off(Next(w, e).db, c)
    ensures Left(Next(w, e).db, c, i) <==>
      (Returns(w, e, i) && OfCompanyItem(w.db, c, i)) || (Left(w.db, c, i) && !Takes(w, e, c, i))
    ensures Calm(w.db, c, i) ==> Calm(Next(w, e).db, c, i)
  {
    assert ItemFits(w.db, i);
  }

  lemma {:induction false} OffCheck(w: World, e: Event, c: CompanyId, i: ItemId)
    requires WorldInv(w) && Off(w.db, c) && Enabled(w, e) && (e.CheckAnswered? || e.Webhook?)
    ensures Off(Next(w, e).db, c)
    ensures Left(Next(w, e).db, c, i) <==>
      (Returns(w, e, i) && OfCompanyItem(w.db, c, i)) || (Left(w.db, c, i) && !Takes(w, e, c, i))
    ensures Calm(w.db, c, i) ==> Calm(Next(w, e).db, c, i)
  {
    if e.Webhook? {
      SetCalm(w.db, e.i, {Sending, InProcessing, Uncertain}, if e.realized then Paid else Failed, c, i);
    } else {
      SetCalm(w.db, e.i, {e.seen}, if e.found == FoundRealized then Paid else if e.found == FoundNotRealized then Failed else InProcessing, c, i);
    }
  }

  lemma {:induction false} OffComplete(w: World, e: Event, c: CompanyId, i: ItemId)
    requires WorldInv(w) && Off(w.db, c) && Enabled(w, e) && e.Complete?
    ensures Off(Next(w, e).db, c)
    ensures Left(Next(w, e).db, c, i) <==>
      (Returns(w, e, i) && OfCompanyItem(w.db, c, i)) || (Left(w.db, c, i) && !Takes(w, e, c, i))
    ensures Calm(w.db, c, i) ==> Calm(Next(w, e).db, c, i)
  {
    assert ItemFits(w.db, i);
  }

  lemma {:induction false} OffStep(w: World, e: Event, c: CompanyId, i: ItemId)
    requires WorldInv(w) && Off(w.db, c) && Enabled(w, e) && !SwitchesOn(e, c)
    ensures Off(Next(w, e).db, c)
    ensures Left(Next(w, e).db, c, i) <==>
      (Returns(w, e, i) && OfCompanyItem(w.db, c, i)) || (Left(w.db, c, i) && !Takes(w, e, c, i))
    ensures Calm(w.db, c, i) ==> Calm(Next(w, e).db, c, i)
  {
    match e
    case Service(call) => OffService(w, e, c, i);
    case ClaimNext(x) => OffClaim(w, e, c, i);
    case GiveUp(x) => OffGiveUp(w, e, c, i);
    case RecordAnswer(x, outcome) => OffAnswer(w, e, c, i);
    case Reconcile(late) => OffReconcile(w, e, c, i);
    case CheckAnswered(k, seen, found) => OffCheck(w, e, c, i);
    case Webhook(k, realized) => OffCheck(w, e, c, i);
    case Complete(b) => OffComplete(w, e, c, i);
    case _ =>
  }

  lemma {:induction false} OffAlong(w: World, es: seq<Event>, c: CompanyId, i: ItemId)
    requires WorldInv(w) && Off(w.db, c) && Possible(w, es) && StaysOff(es, c)
    ensures WorldInv(After(w, es)) && Off(After(w, es).db, c)
    ensures Left(After(w, es).db, c, i) <==> LeftBack(w, es, c, i) || (Left(w.db, c, i) && NotTaken(w, es, c, i))
    ensures Calm(w.db, c, i) ==> Calm(After(w, es).db, c, i)
    decreases |es|
  {
    if es != [] {
      OffStep(w, es[0], c, i);
      NextKeeps(w, es[0]);
      OffAlong(Next(w, es[0]), es[1..], c, i);
    }
  }

  /**
   After a switch-off, as long as the feature stays off, an item of the company is requested or
   approved and not sent exactly when the provider turned a send of it away for its rate limit
   and since then no sender claimed it, gave up its batch, or was the feature switched off again.
   */
  lemma {:induction false} UnsentExactly(w: World, phone: Phone, version: nat, es: seq<Event>, c: CompanyId, i: ItemId)
    requires WorldInv(w) && Configure(w.db, c, false, phone, version).Success?
    requires var off := Next(w, Service(ConfigureFeature(c, false, phone, version))); Possible(off, es) && StaysOff(es, c)
    ensures var off := Next(w, Service(ConfigureFeature(c, false, phone, version))); var end := After(off, es).db;
      (i in end.items && Unsent(end, c, i)) <==> LeftBack(off, es, c, i)
  {
    var e := Service(ConfigureFeature(c, false, phone, version));
    var off := Next(w, e);
    NextKeeps(w, e);
    SwitchOffStops(w.db, c, phone, version);
    LeftIsUnsent(off.db, c, i);
    OffAlong(off, es, c, i);
    LeftIsUnsent(After(off, es).db, c, i);
  }

  /** Only what was being sent at the switch can be left behind. */
  lemma {:induction false} UnsentWasSending(w: World, phone: Phone, version: nat, es: seq<Event>, c: CompanyId, i: ItemId)
    requires WorldInv(w) && Configure(w.db, c, false, phone, version).Success?
    requires var off := Next(w, Service(ConfigureFeature(c, false, phone, version))); Possible(off, es) && StaysOff(es, c)
    requires var end := After(Next(w, Service(ConfigureFeature(c, false, phone, version))), es).db; i in end.items && Unsent(end, c, i)
    ensures i in w.db.items && w.db.items[i].status == Sending
  {
    var e := Service(ConfigureFeature(c, false, phone, version));
    var off := Next(w, e);
    NextKeeps(w, e);
    SwitchOffStops(w.db, c, phone, version);
    LeftIsUnsent(off.db, c, i);
    OffAlong(off, es, c, i);
    LeftIsUnsent(After(off, es).db, c, i);
    CallServed(w.db, e.call);
    assert ItemServed(w.db, off.db, i);
  }
}
