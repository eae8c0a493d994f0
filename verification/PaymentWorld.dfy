/**
 Payments as a whole: the database, the senders at work, every request they put on the wire
 and what the provider really did. Each database transaction or conditional write is one
 step; the provider decides about a request at any later time and may never answer.
 */
module PaymentWorld {
  import opened Common
  import opened PaymentContent
  import opened PaymentModel
  import opened PaymentInvariant

  type WorkerId = nat

  /** What the sender reads of the batch before it starts. */
  datatype Order = Order(batch: BatchId, reference: string, account: AccountId)

  datatype Payload = Payload(recipientName: string, destination: Destination, amountCents: nat)

  datatype Queued = Queued(id: ItemId, payload: Payload)

  datatype Verdict = Accepted | Refused | RateLimited | Duplicate

  /** A request on the wire; no verdict yet means the provider may still receive it. */
  datatype Send = Send(item: ItemId, order: Order, payload: Payload, verdict: Option<Verdict>)

  datatype Remote = Moving | Realized | NotRealized

  datatype Worker =
    | Idle
    | Reading(order: Order)
    | Loaded(order: Order, queue: seq<Queued>)
    | Claimed(order: Order, current: Queued, queue: seq<Queued>)
    | Waiting(order: Order, send: nat, queue: seq<Queued>)

  datatype World = World(db: Db, sends: seq<Send>, remote: map<ItemId, Remote>, workers: map<WorkerId, Worker>)

  datatype Outcome = SaidInProcessing | SaidPaid | SaidRefused | SaidDuplicate | SaidRateLimited | SaidNothing

  datatype Found = NotFoundYet | FoundRealized | FoundNotRealized | FoundOther

  datatype Call =
    | SaveRecipient(r: RecipientId, row: Recipient)
    | CreateBatch(company: CompanyId, b: BatchId, reference: string, lines: seq<Line>, scheduled: bool,
                  schedule: Option<ScheduleId>)
    | SaveSchedule(s: ScheduleId, repetition: Repetition)
    | AddOccurrence(company: CompanyId, b: BatchId, reference: string, lines: seq<Line>, s: ScheduleId)
    | UpdateBatch(company: CompanyId, b: BatchId, reference: string, lines: seq<Line>, version: nat, scheduled: bool)
    | ScheduleBatch(company: CompanyId, b: BatchId, version: nat)
    | CancelBatch(company: CompanyId, b: BatchId)
    | EndRepetition(company: CompanyId, s: ScheduleId, version: nat)
    | RetryBatch(company: CompanyId, b: BatchId, retry: BatchId, reference: string, copies: map<ItemId, ItemId>)
    | AskApproval(company: CompanyId, b: BatchId, expected: Option<nat>, issuer: AccountId, a: ApprovalId)
    | DecideRequest(a: ApprovalId, approve: bool)
    | CloseRequest(a: ApprovalId, expired: bool)
    | ConfigureFeature(company: CompanyId, enabled: bool, phone: Phone, version: nat)
    | BackToDraft(b: BatchId)

  function Committed(db: Db, r: Result<Db, Refusal>): Db { if r.Success? then r.value else db }

  ghost predicate Allowed(db: Db, call: Call) {
    match call
    case CreateBatch(_, b, _, lines, _, _) => b !in db.batches && FreshLines(db, lines)
    case AddOccurrence(_, b, _, lines, _) => b !in db.batches && FreshLines(db, lines)
      && forall k :: 0 <= k < |lines| ==> lines[k].recipient in db.recipients
    case UpdateBatch(_, _, _, lines, _, _) => FreshLines(db, lines)
    case RetryBatch(_, b, retry, _, copies) => retry !in db.batches && CopiesFailures(db, b, copies)
      && forall n :: n in copies ==> copies[n] in db.items
    case AskApproval(_, _, _, _, a) => a !in db.approvals
    case _ => true
  }

  ghost function Apply(db: Db, call: Call): Db
    requires Allowed(db, call)
  {
    match call
    case SaveRecipient(r, row) => db.(recipients := db.recipients[r := row])
    case CreateBatch(company, b, reference, lines, scheduled, schedule) =>
      Committed(db, Create(db, company, b, reference, lines, scheduled, schedule))
    case SaveSchedule(s, repetition) => db.(schedules := db.schedules[s := repetition])
    case AddOccurrence(company, b, reference, lines, s) => CreateOccurrence(db, company, b, reference, lines, s)
    case UpdateBatch(company, b, reference, lines, version, scheduled) =>
      Committed(db, Update(db, company, b, reference, lines, version, scheduled))
    case ScheduleBatch(company, b, version) => Committed(db, Schedule(db, company, b, version))
    case CancelBatch(company, b) => Committed(db, Cancel(db, company, b))
    case EndRepetition(company, s, version) => Committed(db, EndSchedule(db, company, s, version))
    case RetryBatch(company, b, retry, reference, copies) =>
      Committed(db, RetryFailed(db, company, b, retry, reference, copies))
    case AskApproval(company, b, expected, issuer, a) => Committed(db, Request(db, company, b, expected, issuer, a))
    case DecideRequest(a, approve) => Decide(db, a, approve)
    case CloseRequest(a, expired) =>
      if expired then Close(db, a, ExpiredRequest, Expired) else Close(db, a, Held, Draft)
    case ConfigureFeature(company, enabled, phone, version) =>
      Committed(db, Configure(db, company, enabled, phone, version))
    case BackToDraft(b) => ToDraft(db, b)
  }

  lemma {:induction false} CallKeeps(db: Db, call: Call)
    requires Inv(db) && Allowed(db, call)
    ensures Inv(Apply(db, call))
  {
    match call
    case SaveRecipient(r, row) => SaveRecipientKeeps(db, r, row);
    case CreateBatch(company, b, reference, lines, scheduled, schedule) =>
      CreateKeeps(db, company, b, reference, lines, scheduled, schedule);
    case SaveSchedule(s, repetition) => SchedulesOnly(db, db.schedules[s := repetition]);
    case AddOccurrence(company, b, reference, lines, s) => CreateOccurrenceKeeps(db, company, b, reference, lines, s);
    case UpdateBatch(company, b, reference, lines, version, scheduled) =>
      UpdateKeeps(db, company, b, reference, lines, version, scheduled);
    case ScheduleBatch(company, b, version) =>
      if Schedule(db, company, b, version).Success? { MoveEditableKeeps(db, b, Scheduled); }
    case CancelBatch(company, b) =>
      if Cancel(db, company, b).Success? { CancelUnrequestedKeeps(db, {b}); }
    case EndRepetition(company, s, version) => EndScheduleKeeps(db, company, s, version);
    case RetryBatch(company, b, retry, reference, copies) =>
      RetryFailedKeeps(db, company, b, retry, reference, copies);
    case AskApproval(company, b, expected, issuer, a) => RequestKeeps(db, company, b, expected, issuer, a);
    case DecideRequest(a, approve) => DecideKeeps(db, a, approve);
    case CloseRequest(a, expired) =>
      if expired { CloseKeeps(db, a, ExpiredRequest, Expired); } else { CloseKeeps(db, a, Held, Draft); }
    case ConfigureFeature(company, enabled, phone, version) => ConfigureKeeps(db, company, enabled, phone, version);
    case BackToDraft(b) => ToDraftKeeps(db, b);
  }

  // ---- what a service call leaves alone --------------------------------------------------

  function PayloadOf(x: Item): Payload { Payload(x.recipientName, x.destination, x.amountCents) }

  /** A batch that may send keeps its reference and account. */
  predicate BatchServed(db: Db, after: Db, b: BatchId) {
    b in db.batches && Paying(db.batches[b].status) ==>
      && b in after.batches
      && Paying(after.batches[b].status)
      && after.batches[b].reference == db.batches[b].reference
      && after.batches[b].issuer == db.batches[b].issuer
  }

  /** Its items keep what they pay; a service only ever cancels what is still pending. */
  predicate ItemServed(db: Db, after: Db, i: ItemId) {
    && (i in db.items && db.items[i].batch in db.batches && Paying(db.batches[db.items[i].batch].status) ==>
         i in after.items && after.items[i].batch == db.items[i].batch
         && PayloadOf(after.items[i]) == PayloadOf(db.items[i]))
    && (i in db.items && db.items[i].status != Pending ==>
         i in after.items && after.items[i].status == db.items[i].status)
    && (i in after.items && (i !in db.items || db.items[i].status == Pending) ==>
         after.items[i].status == Pending || (i in db.items && after.items[i].status == Canceled))
  }

  ghost predicate Served(db: Db, after: Db) {
    && (forall b {:trigger BatchServed(db, after, b)} :: BatchServed(db, after, b))
    && (forall i {:trigger ItemServed(db, after, i)} :: ItemServed(db, after, i))
  }

  lemma {:induction false} CancelServed(db: Db, which: set<BatchId>)
    requires Inv(db)
    requires forall b :: b in which && b in db.batches ==> Unrequested(db.batches[b].status)
    ensures Served(db, CancelUnrequested(db, which))
  {
    forall i ensures ItemServed(db, CancelUnrequested(db, which), i) { assert ItemFits(db, i); }
  }

  lemma {:induction false} UpdateServed(db: Db, company: CompanyId, b: BatchId, reference: string, lines: seq<Line>,
                                        version: nat, scheduled: bool)
    requires Inv(db) && FreshLines(db, lines) && Update(db, company, b, reference, lines, version, scheduled).Success?
    ensures Served(db, Update(db, company, b, reference, lines, version, scheduled).value)
  {
    var after := Update(db, company, b, reference, lines, version, scheduled).value;
    forall i ensures ItemServed(db, after, i) { assert ItemFits(db, i); }
  }

  lemma {:induction false} CreateServed(db: Db, company: CompanyId, b: BatchId, reference: string, lines: seq<Line>,
                                        scheduled: bool, schedule: Option<ScheduleId>)
    requires b !in db.batches && FreshLines(db, lines)
    requires Create(db, company, b, reference, lines, scheduled, schedule).Success?
    ensures Served(db, Create(db, company, b, reference, lines, scheduled, schedule).value)
  {}

  lemma {:induction false} OccurrenceServed(db: Db, company: CompanyId, b: BatchId, reference: string, lines: seq<Line>, s: ScheduleId)
    requires b !in db.batches && FreshLines(db, lines)
    requires forall k :: 0 <= k < |lines| ==> lines[k].recipient in db.recipients
    ensures Served(db, CreateOccurrence(db, company, b, reference, lines, s))
  {}

  lemma {:induction false} MoveServed(db: Db, b: BatchId, to: BatchStatus)
    requires b in db.batches && !Paying(db.batches[b].status)
    ensures Served(db, db.(batches := Move(db.batches, {b}, to)))
  {}

  lemma {:induction false} RetryServed(db: Db, company: CompanyId, b: BatchId, retry: BatchId, reference: string,
                                       copies: map<ItemId, ItemId>)
    requires retry !in db.batches && CopiesFailures(db, b, copies)
    requires forall n :: n in copies ==> copies[n] in db.items
    requires RetryFailed(db, company, b, retry, reference, copies).Success?
    ensures Served(db, RetryFailed(db, company, b, retry, reference, copies).value)
  {}

  lemma {:induction false} RequestServed(db: Db, company: CompanyId, b: BatchId, expected: Option<nat>, issuer: AccountId, a: ApprovalId)
    requires Inv(db) && Request(db, company, b, expected, issuer, a).Success?
    ensures Served(db, Request(db, company, b, expected, issuer, a).value)
  {
    var after := Request(db, company, b, expected, issuer, a).value;
    forall i ensures ItemServed(db, after, i) { assert ItemFits(db, i); }
  }

  lemma {:induction false} DecideServed(db: Db, a: ApprovalId, approve: bool)
    requires Inv(db)
    ensures Served(db, Decide(db, a, approve))
  {
    if a in db.approvals && db.approvals[a].state == Awaiting {
      AwaitingIsAsRequested(db, a);
      var after := Decide(db, a, approve);
      forall i ensures ItemServed(db, after, i) { assert ItemFits(db, i); }
    }
  }

  lemma {:induction false} CloseServed(db: Db, a: ApprovalId, state: ApprovalState, status: BatchStatus)
    requires Inv(db)
    ensures Served(db, Close(db, a, state, status))
  {
    var after := Close(db, a, state, status);
    forall i ensures ItemServed(db, after, i) { assert ItemFits(db, i); }
  }

  lemma {:induction false} ConfigureServed(db: Db, company: CompanyId, enabled: bool, phone: Phone, version: nat)
    requires Configure(db, company, enabled, phone, version).Success?
    ensures Served(db, Configure(db, company, enabled, phone, version).value)
  {
    var after := Configure(db, company, enabled, phone, version).value;
    forall b ensures BatchServed(db, after, b) {}
  }

  lemma {:induction false} CallServed(db: Db, call: Call)
    requires Inv(db) && Allowed(db, call)
    ensures Served(db, Apply(db, call))
  {
    match call
    case SaveRecipient(r, row) =>
    case CreateBatch(company, b, reference, lines, scheduled, schedule) =>
      if Create(db, company, b, reference, lines, scheduled, schedule).Success? {
        CreateServed(db, company, b, reference, lines, scheduled, schedule);
      }
    case SaveSchedule(s, repetition) =>
    case AddOccurrence(company, b, reference, lines, s) => OccurrenceServed(db, company, b, reference, lines, s);
    case UpdateBatch(company, b, reference, lines, version, scheduled) =>
      if Update(db, company, b, reference, lines, version, scheduled).Success? {
        UpdateServed(db, company, b, reference, lines, version, scheduled);
      }
    case ScheduleBatch(company, b, version) =>
      if Schedule(db, company, b, version).Success? { MoveServed(db, b, Scheduled); }
    case CancelBatch(company, b) =>
      if Cancel(db, company, b).Success? { CancelServed(db, {b}); }
    case EndRepetition(company, s, version) =>
      if EndSchedule(db, company, s, version).Success? && db.schedules[s].active {
        var ended := db.(schedules := db.schedules[s := Ended(db.schedules[s])]);
        SchedulesOnly(db, ended.schedules);
        CancelServed(ended, Upcoming(db, company, s));
        ServedFrom(db, ended, Apply(db, call));
      }
    case RetryBatch(company, b, retry, reference, copies) =>
      if RetryFailed(db, company, b, retry, reference, copies).Success? {
        RetryServed(db, company, b, retry, reference, copies);
      }
    case AskApproval(company, b, expected, issuer, a) =>
      if Request(db, company, b, expected, issuer, a).Success? {
        RequestServed(db, company, b, expected, issuer, a);
      }
    case DecideRequest(a, approve) => DecideServed(db, a, approve);
    case CloseRequest(a, expired) =>
      if expired { CloseServed(db, a, ExpiredRequest, Expired); } else { CloseServed(db, a, Held, Draft); }
    case ConfigureFeature(company, enabled, phone, version) =>
      if Configure(db, company, enabled, phone, version).Success? {
        ConfigureServed(db, company, enabled, phone, version);
      }
    case BackToDraft(b) =>
      if b in db.batches && Editable(db.batches[b].status) { MoveServed(db, b, Draft); }
  }

  lemma {:induction false} ServedFrom(db: Db, same: Db, after: Db)
    requires db.batches == same.batches && db.items == same.items && Served(same, after)
    ensures Served(db, after)
  {
    forall b ensures BatchServed(db, after, b) { assert BatchServed(same, after, b); }
    forall i ensures ItemServed(db, after, i) { assert ItemServed(same, after, i); }
  }
}
