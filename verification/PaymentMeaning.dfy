/**
 What every payment transaction leaves, row by row: when it is refused and why, which rows it
 changes and to what, and that it changes no other.
 */
module PaymentMeaning {
  import opened Common
  import opened PaymentContent
  import opened PaymentModel
  import opened PaymentInvariant
  import opened PaymentWorld
  import opened PaymentSending

  // ---- statuses ------------------------------------------------------------------------------

  /** What the theorems mean by their words for statuses. */
  lemma {:induction false} StatusesMean(s: BatchStatus, i: ItemStatus)
    ensures Editable(s) <==> s in {Draft, Scheduled}
    ensures Unrequested(s) <==> s in {Draft, Scheduled, AwaitingApproval}
    ensures Open(s) <==> s in {Draft, Scheduled, AwaitingApproval, Processing}
    ensures Paying(s) <==> s in {Processing, Completed, CompletedWithFailures}
    ensures Finished(s) <==> s in {Completed, CompletedWithFailures}
    ensures Dead(s) <==> s in {CanceledBatch, Expired, RejectedBatch}
    ensures InFlight(i) <==> i in {Sending, InProcessing, Uncertain}
    ensures Final(i) <==> i in {Paid, Failed, Canceled}
  {}

  // ---- the lines of a payment ----------------------------------------------------------------

  /** A registered and active collaborator of the company. */
  predicate Payable(db: Db, company: CompanyId, r: RecipientId) {
    r in db.recipients && db.recipients[r].company == company && db.recipients[r].active
  }

  /** The item of a line: its own collaborator, as registered now, and its own amount. */
  predicate ItemOfLine(db: Db, items: map<ItemId, Item>, b: BatchId, line: Line) {
    && line.id in items && line.recipient in db.recipients
    && var x, who := items[line.id], db.recipients[line.recipient];
       && x.batch == b && x.recipient == line.recipient && x.amountCents == line.amountCents
       && x.recipientName == who.name && x.destination == who.destination
       && x.status == Pending && x.origin == None
  }

  predicate DistinctIds(lines: seq<Line>) { forall j, k :: 0 <= j < k < |lines| ==> lines[j].id != lines[k].id }

  lemma {:induction false} EachItsOwn(db: Db, b: BatchId, lines: seq<Line>, k: nat)
    requires DistinctIds(lines) && (forall j :: 0 <= j < |lines| ==> lines[j].recipient in db.recipients) && k < |lines|
    ensures ItemOfLine(db, ItemsOf(db, b, lines), b, lines[k])
  {
    if k < |lines| - 1 { EachItsOwn(db, b, lines[..|lines| - 1], k); }
  }

  lemma {:induction false} LastLine(db: Db, b: BatchId, lines: seq<Line>)
    requires lines != [] && DistinctIds(lines) && forall j :: 0 <= j < |lines| ==> lines[j].recipient in db.recipients
    ensures var front, line := lines[..|lines| - 1], lines[|lines| - 1];
      var all, before := Hashed(ItemsOf(db, b, lines), b), Hashed(ItemsOf(db, b, front), b);
      line.id in all && all[line.id].amountCents == line.amountCents && all - {line.id} == before
  {
    var front, line := lines[..|lines| - 1], lines[|lines| - 1];
    assert line.id !in ItemsOf(db, b, front);
    OneMoreHashed(ItemsOf(db, b, front), line.id, NewItem(db, b, line), b);
  }

  lemma {:induction false} OneMoreHashed(items: map<ItemId, Item>, i: ItemId, x: Item, b: BatchId)
    requires i !in items && x.batch == b
    ensures var all := Hashed(items[i := x], b);
      i in all && all[i] == HashedItem(x.destination, x.amountCents) && all - {i} == Hashed(items, b)
  {}

  lemma {:induction false} ItemsTotal(db: Db, b: BatchId, lines: seq<Line>)
    requires DistinctIds(lines) && forall j :: 0 <= j < |lines| ==> lines[j].recipient in db.recipients
    ensures Total(Hashed(ItemsOf(db, b, lines), b)) == SumOf(lines)
  {
    if lines != [] {
      ItemsTotal(db, b, lines[..|lines| - 1]);
      LastLine(db, b, lines);
      TakeOneTotal(Hashed(ItemsOf(db, b, lines), b), lines[|lines| - 1].id);
    }
  }

  /** The lines and nothing else are the items of the batch; the items of other batches are as before. */
  ghost predicate LinesStored(db: Db, after: Db, b: BatchId, lines: seq<Line>) {
    && (forall k :: 0 <= k < |lines| ==> ItemOfLine(db, after.items, b, lines[k]))
    && (forall i :: i in after.items && after.items[i].batch == b ==> exists k :: 0 <= k < |lines| && lines[k].id == i)
    && (forall i :: i in db.items && db.items[i].batch != b ==> i in after.items && after.items[i] == db.items[i])
    && (forall i :: i in after.items && after.items[i].batch != b ==> i in db.items)
    && Total(Hashed(after.items, b)) == SumOf(lines)
  }

  lemma {:induction false} Stored(db: Db, after: Db, kept: map<ItemId, Item>, b: BatchId, lines: seq<Line>)
    requires DistinctIds(lines) && forall k :: 0 <= k < |lines| ==> lines[k].recipient in db.recipients && lines[k].id !in db.items
    requires kept == Without(db.items, b) && after.items == kept + ItemsOf(db, b, lines)
    ensures LinesStored(db, after, b, lines)
  {
    var news := ItemsOf(db, b, lines);
    forall k | 0 <= k < |lines| ensures ItemOfLine(db, news, b, lines[k]) { EachItsOwn(db, b, lines, k); }
    ItemsTotal(db, b, lines);
    SameHashed(kept, news, b);
    StoredRows(db, after, news, b, lines);
  }

  lemma {:induction false} StoredRows(db: Db, after: Db, news: map<ItemId, Item>, b: BatchId, lines: seq<Line>)
    requires after.items == Without(db.items, b) + news && Total(Hashed(after.items, b)) == SumOf(lines)
    requires forall i :: i in news ==> i !in db.items && news[i].batch == b && exists k :: 0 <= k < |lines| && lines[k].id == i
    requires forall k :: 0 <= k < |lines| ==> ItemOfLine(db, news, b, lines[k])
    ensures LinesStored(db, after, b, lines)
  {}

  lemma {:induction false} SameHashed(kept: map<ItemId, Item>, items: map<ItemId, Item>, b: BatchId)
    requires kept.Keys !! items.Keys && forall i :: i in kept ==> kept[i].batch != b
    ensures Hashed(kept + items, b) == Hashed(items, b)
  {}

  /** What makes lines acceptable, and the reason when they are not. */
  ghost predicate RefusedFor(db: Db, company: CompanyId, lines: seq<Line>, why: Option<Refusal>) {
    if exists j, k :: 0 <= j < k < |lines| && lines[j].recipient == lines[k].recipient then why == Some(RecipientRepeated)
    else if SumOf(lines) > 2147483647 then why == Some(TotalTooHigh)
    else (forall k :: 0 <= k < |lines| && (forall j :: 0 <= j < k ==> Payable(db, company, lines[j].recipient)) && !Payable(db, company, lines[k].recipient) ==>
            why == Some(if lines[k].recipient in db.recipients && db.recipients[lines[k].recipient].company == company then RecipientInactive else NotFound))
         && ((forall k :: 0 <= k < |lines| ==> Payable(db, company, lines[k].recipient)) ==> why == None)
  }

  lemma {:induction false} FirstProblemIs(db: Db, company: CompanyId, lines: seq<Line>, k: nat)
    requires k < |lines| && (forall j :: 0 <= j < k ==> Payable(db, company, lines[j].recipient)) && !Payable(db, company, lines[k].recipient)
    ensures FirstProblem(db, company, lines)
      == Some(if lines[k].recipient in db.recipients && db.recipients[lines[k].recipient].company == company then RecipientInactive else NotFound)
  {
    if k < |lines| - 1 { FirstProblemIs(db, company, lines[..|lines| - 1], k); }
  }

  lemma {:induction false} BuildRefuses(db: Db, company: CompanyId, b: BatchId, lines: seq<Line>)
    ensures var r := BuildItems(db, company, b, lines); RefusedFor(db, company, lines, if r.Success? then None else Some(r.error))
  {
    forall k | 0 <= k < |lines| && (forall j :: 0 <= j < k ==> Payable(db, company, lines[j].recipient)) && !Payable(db, company, lines[k].recipient)
      ensures FirstProblem(db, company, lines)
        == Some(if lines[k].recipient in db.recipients && db.recipients[lines[k].recipient].company == company then RecipientInactive else NotFound)
    {
      FirstProblemIs(db, company, lines, k);
    }
  }

  // ---- one batch at a time ---------------------------------------------------------------------

  /** Every row that is not the batch, an item of it or a request of it. */
  ghost predicate OthersSame(db: Db, after: Db, b: BatchId) {
    && after.recipients == db.recipients && after.settings == db.settings && after.schedules == db.schedules
    && (forall c :: c != b ==> (c in db.batches <==> c in after.batches) && (c in db.batches ==> after.batches[c] == db.batches[c]))
    && (forall i :: i in db.items && db.items[i].batch != b ==> i in after.items && after.items[i] == db.items[i])
    && (forall i :: i in after.items && after.items[i].batch != b ==> i in db.items)
    && (forall a :: a in db.approvals && db.approvals[a].batch != b ==> a in after.approvals && after.approvals[a] == db.approvals[a])
  }

  lemma {:induction false} NoItemYet(db: Db, b: BatchId)
    requires Inv(db) && b !in db.batches
    ensures Without(db.items, b) == db.items
  {
    forall i | i in db.items ensures db.items[i].batch != b { assert ItemFits(db, i); }
  }

  /** A new batch holds one pending item for each line, as the line says; it is refused for its lines only. */
  lemma {:induction false} CreateMeans(db: Db, company: CompanyId, b: BatchId, reference: string, lines: seq<Line>,
                                       scheduled: bool, schedule: Option<ScheduleId>)
    requires Inv(db) && b !in db.batches && FreshLines(db, lines)
    ensures var r := Create(db, company, b, reference, lines, scheduled, schedule);
      && RefusedFor(db, company, lines, if r.Success? then None else Some(r.error))
      && (r.Success? ==>
           && LinesStored(db, r.value, b, lines) && OthersSame(db, r.value, b) && r.value.approvals == db.approvals
           && b in r.value.batches && r.value.batches[b].company == company && r.value.batches[b].reference == reference
           && r.value.batches[b].status == (if scheduled then Scheduled else Draft) && r.value.batches[b].schedule == schedule
           && r.value.batches[b].version == 1 && r.value.batches[b].retryOf == None
           && r.value.batches[b].contentHash == None && r.value.batches[b].approvalRequests == 0)
  {
    BuildRefuses(db, company, b, lines);
    NoItemYet(db, b);
    var r := Create(db, company, b, reference, lines, scheduled, schedule);
    if r.Success? { Stored(db, r.value, db.items, b, lines); }
  }

  /** The next payment of a repetition, for its collaborators whether active or not. */
  lemma {:induction false} OccurrenceMeans(db: Db, company: CompanyId, b: BatchId, reference: string, lines: seq<Line>, s: ScheduleId)
    requires Inv(db) && b !in db.batches && FreshLines(db, lines) && forall k :: 0 <= k < |lines| ==> lines[k].recipient in db.recipients
    ensures var after := CreateOccurrence(db, company, b, reference, lines, s);
      && LinesStored(db, after, b, lines) && OthersSame(db, after, b) && after.approvals == db.approvals
      && b in after.batches && after.batches[b].company == company && after.batches[b].reference == reference
      && after.batches[b].status == Scheduled && after.batches[b].schedule == Some(s) && after.batches[b].retryOf == None
      && after.batches[b].version == 1 && after.batches[b].contentHash == None && after.batches[b].approvalRequests == 0
  {
    NoItemYet(db, b);
    Stored(db, CreateOccurrence(db, company, b, reference, lines, s), db.items, b, lines);
  }

  /** The company changes its own batch, not yet asked for, in the version it saw. */
  predicate MayEdit(db: Db, company: CompanyId, b: BatchId, version: nat, why: Option<Refusal>) {
    if b !in db.batches || db.batches[b].company != company then why == Some(NotFound)
    else if db.batches[b].status !in {Draft, Scheduled} then why == Some(NotEditable)
    else if db.batches[b].version != version then why == Some(VersionChanged)
    else why == None
  }

  /** An edit replaces all items by those of its lines. */
  lemma {:induction false} UpdateMeans(db: Db, company: CompanyId, b: BatchId, reference: string, lines: seq<Line>,
                                       version: nat, scheduled: bool)
    requires FreshLines(db, lines)
    ensures var r := Update(db, company, b, reference, lines, version, scheduled);
      && (!MayEdit(db, company, b, version, None) ==> r.Failure? && MayEdit(db, company, b, version, Some(r.error)))
      && (MayEdit(db, company, b, version, None) ==> RefusedFor(db, company, lines, if r.Success? then None else Some(r.error)))
      && (r.Success? ==>
           && LinesStored(db, r.value, b, lines) && OthersSame(db, r.value, b) && r.value.approvals == db.approvals
           && b in r.value.batches && r.value.batches[b] == db.batches[b].(
                reference := reference, version := version + 1, status := if scheduled then Scheduled else db.batches[b].status))
  {
    BuildRefuses(db, company, b, lines);
    var r := Update(db, company, b, reference, lines, version, scheduled);
    if r.Success? { Stored(db, r.value, Without(db.items, b), b, lines); }
  }

  lemma {:induction false} ScheduleMeans(db: Db, company: CompanyId, b: BatchId, version: nat)
    ensures var r := Schedule(db, company, b, version);
      && MayEdit(db, company, b, version, if r.Success? then None else Some(r.error))
      && (r.Success? ==>
           && OthersSame(db, r.value, b) && r.value.items == db.items && r.value.approvals == db.approvals
           && b in r.value.batches && r.value.batches[b] == db.batches[b].(status := Scheduled, version := version + 1))
  {}

  /** A batch and all it asked for end: pending items canceled, awaiting requests invalidated, nothing else. */
  ghost predicate Ends(db: Db, after: Db, b: BatchId) {
    && OthersSame(db, after, b) && after.items.Keys == db.items.Keys && after.approvals.Keys == db.approvals.Keys
    && b in db.batches && b in after.batches
    && after.batches[b] == db.batches[b].(status := CanceledBatch, version := db.batches[b].version + 1)
    && (forall i :: i in db.items && db.items[i].batch == b ==>
         after.items[i] == db.items[i].(status := if db.items[i].status == Pending then Canceled else db.items[i].status))
    && (forall a :: a in db.approvals && db.approvals[a].batch == b ==>
         after.approvals[a] == db.approvals[a].(state := if db.approvals[a].state == Awaiting then Invalidated else db.approvals[a].state))
  }

  lemma {:induction false} CancelMeans(db: Db, company: CompanyId, b: BatchId)
    ensures var r := Cancel(db, company, b);
      && (b !in db.batches || db.batches[b].company != company ==> r == Failure(NotFound))
      && (b in db.batches && db.batches[b].company == company && db.batches[b].status !in {Draft, Scheduled, AwaitingApproval} ==> r == Failure(NotCancelable))
      && (b in db.batches && db.batches[b].company == company && db.batches[b].status in {Draft, Scheduled, AwaitingApproval} ==>
           r.Success? && Ends(db, r.value, b))
  {}

  /** A repetition ends once, with its scheduled batches; a later end changes nothing. */
  lemma {:induction false} EndScheduleMeans(db: Db, company: CompanyId, s: ScheduleId, version: nat)
    ensures var r := EndSchedule(db, company, s, version);
      && (s !in db.schedules || db.schedules[s].company != company ==> r == Failure(NotFound))
      && (s in db.schedules && db.schedules[s].company == company && db.schedules[s].version != version ==> r == Failure(VersionChanged))
      && (s in db.schedules && db.schedules[s].company == company && db.schedules[s].version == version ==> r.Success?)
      && (r.Success? && !db.schedules[s].active ==> r.value == db)
  {}

  lemma {:induction false} EndScheduleRows(db: Db, company: CompanyId, s: ScheduleId, version: nat, b: BatchId, i: ItemId, a: ApprovalId)
    requires EndSchedule(db, company, s, version).Success? && db.schedules[s].active
    ensures EndedRows(db, EndSchedule(db, company, s, version).value, company, s, b, i, a)
  {
    EndScheduleIs(db, company, s, version);
    RowsOfEnd(db, company, s, b, i, a);
  }

  function EndedFrom(db: Db, company: CompanyId, s: ScheduleId): Db
    requires s in db.schedules
  {
    db.(schedules := db.schedules[s := Repetition(company, false, db.schedules[s].version + 1)])
  }

  lemma {:induction false} EndScheduleIs(db: Db, company: CompanyId, s: ScheduleId, version: nat)
    requires EndSchedule(db, company, s, version).Success? && db.schedules[s].active
    ensures EndSchedule(db, company, s, version).value
      == CancelUnrequested(EndedFrom(db, company, s), Upcoming(EndedFrom(db, company, s), company, s))
  {}

  lemma {:induction false} RowsOfEnd(db: Db, company: CompanyId, s: ScheduleId, b: BatchId, i: ItemId, a: ApprovalId)
    requires s in db.schedules
    ensures EndedRows(db, CancelUnrequested(EndedFrom(db, company, s), Upcoming(EndedFrom(db, company, s), company, s)), company, s, b, i, a)
  {
    var ended := EndedFrom(db, company, s);
    var which := Upcoming(ended, company, s);
    CanceledRows(ended, which, b, i, a);
    UpcomingRows(db, ended, CancelUnrequested(ended, which), company, s, which, b, i, a);
  }

  lemma {:induction false} UpcomingRows(db: Db, ended: Db, after: Db, company: CompanyId, s: ScheduleId, which: set<BatchId>,
                                        b: BatchId, i: ItemId, a: ApprovalId)
    requires s in db.schedules && ended == db.(schedules := db.schedules[s := Repetition(company, false, db.schedules[s].version + 1)])
    requires after == ended.(batches := after.batches, items := after.items, approvals := after.approvals)
    requires after.batches.Keys == db.batches.Keys && after.items.Keys == db.items.Keys && after.approvals.Keys == db.approvals.Keys
    requires forall c :: c in which <==> Upcomes(db, company, s, c)
    requires b in db.batches ==>
      after.batches[b] == if b in which then db.batches[b].(status := CanceledBatch, version := db.batches[b].version + 1) else db.batches[b]
    requires i in db.items ==>
      after.items[i] == if db.items[i].batch in which && db.items[i].status == Pending then db.items[i].(status := Canceled) else db.items[i]
    requires a in db.approvals ==>
      after.approvals[a] == if db.approvals[a].batch in which && db.approvals[a].state == Awaiting then db.approvals[a].(state := Invalidated) else db.approvals[a]
    ensures EndedRows(db, after, company, s, b, i, a)
  {}

  lemma {:induction false} CanceledRows(db: Db, which: set<BatchId>, b: BatchId, i: ItemId, a: ApprovalId)
    ensures var after := CancelUnrequested(db, which);
      && after == db.(batches := after.batches, items := after.items, approvals := after.approvals)
      && after.batches.Keys == db.batches.Keys && after.items.Keys == db.items.Keys && after.approvals.Keys == db.approvals.Keys
      && (b in db.batches && b !in which ==> after.batches[b] == db.batches[b])
      && (b in db.batches && b in which ==>
           after.batches[b] == db.batches[b].(status := CanceledBatch, version := db.batches[b].version + 1))
      && (i in db.items && !(db.items[i].batch in which && db.items[i].status == Pending) ==> after.items[i] == db.items[i])
      && (i in db.items && db.items[i].batch in which && db.items[i].status == Pending ==>
           after.items[i] == db.items[i].(status := Canceled))
      && (a in db.approvals && !(db.approvals[a].batch in which && db.approvals[a].state == Awaiting) ==> after.approvals[a] == db.approvals[a])
      && (a in db.approvals && db.approvals[a].batch in which && db.approvals[a].state == Awaiting ==>
           after.approvals[a] == db.approvals[a].(state := Invalidated))
  {}

  predicate Upcomes(db: Db, company: CompanyId, s: ScheduleId, b: BatchId) {
    b in db.batches && db.batches[b].company == company && db.batches[b].schedule == Some(s) && db.batches[b].status == Scheduled
  }

  predicate EndedRows(db: Db, after: Db, company: CompanyId, s: ScheduleId, b: BatchId, i: ItemId, a: ApprovalId) {
    && after.recipients == db.recipients && after.settings == db.settings
    && s in db.schedules && after.schedules == db.schedules[s := Repetition(company, false, db.schedules[s].version + 1)]
    && after.batches.Keys == db.batches.Keys && after.items.Keys == db.items.Keys && after.approvals.Keys == db.approvals.Keys
    && (b in db.batches && !Upcomes(db, company, s, b) ==> after.batches[b] == db.batches[b])
    && (Upcomes(db, company, s, b) ==>
         after.batches[b] == db.batches[b].(status := CanceledBatch, version := db.batches[b].version + 1))
    && (i in db.items ==> after.items[i] == EndedItem(db, company, s, i))
    && (a in db.approvals ==> after.approvals[a] == EndedApproval(db, company, s, a))
  }

  function EndedItem(db: Db, company: CompanyId, s: ScheduleId, i: ItemId): Item
    requires i in db.items
  {
    var row := db.items[i];
    if Upcomes(db, company, s, row.batch) && row.status == Pending then row.(status := Canceled) else row
  }

  function EndedApproval(db: Db, company: CompanyId, s: ScheduleId, a: ApprovalId): Approval
    requires a in db.approvals
  {
    var row := db.approvals[a];
    if Upcomes(db, company, s, row.batch) && row.state == Awaiting then row.(state := Invalidated) else row
  }

  // ---- retries -----------------------------------------------------------------------------------

  /** A retry of the batch that is open, or that ran to its end. */
  predicate RetriedAs(db: Db, company: CompanyId, b: BatchId, r: BatchId, open: bool) {
    r in db.batches && db.batches[r].company == company && db.batches[r].retryOf == Some(b)
    && if open then db.batches[r].status in {Draft, Scheduled, AwaitingApproval, Processing} else db.batches[r].status in {Completed, CompletedWithFailures}
  }

  predicate FailedItem(db: Db, b: BatchId, i: ItemId) {
    i in db.items && db.items[i].batch == b && db.items[i].status == Failed
    && db.items[i].recipient in db.recipients && db.recipients[db.items[i].recipient].active
  }

  /** Refused without failures to pay again and after another retry ran to its end; an open retry is found, and otherwise a draft is made. */
  lemma {:induction false} RetryMeans(db: Db, company: CompanyId, b: BatchId, retry: BatchId, reference: string, copies: map<ItemId, ItemId>)
    requires retry !in db.batches && (forall n :: n in copies ==> copies[n] in db.items)
    ensures var r := RetryFailed(db, company, b, retry, reference, copies);
      if b !in db.batches || db.batches[b].company != company then r == Failure(NotFound)
      else if db.batches[b].status != CompletedWithFailures then r == Failure(NoFailures)
      else if exists q :: RetriedAs(db, company, b, q, true) then r == Success(db)
      else if exists q :: RetriedAs(db, company, b, q, false) then r == Failure(AlreadyRetried)
      else if forall i :: !FailedItem(db, b, i) then r == Failure(NoFailures)
      else r.Success? && retry in r.value.batches && r.value.batches[retry].company == company && r.value.batches[retry].status == Draft
           && r.value.batches[retry].reference == reference && r.value.batches[retry].retryOf == Some(b)
           && r.value.batches[retry].version == 1 && r.value.batches[retry].approvalRequests == 0
           && r.value.approvals == db.approvals && r.value.batches == db.batches[retry := r.value.batches[retry]]
  {
    forall q ensures q in LiveRetries(db, company, b) <==> RetriedAs(db, company, b, q, true) || RetriedAs(db, company, b, q, false) {}
    forall i ensures i in FailedActive(db, b) <==> FailedItem(db, b, i) {}
  }

  // ---- requests ----------------------------------------------------------------------------------

  /** What must hold for a request to go out; the version is that of a click, none that of a date. */
  predicate MayAsk(db: Db, company: CompanyId, b: BatchId, expected: Option<nat>, why: Option<Refusal>) {
    if b !in db.batches || db.batches[b].company != company then why == Some(NotFound)
    else if expected.Some? && db.batches[b].status != Draft then why == Some(NotDraft)
    else if expected.None? && db.batches[b].status != Scheduled then why == Some(NotDraft)
    else if expected.Some? && db.batches[b].version != expected.value then why == Some(VersionChanged)
    else if company !in db.settings || !db.settings[company].enabled then why == Some(FeatureOff)
    else if exists i :: i in db.items && db.items[i].batch == b && !(db.items[i].recipient in db.recipients && db.recipients[db.items[i].recipient].active)
      then why == Some(RecipientInactive)
    else why == None
  }

  lemma {:induction false} RequestMeans(db: Db, company: CompanyId, b: BatchId, expected: Option<nat>, issuer: AccountId, a: ApprovalId)
    requires a !in db.approvals
    ensures var r := Request(db, company, b, expected, issuer, a);
      && MayAsk(db, company, b, expected, if r.Success? then None else Some(r.error))
      && (r.Success? ==>
           && OthersSame(db, r.value, b) && b in r.value.batches
           && r.value.batches[b] == db.batches[b].(
                status := AwaitingApproval, version := db.batches[b].version + 1, approvalRequests := db.batches[b].approvalRequests + 1,
                issuer := Some(issuer), contentHash := Some(ContentOf(db.batches[b].reference, issuer, Hashed(r.value.items, b))))
           && a in r.value.approvals && r.value.approvals == db.approvals[a := r.value.approvals[a]]
           && r.value.approvals[a].batch == b && r.value.approvals[a].state == Awaiting
           && r.value.approvals[a].requestNumber == r.value.batches[b].approvalRequests
           && r.value.batches[b].contentHash == Some(r.value.approvals[a].content))
  {}

  /** The batch waits for this request and not for a later one. */
  predicate Current(db: Db, a: ApprovalId)
    requires a in db.approvals
  {
    var b := db.approvals[a].batch;
    b in db.batches && db.batches[b].status == AwaitingApproval && db.batches[b].approvalRequests == db.approvals[a].requestNumber
  }

  /** A request ends only while it awaits; its batch goes along if it waits for it, and then its items if the request expired. */
  lemma {:induction false} CloseMeans(db: Db, a: ApprovalId, state: ApprovalState, status: BatchStatus)
    ensures a !in db.approvals || db.approvals[a].state != Awaiting ==> Close(db, a, state, status) == db
    ensures a in db.approvals && db.approvals[a].state == Awaiting ==> ClosedRows(db, Close(db, a, state, status), a, state, status)
  {
    if a in db.approvals && db.approvals[a].state == Awaiting {
      CloseIs(db, a, state, status);
      if Current(db, a) { ClosedAs(db, CloseCurrent(db, a, state, status), a, state, status); }
      else { OnlyRequest(db, a, state, status); }
    }
  }

  lemma {:induction false} CloseIs(db: Db, a: ApprovalId, state: ApprovalState, status: BatchStatus)
    requires a in db.approvals && db.approvals[a].state == Awaiting
    ensures Close(db, a, state, status)
      == if Current(db, a) then CloseCurrent(db, a, state, status) else db.(approvals := db.approvals[a := db.approvals[a].(state := state)])
  {}

  /** The rows of an awaiting request that is current. */
  function CloseCurrent(db: Db, a: ApprovalId, state: ApprovalState, status: BatchStatus): Db
    requires a in db.approvals
  {
    var b := db.approvals[a].batch;
    db.(approvals := db.approvals[a := db.approvals[a].(state := state)], batches := Move(db.batches, {b}, status),
        items := if status == Expired then MovePending(db.items, {b}, Canceled) else db.items)
  }

  lemma {:induction false} ClosedAs(db: Db, after: Db, a: ApprovalId, state: ApprovalState, status: BatchStatus)
    requires a in db.approvals && Current(db, a) && after == CloseCurrent(db, a, state, status)
    ensures ClosedRows(db, after, a, state, status)
  {}

  lemma {:induction false} OnlyRequest(db: Db, a: ApprovalId, state: ApprovalState, status: BatchStatus)
    requires a in db.approvals && !Current(db, a)
    ensures ClosedRows(db, db.(approvals := db.approvals[a := db.approvals[a].(state := state)]), a, state, status)
  {}

  ghost predicate ClosedRows(db: Db, after: Db, a: ApprovalId, state: ApprovalState, status: BatchStatus)
    requires a in db.approvals
  {
    var b := db.approvals[a].batch;
    && OthersSame(db, after, b) && after.batches.Keys == db.batches.Keys && after.items.Keys == db.items.Keys
    && after.approvals == db.approvals[a := db.approvals[a].(state := state)]
    && (b in db.batches ==>
         after.batches[b] == if Current(db, a) then db.batches[b].(status := status, version := db.batches[b].version + 1) else db.batches[b])
    && (forall i :: i in db.items && db.items[i].batch == b ==>
         after.items[i] == if Current(db, a) && status == Expired && db.items[i].status == Pending
                           then db.items[i].(status := Canceled) else db.items[i])
  }

  /** The current request of a batch whose reference, account and lines are those hashed for it, with payments switched on and its approver unchanged. */
  lemma {:induction false} StillMeans(db: Db, a: ApprovalId)
    requires a in db.approvals && db.approvals[a].batch in db.batches
    ensures var row, batch := db.approvals[a], db.batches[db.approvals[a].batch];
      StillAsRequested(db, a) <==> (
        && Current(db, a) && batch.contentHash == Some(row.content) && batch.issuer.Some?
        && row.content == ContentOf(batch.reference, batch.issuer.value, Hashed(db.items, row.batch))
        && row.company in db.settings && db.settings[row.company].enabled && row.approver == db.settings[row.company].approverPhone)
  {}

  /** A tap on a request that is no longer as it was asked ends it, and its batch goes back. */
  lemma {:induction false} StaleTapMeans(db: Db, a: ApprovalId, approve: bool)
    requires a in db.approvals && db.approvals[a].state == Awaiting && db.approvals[a].batch in db.batches && !StillAsRequested(db, a)
    ensures ClosedRows(db, Decide(db, a, approve), a, Invalidated, Draft)
  {
    CloseMeans(db, a, Invalidated, Draft);
  }

  /** A tap after the decision, or on a request that ended, changes nothing. */
  lemma {:induction false} DecideOnce(db: Db, a: ApprovalId, approve: bool)
    ensures a !in db.approvals || db.approvals[a].state != Awaiting ==> Decide(db, a, approve) == db
  {}

  /** A tap on an awaiting request moves it, its batch and, if it rejects, its items. */
  lemma {:induction false} DecideMeans(db: Db, a: ApprovalId, approve: bool)
    requires Inv(db) && a in db.approvals && db.approvals[a].state == Awaiting
    ensures var after := Decide(db, a, approve); var b := db.approvals[a].batch;
      && OthersSame(db, after, b) && b in after.batches
      && after.approvals == db.approvals[a := db.approvals[a].(state := if approve then Approved else Rejected)]
      && after.batches[b] == db.batches[b].(status := if approve then Processing else RejectedBatch, version := db.batches[b].version + 1)
      && after.items.Keys == db.items.Keys
      && (forall i :: i in db.items && db.items[i].batch == b ==>
           after.items[i] == db.items[i].(status := if approve then Pending else Canceled))
  {
    AwaitingIsAsRequested(db, a);
    assert RequestFits(db, a);
    forall i | i in db.items && db.items[i].batch == db.approvals[a].batch ensures db.items[i].status == Pending { assert ItemFits(db, i); }
  }

  // ---- settings -----------------------------------------------------------------------------------

  predicate At(db: Db, company: CompanyId, b: BatchId, statuses: set<BatchStatus>) {
    b in db.batches && db.batches[b].company == company && db.batches[b].status in statuses
  }

  /** Switched off, what awaits ends and what is scheduled goes back. */
  function OffBatch(db: Db, company: CompanyId, b: BatchId): Batch
    requires b in db.batches
  {
    var row := db.batches[b];
    if row.company == company && row.status == AwaitingApproval then row.(status := CanceledBatch, version := row.version + 1)
    else if row.company == company && row.status == Scheduled then row.(status := Draft, version := row.version + 1)
    else row
  }

  /** What is approved or asked for and not claimed ends. */
  function OffItem(db: Db, company: CompanyId, i: ItemId): Item
    requires i in db.items
  {
    var row := db.items[i];
    if At(db, company, row.batch, {AwaitingApproval, Processing}) && row.status == Pending then row.(status := Canceled) else row
  }

  /** No request of the company awaits any longer. */
  function OffApproval(db: Db, company: CompanyId, a: ApprovalId): Approval
    requires a in db.approvals
  {
    var row := db.approvals[a];
    if row.batch in db.batches && db.batches[row.batch].company == company && row.state == Awaiting then row.(state := Invalidated) else row
  }

  function OffSchedule(db: Db, company: CompanyId, s: ScheduleId): Repetition
    requires s in db.schedules
  {
    var row := db.schedules[s];
    if row.company == company && row.active then Repetition(company, false, row.version + 1) else row
  }

  predicate SwitchedOffRows(db: Db, after: Db, company: CompanyId, b: BatchId, i: ItemId, a: ApprovalId, s: ScheduleId) {
    && after.recipients == db.recipients
    && after.batches.Keys == db.batches.Keys && after.items.Keys == db.items.Keys
    && after.approvals.Keys == db.approvals.Keys && after.schedules.Keys == db.schedules.Keys
    && (b in db.batches ==> after.batches[b] == OffBatch(db, company, b))
    && (i in db.items ==> after.items[i] == OffItem(db, company, i))
    && (a in db.approvals ==> after.approvals[a] == OffApproval(db, company, a))
    && (s in db.schedules ==> after.schedules[s] == OffSchedule(db, company, s))
  }

  /** Another approver: what awaits goes back to be asked again. */
  predicate ApproverRows(db: Db, after: Db, company: CompanyId, b: BatchId, a: ApprovalId) {
    && after.recipients == db.recipients && after.items == db.items && after.schedules == db.schedules
    && after.batches.Keys == db.batches.Keys && after.approvals.Keys == db.approvals.Keys
    && (b in db.batches && !At(db, company, b, {AwaitingApproval}) ==> after.batches[b] == db.batches[b])
    && (At(db, company, b, {AwaitingApproval}) ==>
         after.batches[b] == db.batches[b].(status := Draft, version := db.batches[b].version + 1))
    && (a in db.approvals ==> after.approvals[a] == OffApproval(db, company, a))
  }

  predicate Seen(db: Db, company: CompanyId, version: nat) {
    version == if company in db.settings then db.settings[company].version else 0
  }

  /** Refused for an older version only; switched on for the same approver nothing else changes. */
  lemma {:induction false} ConfigureMeans(db: Db, company: CompanyId, enabled: bool, phone: Phone, version: nat)
    ensures var r := Configure(db, company, enabled, phone, version);
      && (Seen(db, company, version) ==> r.Success? && r.value.settings == db.settings[company := Settings(version + 1, enabled, phone)])
      && (!Seen(db, company, version) ==> r == Failure(VersionChanged))
      && (r.Success? && enabled && (company !in db.settings || db.settings[company].approverPhone == phone) ==>
           r.value == db.(settings := r.value.settings))
  {}

  lemma {:induction false} SwitchOffMeans(db: Db, company: CompanyId, phone: Phone, version: nat, b: BatchId, i: ItemId, a: ApprovalId, s: ScheduleId)
    requires Seen(db, company, version)
    ensures SwitchedOffRows(db, Configure(db, company, false, phone, version).value, company, b, i, a, s)
  {
    var off := Configure(db, company, false, phone, version).value;
    var saved := db.(settings := db.settings[company := Settings(version + 1, false, phone)]);
    assert off == CancelUnsent(saved, company);
    OffBatches(saved, company, b);
    OffOthers(saved, company, i, a, s);
  }

  lemma {:induction false} OffBatches(db: Db, company: CompanyId, b: BatchId)
    ensures var after := CancelUnsent(db, company);
      after.batches.Keys == db.batches.Keys && (b in db.batches ==> after.batches[b] == OffBatch(db, company, b))
  {}

  lemma {:induction false} OffOthers(db: Db, company: CompanyId, i: ItemId, a: ApprovalId, s: ScheduleId)
    ensures var after := CancelUnsent(db, company);
      && after.recipients == db.recipients && after.items.Keys == db.items.Keys
      && after.approvals.Keys == db.approvals.Keys && after.schedules.Keys == db.schedules.Keys
      && (i in db.items ==> after.items[i] == OffItem(db, company, i))
      && (a in db.approvals ==> after.approvals[a] == OffApproval(db, company, a))
      && (s in db.schedules ==> after.schedules[s] == OffSchedule(db, company, s))
  {}

  lemma {:induction false} NewApproverMeans(db: Db, company: CompanyId, phone: Phone, version: nat, b: BatchId, a: ApprovalId)
    requires Seen(db, company, version) && company in db.settings && db.settings[company].approverPhone != phone
    ensures ApproverRows(db, Configure(db, company, true, phone, version).value, company, b, a)
  {}

  lemma {:induction false} ToDraftMeans(db: Db, b: BatchId)
    ensures var after := ToDraft(db, b);
      if b in db.batches && db.batches[b].status in {Draft, Scheduled}
      then after == db.(batches := db.batches[b := db.batches[b].(status := Draft, version := db.batches[b].version + 1)])
      else after == db
  {
    var after := ToDraft(db, b);
    if b in db.batches && db.batches[b].status in {Draft, Scheduled} {
      assert after.batches == db.batches[b := db.batches[b].(status := Draft, version := db.batches[b].version + 1)];
    }
  }

  // ---- writes of one item --------------------------------------------------------------------------

  /** Item i gets a status, and no other row changes. */
  predicate OnlyStatus(db: Db, after: Db, i: ItemId, to: ItemStatus) {
    i in db.items && after == db.(items := db.items[i := db.items[i].(status := to)])
  }

  /** An answer counts for an item still being sent, and each answer says one thing. */
  lemma {:induction false} AnswerMeans(db: Db, i: ItemId, outcome: Outcome)
    ensures var after := Recorded(db, i, outcome);
      if i !in db.items || db.items[i].status != Sending then after == db
      else && (outcome == SaidPaid ==> OnlyStatus(db, after, i, Paid))
           && (outcome == SaidInProcessing ==> OnlyStatus(db, after, i, InProcessing))
           && (outcome == SaidRefused ==> OnlyStatus(db, after, i, Failed))
           && (outcome == SaidRateLimited ==> OnlyStatus(db, after, i, Pending))
           && (outcome in {SaidDuplicate, SaidNothing} ==> OnlyStatus(db, after, i, Uncertain))
  {}

  /** A check counts for the status it read, and what is not found proves nothing. */
  lemma {:induction false} CheckMeans(db: Db, i: ItemId, seen: ItemStatus, found: Found)
    ensures var after := Checked(db, i, seen, found);
      if i !in db.items || db.items[i].status != seen || found == NotFoundYet || (found == FoundOther && seen != Uncertain) then after == db
      else OnlyStatus(db, after, i, if found == FoundRealized then Paid else if found == FoundNotRealized then Failed else InProcessing)
  {}

  /** A notice counts for an item in flight. */
  lemma {:induction false} NoticeMeans(db: Db, i: ItemId, realized: bool)
    ensures var after := Notified(db, i, realized);
      if i in db.items && db.items[i].status in {Sending, InProcessing, Uncertain} then OnlyStatus(db, after, i, if realized then Paid else Failed)
      else after == db
  {}

  /** Giving up a batch fails what is pending in it; a lost send of the page becomes uncertain. */
  lemma {:induction false} BulkMeans(db: Db, b: BatchId, late: set<ItemId>)
    ensures var failed, lost := FailPending(db, b), MarkLost(db, late);
      && failed == db.(items := failed.items) && lost == db.(items := lost.items)
      && failed.items.Keys == db.items.Keys && lost.items.Keys == db.items.Keys
      && forall i :: i in db.items ==>
           && failed.items[i] == (if db.items[i].batch == b && db.items[i].status == Pending then db.items[i].(status := Failed) else db.items[i])
           && lost.items[i] == (if i in late && db.items[i].status == Sending then db.items[i].(status := Uncertain) else db.items[i])
  {}

  /** A batch in progress ends exactly when every item is paid, failed or canceled, as completed exactly when all were paid. */
  lemma {:induction false} CompleteMeans(db: Db, b: BatchId)
    ensures var after := CompleteFinished(db, b);
      if b in db.batches && db.batches[b].status == Processing
         && (forall i :: i in db.items && db.items[i].batch == b ==> db.items[i].status in {Paid, Failed, Canceled})
      then && after == db.(batches := db.batches[b := after.batches[b]])
           && after.batches[b] == db.batches[b].(status := after.batches[b].status, version := db.batches[b].version + 1)
           && after.batches[b].status == (if forall i :: i in db.items && db.items[i].batch == b ==> db.items[i].status == Paid
                                         then Completed else CompletedWithFailures)
      else after == db
  {
    var after := CompleteFinished(db, b);
    if b in db.batches && db.batches[b].status == Processing && AllKnown(db, b) {
      assert after.batches == db.batches[b := after.batches[b]];
    }
  }
}
