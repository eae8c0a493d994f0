/**
 What every transaction of the payment services keeps, whatever the others did before it.
 Each table has one predicate a row, so that a proof names the rows it uses.
 */
module PaymentInvariant {
  import opened Common
  import opened PaymentContent
  import opened PaymentModel

  // ---- the invariant --------------------------------------------------------------------

  /** The status of a batch decides what its items may be. */
  predicate Follows(batch: BatchStatus, item: ItemStatus) {
    && (Unrequested(batch) ==> item == Pending)
    && (Dead(batch) ==> item == Canceled)
    && (batch == Completed ==> item == Paid)
    && (batch == CompletedWithFailures ==> Final(item))
  }

  predicate ItemFits(db: Db, i: ItemId) {
    i in db.items ==>
      && db.items[i].batch in db.batches
      && db.items[i].recipient in db.recipients
      && Follows(db.batches[db.items[i].batch].status, db.items[i].status)
  }

  /** A retry item pays one item that failed in the batch its own batch retries. */
  predicate OriginSound(db: Db, i: ItemId) {
    i in db.items && db.items[i].origin.Some? ==>
      var j := db.items[i].origin.value;
      && j in db.items
      && db.items[j].status == Failed
      && db.items[i].batch in db.batches
      && db.batches[db.items[i].batch].retryOf == Some(db.items[j].batch)
  }

  /** A request still awaiting is the current one of a batch that awaits exactly it. */
  predicate RequestFits(db: Db, a: ApprovalId) {
    a in db.approvals ==>
      var row := db.approvals[a];
      && row.batch in db.batches
      && row.company == db.batches[row.batch].company
      && (row.state == Awaiting ==>
           && db.batches[row.batch].status == AwaitingApproval
           && db.batches[row.batch].approvalRequests == row.requestNumber
           && db.batches[row.batch].contentHash == Some(row.content)
           && row.company in db.settings
           && db.settings[row.company].enabled
           && db.settings[row.company].approverPhone == row.approver)
  }

  predicate ApprovalSound(db: Db, a: ApprovalId) {
    a in db.approvals && db.approvals[a].batch in db.batches ==>
      var row := db.approvals[a];
      var batch := db.batches[row.batch];
      && row.requestNumber <= batch.approvalRequests
      && row.totalCents == row.content.totalCents
      && (row.state == Approved ==>
           && Paying(batch.status)
           && batch.approvalRequests == row.requestNumber
           && batch.contentHash == Some(row.content))
  }

  /** From the request on nothing of the batch changes. */
  predicate Binding(s: BatchStatus) { s == AwaitingApproval || Paying(s) }

  ghost predicate HasApproval(db: Db, b: BatchId) {
    exists a :: a in db.approvals && db.approvals[a].batch == b && db.approvals[a].state == Approved
  }

  ghost predicate BatchSound(db: Db, b: BatchId) {
    b in db.batches ==>
      var row := db.batches[b];
      && (Binding(row.status) ==>
           row.issuer.Some?
           && row.contentHash == Some(ContentOf(row.reference, row.issuer.value, Hashed(db.items, b))))
      && (Paying(row.status) ==> HasApproval(db, b))
  }

  /** Only finished failures are retried. */
  predicate RetrySound(db: Db, r: BatchId) {
    r in db.batches && db.batches[r].retryOf.Some? ==>
      var b := db.batches[r].retryOf.value;
      && b in db.batches
      && db.batches[b].status == CompletedWithFailures
      && db.batches[b].company == db.batches[r].company
  }

  predicate RequestsDiffer(db: Db, a: ApprovalId, c: ApprovalId) {
    (a in db.approvals && c in db.approvals && db.approvals[a].batch == db.approvals[c].batch
     && db.approvals[a].requestNumber == db.approvals[c].requestNumber) ==> a == c
  }

  /** At most one retry of a batch can still pay. */
  predicate OneLiveRetry(db: Db, r: BatchId, q: BatchId) {
    (r in db.batches && q in db.batches && db.batches[r].retryOf.Some?
     && db.batches[r].retryOf == db.batches[q].retryOf
     && !Dead(db.batches[r].status) && !Dead(db.batches[q].status)) ==> r == q
  }

  predicate OneCopy(db: Db, i: ItemId, k: ItemId) {
    (i in db.items && k in db.items && db.items[i].origin.Some?
     && db.items[i].origin == db.items[k].origin && db.items[i].batch == db.items[k].batch) ==> i == k
  }

  ghost predicate ItemsFit(db: Db) { forall i {:trigger ItemFits(db, i)} :: ItemFits(db, i) }
  ghost predicate RequestsFit(db: Db) { forall a {:trigger RequestFits(db, a)} :: RequestFits(db, a) }

  ghost predicate Inv(db: Db) {
    && ItemsFit(db)
    && RequestsFit(db)
    && (forall i {:trigger OriginSound(db, i)} :: OriginSound(db, i))
    && (forall a {:trigger ApprovalSound(db, a)} :: ApprovalSound(db, a))
    && (forall b {:trigger BatchSound(db, b)} :: BatchSound(db, b))
    && (forall b {:trigger RetrySound(db, b)} :: RetrySound(db, b))
    && (forall a, c {:trigger RequestsDiffer(db, a, c)} :: RequestsDiffer(db, a, c))
    && (forall r, q {:trigger OneLiveRetry(db, r, q)} :: OneLiveRetry(db, r, q))
    && (forall i, k {:trigger OneCopy(db, i, k)} :: OneCopy(db, i, k))
  }

  // ---- transactions that neither ask for nor grant an approval ---------------------------

  /** Legal moves of a batch row when nothing is requested or approved. */
  predicate BatchQuiet(x: Batch, y: Batch) {
    && x.company == y.company && x.retryOf == y.retryOf
    && x.approvalRequests == y.approvalRequests && x.contentHash == y.contentHash && x.issuer == y.issuer
    && (Dead(x.status) || Finished(x.status) ==> y.status == x.status)
    && (x.status == Processing ==> Paying(y.status))
    && (Editable(x.status) ==> Editable(y.status) || Dead(y.status))
    && (x.status == AwaitingApproval ==> !Paying(y.status))
    && (Binding(y.status) ==> x.reference == y.reference)
  }

  predicate BatchStep(db: Db, after: Db, b: BatchId) {
    && (b in db.batches ==> b in after.batches && BatchQuiet(db.batches[b], after.batches[b]))
    && (b in after.batches && b !in db.batches ==>
         Editable(after.batches[b].status) && after.batches[b].retryOf == None)
  }

  predicate ApprovalQuiet(x: Approval, y: Approval) {
    y == x || (x.state == Awaiting && y == x.(state := y.state) && y.state != Awaiting && y.state != Approved)
  }

  predicate ApprovalStep(db: Db, after: Db, a: ApprovalId) {
    && (a in db.approvals <==> a in after.approvals)
    && (a in db.approvals ==> ApprovalQuiet(db.approvals[a], after.approvals[a]))
  }

  /** An item keeps what it pays and never leaves a final status. */
  predicate ItemQuiet(x: Item, y: Item) {
    && x.batch == y.batch && x.origin == y.origin && x.recipient == y.recipient
    && x.destination == y.destination && x.amountCents == y.amountCents && x.recipientName == y.recipientName
    && (Final(x.status) ==> y.status == x.status)
  }

  /** Only items of editable batches come and go. */
  predicate ItemStep(db: Db, after: Db, i: ItemId) {
    && (i in db.items && i in after.items ==> ItemQuiet(db.items[i], after.items[i]))
    && (i in db.items && i !in after.items ==>
         var b := db.items[i].batch;
         b in db.batches && Editable(db.batches[b].status) && b in after.batches && !Binding(after.batches[b].status))
    && (i in after.items && i !in db.items ==>
         var b := after.items[i].batch;
         after.items[i].origin == None && b in after.batches && Editable(after.batches[b].status))
  }

  ghost predicate Quiet(db: Db, after: Db) {
    && (forall b {:trigger BatchStep(db, after, b)} :: BatchStep(db, after, b))
    && (forall a {:trigger ApprovalStep(db, after, a)} :: ApprovalStep(db, after, a))
    && (forall i {:trigger ItemStep(db, after, i)} :: ItemStep(db, after, i))
  }

  lemma {:induction false} SameHashed(db: Db, after: Db, b: BatchId)
    requires Quiet(db, after) && b in db.batches && b in after.batches && Binding(after.batches[b].status)
    ensures Hashed(db.items, b) == Hashed(after.items, b)
  {
    forall i ensures ItemStep(db, after, i) {}
    forall i ensures i in Hashed(db.items, b) <==> i in Hashed(after.items, b) {
      assert ItemStep(db, after, i);
    }
    forall i | i in Hashed(db.items, b) ensures Hashed(db.items, b)[i] == Hashed(after.items, b)[i] {
      assert ItemStep(db, after, i);
      assert i in Hashed(after.items, b);
    }
  }

  lemma {:induction false} QuietKeepsBatch(db: Db, after: Db, b: BatchId)
    requires Inv(db) && Quiet(db, after)
    ensures BatchSound(after, b) && RetrySound(after, b)
  {
    assert BatchStep(db, after, b) && BatchSound(db, b) && RetrySound(db, b);
    if b in after.batches && Binding(after.batches[b].status) {
      SameHashed(db, after, b);
      if Paying(after.batches[b].status) {
        var a :| a in db.approvals && db.approvals[a].batch == b && db.approvals[a].state == Approved;
        assert ApprovalStep(db, after, a);
        assert HasApproval(after, b);
      }
    }
    if b in after.batches && after.batches[b].retryOf.Some? {
      assert BatchStep(db, after, after.batches[b].retryOf.value);
    }
  }

  lemma {:induction false} QuietKeepsApproval(db: Db, after: Db, a: ApprovalId)
    requires Inv(db) && Quiet(db, after)
    ensures ApprovalSound(after, a)
  {
    assert ApprovalStep(db, after, a) && ApprovalSound(db, a) && RequestFits(db, a);
    if a in after.approvals {
      assert BatchStep(db, after, after.approvals[a].batch);
    }
  }

  lemma {:induction false} QuietKeepsOrigin(db: Db, after: Db, i: ItemId)
    requires Inv(db) && Quiet(db, after)
    ensures OriginSound(after, i)
  {
    assert ItemStep(db, after, i) && OriginSound(db, i);
    if i in after.items && after.items[i].origin.Some? {
      var j := db.items[i].origin.value;
      assert BatchStep(db, after, db.items[i].batch);
      assert RetrySound(db, db.items[i].batch);
      assert ItemStep(db, after, j) && ItemFits(db, j);
    }
  }

  lemma {:induction false} QuietKeepsPairs(db: Db, after: Db)
    requires Inv(db) && Quiet(db, after)
    ensures forall a, c {:trigger RequestsDiffer(after, a, c)} :: RequestsDiffer(after, a, c)
    ensures forall r, q {:trigger OneLiveRetry(after, r, q)} :: OneLiveRetry(after, r, q)
    ensures forall i, k {:trigger OneCopy(after, i, k)} :: OneCopy(after, i, k)
  {
    forall a, c ensures RequestsDiffer(after, a, c) {
      assert ApprovalStep(db, after, a) && ApprovalStep(db, after, c) && RequestsDiffer(db, a, c);
    }
    forall r, q ensures OneLiveRetry(after, r, q) {
      assert BatchStep(db, after, r) && BatchStep(db, after, q) && OneLiveRetry(db, r, q);
    }
    forall i, k ensures OneCopy(after, i, k) {
      assert ItemStep(db, after, i) && ItemStep(db, after, k) && OneCopy(db, i, k);
    }
  }

  /** What is left to show for a quiet transaction: its items and its open requests. */
  lemma {:induction false} QuietKeeps(db: Db, after: Db)
    requires Inv(db) && Quiet(db, after) && ItemsFit(after) && RequestsFit(after)
    ensures Inv(after)
  {
    forall b ensures BatchSound(after, b) && RetrySound(after, b) { QuietKeepsBatch(db, after, b); }
    forall a ensures ApprovalSound(after, a) { QuietKeepsApproval(db, after, a); }
    forall i ensures OriginSound(after, i) { QuietKeepsOrigin(db, after, i); }
    QuietKeepsPairs(db, after);
  }

  // ---- one lemma per transaction ---------------------------------------------------------

  lemma {:induction false} SaveRecipientKeeps(db: Db, r: RecipientId, row: Recipient)
    requires Inv(db)
    ensures Quiet(db, db.(recipients := db.recipients[r := row]))
    ensures Inv(db.(recipients := db.recipients[r := row]))
  {
    var after := db.(recipients := db.recipients[r := row]);
    forall i ensures ItemFits(after, i) { assert ItemFits(db, i); }
    forall a ensures RequestFits(after, a) { assert RequestFits(db, a); }
    QuietKeeps(db, after);
  }

  lemma {:induction false} InsertKeeps(db: Db, b: BatchId, row: Batch, items: map<ItemId, Item>)
    requires Inv(db) && b !in db.batches && Editable(row.status) && row.retryOf == None
    requires items.Keys !! db.items.Keys
    requires forall i :: i in items ==> items[i].batch == b && items[i].status == Pending
    requires forall i :: i in items ==> items[i].origin == None && items[i].recipient in db.recipients
    ensures var after := db.(batches := db.batches[b := row], items := db.items + items);
            Quiet(db, after) && Inv(after)
  {
    var after := db.(batches := db.batches[b := row], items := db.items + items);
    forall i ensures ItemFits(after, i) && ItemStep(db, after, i) { assert ItemFits(db, i); }
    forall a ensures RequestFits(after, a) { assert RequestFits(db, a); }
    QuietKeeps(db, after);
  }

  lemma {:induction false} CreateKeeps(db: Db, company: CompanyId, b: BatchId, reference: string, lines: seq<Line>,
                                       scheduled: bool, schedule: Option<ScheduleId>)
    requires Inv(db) && b !in db.batches && FreshLines(db, lines)
    ensures var r := Create(db, company, b, reference, lines, scheduled, schedule);
            r.Success? ==> Quiet(db, r.value) && Inv(r.value)
  {
    var built := BuildItems(db, company, b, lines);
    if built.Success? {
      InsertKeeps(db, b, EmptyBatch(company, reference, scheduled, None, schedule), built.value);
    }
  }

  lemma {:induction false} CreateOccurrenceKeeps(db: Db, company: CompanyId, b: BatchId, reference: string, lines: seq<Line>,
                                                 schedule: ScheduleId)
    requires Inv(db) && b !in db.batches && FreshLines(db, lines)
    requires forall k :: 0 <= k < |lines| ==> lines[k].recipient in db.recipients
    ensures var after := CreateOccurrence(db, company, b, reference, lines, schedule);
            Quiet(db, after) && Inv(after)
  {
    InsertKeeps(db, b, EmptyBatch(company, reference, true, None, Some(schedule)), ItemsOf(db, b, lines));
  }

  lemma {:induction false} UpdateKeeps(db: Db, company: CompanyId, b: BatchId, reference: string, lines: seq<Line>,
                                       expectedVersion: nat, scheduled: bool)
    requires Inv(db) && FreshLines(db, lines)
    ensures var r := Update(db, company, b, reference, lines, expectedVersion, scheduled);
            r.Success? ==> Quiet(db, r.value) && Inv(r.value)
  {
    var r := Update(db, company, b, reference, lines, expectedVersion, scheduled);
    if r.Success? {
      var after := r.value;
      forall i ensures ItemFits(after, i) && ItemStep(db, after, i) {
        UpdateKeepsItem(db, company, b, reference, lines, expectedVersion, scheduled, i);
      }
      forall a ensures RequestFits(after, a) { assert RequestFits(db, a); }
      QuietKeeps(db, after);
    }
  }

  lemma {:induction false} UpdateKeepsItem(db: Db, company: CompanyId, b: BatchId, reference: string, lines: seq<Line>,
                                           expectedVersion: nat, scheduled: bool, i: ItemId)
    requires ItemFits(db, i) && FreshLines(db, lines)
    ensures var r := Update(db, company, b, reference, lines, expectedVersion, scheduled);
            r.Success? ==> ItemFits(r.value, i) && ItemStep(db, r.value, i)
  {}

  /** A status change among unrequested batches, with the items and requests it takes along. */
  lemma {:induction false} CancelUnrequestedKeeps(db: Db, which: set<BatchId>)
    requires Inv(db)
    requires forall b :: b in which ==> b in db.batches && Unrequested(db.batches[b].status)
    ensures Quiet(db, CancelUnrequested(db, which)) && Inv(CancelUnrequested(db, which))
  {
    var after := CancelUnrequested(db, which);
    forall i ensures ItemFits(after, i) && ItemStep(db, after, i) { assert ItemFits(db, i); }
    forall a ensures RequestFits(after, a) { assert RequestFits(db, a); }
    QuietKeeps(db, after);
  }

  lemma {:induction false} MoveEditableKeeps(db: Db, b: BatchId, to: BatchStatus)
    requires Inv(db) && b in db.batches && Editable(db.batches[b].status) && Editable(to)
    ensures var after := db.(batches := Move(db.batches, {b}, to));
            Quiet(db, after) && Inv(after)
  {
    var after := db.(batches := Move(db.batches, {b}, to));
    forall i ensures ItemFits(after, i) && ItemStep(db, after, i) { assert ItemFits(db, i); }
    forall a ensures RequestFits(after, a) { assert RequestFits(db, a); }
    QuietKeeps(db, after);
  }

  lemma {:induction false} SchedulesOnly(db: Db, schedules: map<ScheduleId, Repetition>)
    requires Inv(db)
    ensures Quiet(db, db.(schedules := schedules)) && Inv(db.(schedules := schedules))
  {
    var after := db.(schedules := schedules);
    forall i ensures ItemFits(after, i) { assert ItemFits(db, i); }
    forall a ensures RequestFits(after, a) { assert RequestFits(db, a); }
    QuietKeeps(db, after);
  }

  lemma {:induction false} CloseKeeps(db: Db, a: ApprovalId, state: ApprovalState, status: BatchStatus)
    requires Inv(db)
    requires (state == ExpiredRequest && status == Expired) || (state in {Held, Invalidated} && status == Draft)
    ensures Quiet(db, Close(db, a, state, status)) && Inv(Close(db, a, state, status))
  {
    var after := Close(db, a, state, status);
    forall i ensures ItemFits(after, i) && ItemStep(db, after, i) { CloseItem(db, a, state, status, i); }
    forall b ensures BatchStep(db, after, b) { CloseBatch(db, a, state, status, b); }
    forall c ensures RequestFits(after, c) && ApprovalStep(db, after, c) { CloseOther(db, a, state, status, c); }
    QuietKeeps(db, after);
  }

  lemma {:induction false} CloseItem(db: Db, a: ApprovalId, state: ApprovalState, status: BatchStatus, i: ItemId)
    requires Inv(db) && status in {Expired, Draft}
    ensures var after := Close(db, a, state, status); ItemFits(after, i) && ItemStep(db, after, i)
  {
    assert ItemFits(db, i);
    var after := Close(db, a, state, status);
    if after.batches != db.batches { MovedItem(db, after, db.approvals[a].batch, status, i); }
  }

  /** A batch that awaited goes back, or ends with all its items. */
  lemma {:induction false} MovedItem(db: Db, after: Db, b: BatchId, status: BatchStatus, i: ItemId)
    requires ItemFits(db, i) && status in {Expired, Draft} && b in db.batches && db.batches[b].status == AwaitingApproval
    requires after.recipients == db.recipients && after.batches == Move(db.batches, {b}, status)
    requires after.items == if status == Expired then MovePending(db.items, {b}, Canceled) else db.items
    ensures ItemFits(after, i) && ItemStep(db, after, i)
  {}

  lemma {:induction false} CloseBatch(db: Db, a: ApprovalId, state: ApprovalState, status: BatchStatus, b: BatchId)
    requires status in {Expired, Draft}
    ensures BatchStep(db, Close(db, a, state, status), b)
  {}

  lemma {:induction false} CloseOther(db: Db, a: ApprovalId, state: ApprovalState, status: BatchStatus, c: ApprovalId)
    requires Inv(db) && state in {ExpiredRequest, Held, Invalidated}
    ensures var after := Close(db, a, state, status); RequestFits(after, c) && ApprovalStep(db, after, c)
  {
    assert RequestFits(db, c) && RequestFits(db, a) && RequestsDiffer(db, a, c);
  }

  lemma {:induction false} QuietFrom(db: Db, same: Db, after: Db)
    requires db.batches == same.batches && db.items == same.items && db.approvals == same.approvals
    requires Quiet(same, after)
    ensures Quiet(db, after)
  {
    forall b ensures BatchStep(db, after, b) { assert BatchStep(same, after, b); }
    forall a ensures ApprovalStep(db, after, a) { assert ApprovalStep(same, after, a); }
    forall i ensures ItemStep(db, after, i) { assert ItemStep(same, after, i); }
  }

  lemma {:induction false} EndScheduleKeeps(db: Db, company: CompanyId, schedule: ScheduleId, expectedVersion: nat)
    requires Inv(db)
    ensures var r := EndSchedule(db, company, schedule, expectedVersion);
            r.Success? ==> Quiet(db, r.value) && Inv(r.value)
  {
    var r := EndSchedule(db, company, schedule, expectedVersion);
    if r.Success? && db.schedules[schedule].active {
      var ended := db.(schedules := db.schedules[schedule := Ended(db.schedules[schedule])]);
      SchedulesOnly(db, ended.schedules);
      CancelUnrequestedKeeps(ended, Upcoming(db, company, schedule));
      QuietFrom(db, ended, r.value);
    } else if r.Success? {
      SchedulesOnly(db, db.schedules);
    }
  }

  lemma {:induction false} ConfigureKeeps(db: Db, company: CompanyId, enabled: bool, phone: Phone, expectedVersion: nat)
    requires Inv(db)
    ensures var r := Configure(db, company, enabled, phone, expectedVersion);
            r.Success? ==> Quiet(db, r.value) && Inv(r.value)
  {
    var r := Configure(db, company, enabled, phone, expectedVersion);
    if r.Success? {
      var saved := db.(settings := db.settings[company := Settings(expectedVersion + 1, enabled, phone)]);
      if !enabled {
        SwitchOffKeeps(db, saved, company);
      } else if company in db.settings && db.settings[company].approverPhone != phone {
        NewApproverKeeps(db, saved, company);
      } else {
        forall i ensures ItemFits(saved, i) { assert ItemFits(db, i); }
        forall a ensures RequestFits(saved, a) { assert RequestFits(db, a); }
        QuietKeeps(db, saved);
      }
    }
  }

  lemma {:induction false} SwitchOffKeeps(db: Db, saved: Db, company: CompanyId)
    requires Inv(db) && saved == db.(settings := saved.settings)
    requires forall c :: c != company && c in db.settings ==> c in saved.settings && saved.settings[c] == db.settings[c]
    ensures Quiet(db, CancelUnsent(saved, company)) && Inv(CancelUnsent(saved, company))
  {
    var after := CancelUnsent(saved, company);
    forall b ensures BatchStep(db, after, b) {}
    forall a ensures RequestFits(after, a) && ApprovalStep(db, after, a) { assert RequestFits(db, a); }
    SwitchOffItems(db, saved, company);
    QuietKeeps(db, after);
  }

  lemma {:induction false} SwitchOffItems(db: Db, saved: Db, company: CompanyId)
    requires Inv(db) && saved == db.(settings := saved.settings)
    ensures var after := CancelUnsent(saved, company);
      && (forall i {:trigger ItemFits(after, i)} :: ItemFits(after, i))
      && (forall i {:trigger ItemStep(db, after, i)} :: ItemStep(db, after, i))
  {
    var after := CancelUnsent(saved, company);
    forall i ensures ItemFits(after, i) && ItemStep(db, after, i) { assert ItemFits(db, i); }
  }

  lemma {:induction false} NewApproverKeeps(db: Db, saved: Db, company: CompanyId)
    requires Inv(db) && saved == db.(settings := saved.settings)
    requires forall c :: c != company && c in db.settings ==> c in saved.settings && saved.settings[c] == db.settings[c]
    ensures Quiet(db, ReturnRequestsToDraft(saved, company)) && Inv(ReturnRequestsToDraft(saved, company))
  {
    var after := ReturnRequestsToDraft(saved, company);
    forall b ensures BatchStep(db, after, b) {}
    forall a ensures RequestFits(after, a) && ApprovalStep(db, after, a) { assert RequestFits(db, a); }
    forall i ensures ItemFits(after, i) && ItemStep(db, after, i) { assert ItemFits(db, i); }
    QuietKeeps(db, after);
  }

  lemma {:induction false} ToDraftKeeps(db: Db, b: BatchId)
    requires Inv(db)
    ensures Quiet(db, ToDraft(db, b)) && Inv(ToDraft(db, b))
  {
    if b in db.batches && Editable(db.batches[b].status) {
      MoveEditableKeeps(db, b, Draft);
    }
  }

  /** One conditional write of the sender, the reconciler or the webhook. */
  lemma {:induction false} SetItemKeeps(db: Db, i: ItemId, from: set<ItemStatus>, to: ItemStatus)
    requires Inv(db)
    requires forall s :: s in from ==> !Final(s)
    requires i in db.items && db.items[i].status in from ==>
      db.items[i].batch in db.batches && db.batches[db.items[i].batch].status == Processing
    ensures Quiet(db, SetItem(db, i, from, to)) && Inv(SetItem(db, i, from, to))
  {
    var after := SetItem(db, i, from, to);
    forall k ensures ItemFits(after, k) && ItemStep(db, after, k) { assert ItemFits(db, k); }
    forall a ensures RequestFits(after, a) { assert RequestFits(db, a); }
    QuietKeeps(db, after);
  }

  lemma {:induction false} FailPendingKeeps(db: Db, b: BatchId)
    requires Inv(db) && b in db.batches && Paying(db.batches[b].status)
    ensures Quiet(db, FailPending(db, b)) && Inv(FailPending(db, b))
  {
    var after := FailPending(db, b);
    forall k ensures ItemFits(after, k) && ItemStep(db, after, k) { assert ItemFits(db, k); }
    forall a ensures RequestFits(after, a) { assert RequestFits(db, a); }
    QuietKeeps(db, after);
  }

  lemma {:induction false} MarkLostKeeps(db: Db, late: set<ItemId>)
    requires Inv(db)
    ensures Quiet(db, MarkLost(db, late)) && Inv(MarkLost(db, late))
  {
    var after := MarkLost(db, late);
    forall k ensures ItemFits(after, k) && ItemStep(db, after, k) { assert ItemFits(db, k); }
    forall a ensures RequestFits(after, a) { assert RequestFits(db, a); }
    QuietKeeps(db, after);
  }

  lemma {:induction false} CompleteAsKeeps(db: Db, b: BatchId, to: BatchStatus)
    requires Inv(db) && b in db.batches && db.batches[b].status == Processing && Finished(to)
    requires forall i {:trigger db.items[i]} :: i in db.items && db.items[i].batch == b ==> Follows(to, db.items[i].status)
    ensures var after := db.(batches := Move(db.batches, {b}, to)); Quiet(db, after) && Inv(after)
  {
    var after := db.(batches := Move(db.batches, {b}, to));
    forall k ensures ItemFits(after, k) && ItemStep(db, after, k) { assert ItemFits(db, k); }
    forall a ensures RequestFits(after, a) { assert RequestFits(db, a); }
    QuietKeeps(db, after);
  }

  lemma {:induction false} CompleteFinishedKeeps(db: Db, b: BatchId)
    requires Inv(db)
    ensures Quiet(db, CompleteFinished(db, b)) && Inv(CompleteFinished(db, b))
  {
    if b in db.batches && db.batches[b].status == Processing && AllKnown(db, b) {
      if exists i :: i in db.items && db.items[i].batch == b && db.items[i].status in {Failed, Canceled} {
        CompleteAsKeeps(db, b, CompletedWithFailures);
      } else {
        CompleteAsKeeps(db, b, Completed);
      }
    }
  }

  // ---- asking for an approval ------------------------------------------------------------

  lemma {:induction false} HashedKept(db: Db, after: Db, b: BatchId, c: BatchId)
    requires b != c && after.items == Resnapshot(db, b)
    ensures Hashed(db.items, c) == Hashed(after.items, c)
  {}

  lemma {:induction false} RequestKeeps(db: Db, company: CompanyId, b: BatchId, expected: Option<nat>, issuer: AccountId, a: ApprovalId)
    requires Inv(db) && a !in db.approvals
    ensures var r := Request(db, company, b, expected, issuer, a); r.Success? ==> Inv(r.value)
  {
    var r := Request(db, company, b, expected, issuer, a);
    if r.Success? {
      var after := r.value;
      forall i ensures ItemFits(after, i) && OriginSound(after, i) {
        assert ItemFits(db, i) && OriginSound(db, i) && RetrySound(db, b);
      }
      forall c ensures RequestFits(after, c) && ApprovalSound(after, c) {
        assert RequestFits(db, c) && ApprovalSound(db, c);
      }
      forall c ensures BatchSound(after, c) && RetrySound(after, c) {
        RequestKeepsBatch(db, company, b, expected, issuer, a, c);
      }
      RequestKeepsPairs(db, company, b, expected, issuer, a);
    }
  }

  lemma {:induction false} RequestKeepsBatch(db: Db, company: CompanyId, b: BatchId, expected: Option<nat>, issuer: AccountId,
                                             a: ApprovalId, c: BatchId)
    requires Inv(db) && a !in db.approvals && Request(db, company, b, expected, issuer, a).Success?
    ensures var after := Request(db, company, b, expected, issuer, a).value; BatchSound(after, c) && RetrySound(after, c)
  {
    var after := Request(db, company, b, expected, issuer, a).value;
    assert BatchSound(db, c) && RetrySound(db, c);
    if c != b {
      HashedKept(db, after, b, c);
      if c in db.batches && Paying(db.batches[c].status) {
        var x :| x in db.approvals && db.approvals[x].batch == c && db.approvals[x].state == Approved;
        assert x in after.approvals && after.approvals[x] == db.approvals[x];
      }
    }
  }

  lemma {:induction false} RequestKeepsPairs(db: Db, company: CompanyId, b: BatchId, expected: Option<nat>, issuer: AccountId, a: ApprovalId)
    requires Inv(db) && a !in db.approvals && Request(db, company, b, expected, issuer, a).Success?
    ensures var after := Request(db, company, b, expected, issuer, a).value;
      && (forall x, y {:trigger RequestsDiffer(after, x, y)} :: RequestsDiffer(after, x, y))
      && (forall x, y {:trigger OneLiveRetry(after, x, y)} :: OneLiveRetry(after, x, y))
      && (forall x, y {:trigger OneCopy(after, x, y)} :: OneCopy(after, x, y))
  {
    var after := Request(db, company, b, expected, issuer, a).value;
    forall x, y ensures RequestsDiffer(after, x, y) {
      assert RequestsDiffer(db, x, y) && ApprovalSound(db, x) && ApprovalSound(db, y);
    }
    forall x, y ensures OneLiveRetry(after, x, y) { assert OneLiveRetry(db, x, y); }
    forall x, y ensures OneCopy(after, x, y) { assert OneCopy(db, x, y); }
  }

  // ---- the decision ----------------------------------------------------------------------

  /**
   In a reachable database a tap never finds a divergent request: whatever was edited,
   rescheduled, switched off or given to another approver had already closed it.
   */
  lemma {:induction false} AwaitingIsAsRequested(db: Db, a: ApprovalId)
    requires Inv(db) && a in db.approvals && db.approvals[a].state == Awaiting
    ensures db.approvals[a].batch in db.batches && StillAsRequested(db, a)
  {
    assert RequestFits(db, a) && BatchSound(db, db.approvals[a].batch);
  }

  lemma {:induction false} DecideKeeps(db: Db, a: ApprovalId, approve: bool)
    requires Inv(db)
    ensures Inv(Decide(db, a, approve))
  {
    if a in db.approvals && db.approvals[a].state == Awaiting {
      AwaitingIsAsRequested(db, a);
      var after := Decide(db, a, approve);
      forall i ensures ItemFits(after, i) { assert ItemFits(db, i); }
      forall c ensures RequestFits(after, c) {
        assert RequestFits(db, c) && RequestFits(db, a) && RequestsDiffer(db, a, c);
      }
      if approve { ApproveKeeps(db, a); } else { RejectKeeps(db, a); }
    }
  }

  lemma {:induction false} RejectKeeps(db: Db, a: ApprovalId)
    requires Inv(db) && a in db.approvals && db.approvals[a].state == Awaiting
    requires ItemsFit(Decide(db, a, false)) && RequestsFit(Decide(db, a, false))
    ensures Inv(Decide(db, a, false))
  {
    AwaitingIsAsRequested(db, a);
    var after := Decide(db, a, false);
    forall i ensures ItemStep(db, after, i) { assert ItemFits(db, i); }
    QuietKeeps(db, after);
  }

  lemma {:induction false} ApproveKeeps(db: Db, a: ApprovalId)
    requires Inv(db) && a in db.approvals && db.approvals[a].state == Awaiting
    requires ItemsFit(Decide(db, a, true)) && RequestsFit(Decide(db, a, true))
    ensures Inv(Decide(db, a, true))
  {
    AwaitingIsAsRequested(db, a);
    var after := Decide(db, a, true);
    var b := db.approvals[a].batch;
    forall i ensures OriginSound(after, i) {
      assert OriginSound(db, i);
    }
    forall c ensures ApprovalSound(after, c) {
      assert ApprovalSound(db, c) && RequestFits(db, c);
    }
    forall c ensures BatchSound(after, c) && RetrySound(after, c) {
      assert BatchSound(db, c) && RetrySound(db, c);
      assert a in after.approvals && after.approvals[a].state == Approved;
      if c != b && c in db.batches && Paying(db.batches[c].status) {
        var x :| x in db.approvals && db.approvals[x].batch == c && db.approvals[x].state == Approved;
        assert x in after.approvals && after.approvals[x] == db.approvals[x];
      }
    }
    forall x, y ensures RequestsDiffer(after, x, y) { assert RequestsDiffer(db, x, y); }
    forall x, y ensures OneLiveRetry(after, x, y) { assert OneLiveRetry(db, x, y); }
    forall x, y ensures OneCopy(after, x, y) { assert OneCopy(db, x, y); }
  }

  // ---- retries ---------------------------------------------------------------------------

  lemma {:induction false} RetryFailedKeeps(db: Db, company: CompanyId, b: BatchId, retry: BatchId, reference: string,
                                            copies: map<ItemId, ItemId>)
    requires Inv(db) && retry !in db.batches && CopiesFailures(db, b, copies)
    ensures forall n :: n in copies ==> copies[n] in db.items
    ensures var r := RetryFailed(db, company, b, retry, reference, copies); r.Success? ==> Inv(r.value)
  {
    forall n | n in copies ensures copies[n] in FailedActive(db, b) {
      assert copies[n] in copies.Values;
    }
    var r := RetryFailed(db, company, b, retry, reference, copies);
    if r.Success? && r.value != db {
      var after := r.value;
      assert LiveRetries(db, company, b) == {};
      forall i ensures ItemFits(after, i) && OriginSound(after, i) { RetryKeepsItem(db, after, b, retry, copies, i); }
      forall a ensures RequestFits(after, a) && ApprovalSound(after, a) {
        assert RequestFits(db, a) && ApprovalSound(db, a);
      }
      forall c ensures BatchSound(after, c) { RetryKeepsBatch(db, after, retry, c); }
      forall c ensures RetrySound(after, c) { assert RetrySound(db, c); }
      RetryFailedKeepsPairs(db, company, b, retry, reference, copies);
    }
  }

  lemma {:induction false} RetryKeepsItem(db: Db, after: Db, b: BatchId, retry: BatchId, copies: map<ItemId, ItemId>, i: ItemId)
    requires Inv(db) && retry !in db.batches
    requires forall n :: n in copies ==> n !in db.items && copies[n] in db.items && copies[n] in FailedActive(db, b)
    requires after.recipients == db.recipients && after.items == db.items + map n | n in copies :: RetryItem(db, retry, copies[n])
    requires retry in after.batches && after.batches == db.batches[retry := after.batches[retry]]
    requires after.batches[retry].status == Draft && after.batches[retry].retryOf == Some(b)
    ensures ItemFits(after, i) && OriginSound(after, i)
  {
    assert ItemFits(db, i) && OriginSound(db, i);
    if i in copies { assert ItemFits(db, copies[i]); }
  }

  lemma {:induction false} RetryKeepsBatch(db: Db, after: Db, retry: BatchId, c: BatchId)
    requires Inv(db) && retry !in db.batches && after.approvals == db.approvals
    requires retry in after.batches && after.batches == db.batches[retry := after.batches[retry]]
    requires after.batches[retry].status == Draft
    requires forall i :: i in db.items ==> i in after.items && after.items[i] == db.items[i]
    requires forall i :: i in after.items && i !in db.items ==> after.items[i].batch == retry
    ensures BatchSound(after, c)
  {
    assert BatchSound(db, c);
    if c in db.batches {
      RetryHashed(db, after, retry, c);
      if Paying(db.batches[c].status) { assert HasApproval(db, c); }
    }
  }

  lemma {:induction false} RetryHashed(db: Db, after: Db, retry: BatchId, c: BatchId)
    requires c != retry && (forall i :: i in db.items ==> i in after.items && after.items[i] == db.items[i])
    requires forall i :: i in after.items && i !in db.items ==> after.items[i].batch == retry
    ensures Hashed(db.items, c) == Hashed(after.items, c)
  {}

  lemma {:induction false} RetryFailedKeepsPairs(db: Db, company: CompanyId, b: BatchId, retry: BatchId, reference: string,
                                                 copies: map<ItemId, ItemId>)
    requires Inv(db) && retry !in db.batches && CopiesFailures(db, b, copies)
    requires forall n :: n in copies ==> copies[n] in db.items
    requires var r := RetryFailed(db, company, b, retry, reference, copies);
      r.Success? && r.value != db && LiveRetries(db, company, b) == {}
    ensures var after := RetryFailed(db, company, b, retry, reference, copies).value;
      && (forall x, y {:trigger RequestsDiffer(after, x, y)} :: RequestsDiffer(after, x, y))
      && (forall x, y {:trigger OneLiveRetry(after, x, y)} :: OneLiveRetry(after, x, y))
      && (forall x, y {:trigger OneCopy(after, x, y)} :: OneCopy(after, x, y))
  {
    var after := RetryFailed(db, company, b, retry, reference, copies).value;
    forall x, y ensures RequestsDiffer(after, x, y) { assert RequestsDiffer(db, x, y); }
    forall x, y ensures OneLiveRetry(after, x, y) {
      assert OneLiveRetry(db, x, y) && RetrySound(db, x) && RetrySound(db, y);
      assert x !in LiveRetries(db, company, b) && y !in LiveRetries(db, company, b);
    }
    forall x, y ensures OneCopy(after, x, y) {
      assert OneCopy(db, x, y) && ItemFits(db, x) && ItemFits(db, y);
    }
  }
}
