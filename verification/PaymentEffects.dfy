/** What the main payment transactions achieve, beyond the invariant they keep. */
module PaymentEffects {
  import opened Common
  import opened PaymentContent
  import opened PaymentModel
  import opened PaymentInvariant

  /** Asking freezes the batch as it stands: collaborators as registered now, amounts as typed, all of it hashed. */
  lemma {:induction false} RequestFreezes(db: Db, company: CompanyId, b: BatchId, expected: Option<nat>, issuer: AccountId, a: ApprovalId)
    requires Inv(db) && Request(db, company, b, expected, issuer, a).Success?
    ensures var after := Request(db, company, b, expected, issuer, a).value;
      && a in after.approvals && after.approvals[a].state == Awaiting && after.approvals[a].batch == b
      && after.approvals[a].approver == db.settings[company].approverPhone
      && after.approvals[a].totalCents == Total(Hashed(after.items, b))
      && StillAsRequested(after, a)
      && (forall i :: i in db.items && db.items[i].batch == b ==>
           && i in after.items && after.items[i].amountCents == db.items[i].amountCents && Active(db, after.items[i].recipient)
           && after.items[i].destination == db.recipients[db.items[i].recipient].destination
           && after.items[i].recipientName == db.recipients[db.items[i].recipient].name)
      && (forall i :: i in db.items && db.items[i].batch != b ==> i in after.items && after.items[i] == db.items[i])
  {
    var after := Request(db, company, b, expected, issuer, a).value;
    forall i | i in db.items ensures db.items[i].recipient in db.recipients { assert ItemFits(db, i); }
    assert Hashed(after.items, b) == Hashed(Resnapshot(db, b), b);
  }

  /** While awaiting, the approver's tap always decides: approved items may be paid, rejected ones end. */
  lemma {:induction false} TapDecides(db: Db, a: ApprovalId, approve: bool)
    requires Inv(db) && a in db.approvals && db.approvals[a].state == Awaiting
    ensures var after := Decide(db, a, approve); var b := db.approvals[a].batch;
      && b in after.batches && a in after.approvals
      && after.approvals[a].state == (if approve then Approved else Rejected)
      && after.batches[b].status == (if approve then Processing else RejectedBatch)
      && (forall i :: i in after.items && after.items[i].batch == b ==> after.items[i].status == (if approve then Pending else Canceled))
      && Hashed(after.items, b) == Hashed(db.items, b)
  {
    assert RequestFits(db, a);
    AwaitingIsAsRequested(db, a);
    forall i | i in db.items && db.items[i].batch == db.approvals[a].batch ensures db.items[i].status == Pending { assert ItemFits(db, i); }
  }

  /** Requested or approved, and not sent. */
  predicate Unsent(db: Db, company: CompanyId, i: ItemId)
    requires i in db.items
  {
    var b := db.items[i].batch;
    b in db.batches && db.batches[b].company == company && !Editable(db.batches[b].status) && db.items[i].status == Pending
  }

  /** Switching off leaves nothing scheduled, awaiting or unsent, and touches nothing already sent. */
  lemma {:induction false} SwitchOffStops(db: Db, company: CompanyId, phone: Phone, version: nat)
    requires Inv(db) && Configure(db, company, false, phone, version).Success?
    ensures var after := Configure(db, company, false, phone, version).value;
      && !after.settings[company].enabled
      && (forall b :: b in after.batches && after.batches[b].company == company ==>
           after.batches[b].status != Scheduled && after.batches[b].status != AwaitingApproval)
      && (forall a :: a in after.approvals && after.approvals[a].company == company ==> after.approvals[a].state != Awaiting)
      && (forall s :: s in after.schedules && after.schedules[s].company == company ==> !after.schedules[s].active)
      && (forall i :: i in after.items ==> !Unsent(after, company, i))
      && (forall i :: i in db.items && db.items[i].status != Pending ==> i in after.items && after.items[i] == db.items[i])
  {
    var after := Configure(db, company, false, phone, version).value;
    forall a | a in after.approvals && after.approvals[a].company == company ensures after.approvals[a].state != Awaiting {
      assert RequestFits(db, a);
    }
    forall i | i in after.items ensures !Unsent(after, company, i) { assert ItemFits(db, i); }
  }

  /** A retry has exactly one item for each failure of an active collaborator, for the same amount. */
  lemma {:induction false} RetryCopies(db: Db, company: CompanyId, b: BatchId, retry: BatchId, reference: string, copies: map<ItemId, ItemId>, i: ItemId)
    requires Inv(db) && CopiesFailures(db, b, copies) && retry !in db.batches
    requires forall n :: n in copies ==> copies[n] in db.items
    requires RetryFailed(db, company, b, retry, reference, copies).Success?
    requires retry in RetryFailed(db, company, b, retry, reference, copies).value.batches
    ensures var after := RetryFailed(db, company, b, retry, reference, copies).value;
      && after.batches[retry].retryOf == Some(b) && after.batches[retry].status == Draft
      && (i in FailedActive(db, b) <==> exists n :: n in after.items && after.items[n].batch == retry && after.items[n].origin == Some(i))
      && (forall n :: n in after.items && after.items[n].batch == retry && after.items[n].origin == Some(i) ==>
           && after.items[n].amountCents == db.items[i].amountCents && after.items[n].recipient == db.items[i].recipient
           && after.items[n].status == Pending
           && after.items[n].destination == db.recipients[db.items[i].recipient].destination)
      && (forall n :: n in db.items ==> n in after.items && after.items[n] == db.items[n])
  {
    var after := RetryFailed(db, company, b, retry, reference, copies).value;
    forall n | n in db.items ensures db.items[n].batch != retry && db.items[n].recipient in db.recipients { assert ItemFits(db, n); }
    forall n | n in after.items && after.items[n].batch == retry && after.items[n].origin == Some(i)
      ensures n in copies && copies[n] == i && after.items[n] == RetryItem(db, retry, i) {}
    if i in FailedActive(db, b) {
      var n := CopyOf(db, b, copies, i);
      assert after.items[n] == RetryItem(db, retry, i);
    }
  }

  lemma {:induction false} CopyOf(db: Db, b: BatchId, copies: map<ItemId, ItemId>, i: ItemId) returns (n: ItemId)
    requires CopiesFailures(db, b, copies) && i in FailedActive(db, b)
    ensures n in copies && copies[n] == i
  {
    assert i in copies.Values;
    n :| n in copies && copies[n] == i;
  }

  // ---- ending a repetition --------------------------------------------------------------------

  /** A dead batch has nothing left to cancel but its own row. */
  lemma {:induction false} OnlyItsRow(db: Db, b: BatchId)
    requires Inv(db) && b in db.batches && Dead(db.batches[b].status)
    ensures CancelUnrequested(db, {b}) == db.(batches := Move(db.batches, {b}, CanceledBatch))
  {
    var after := CancelUnrequested(db, {b});
    forall i | i in db.items ensures after.items[i] == db.items[i] { assert ItemFits(db, i); }
    forall a | a in db.approvals ensures after.approvals[a] == db.approvals[a] { assert RequestFits(db, a); }
    assert after.items == db.items && after.approvals == db.approvals;
  }

  lemma {:induction false} CancelDeadKeeps(db: Db, b: BatchId)
    requires Inv(db) && b in db.batches && Dead(db.batches[b].status)
    ensures Inv(CancelUnrequested(db, {b}))
  {
    OnlyItsRow(db, b);
    var after := db.(batches := Move(db.batches, {b}, CanceledBatch));
    forall i ensures ItemFits(after, i) { assert ItemFits(db, i); }
    forall i ensures OriginSound(after, i) { assert OriginSound(db, i); }
    forall a ensures RequestFits(after, a) { assert RequestFits(db, a); }
    forall a ensures ApprovalSound(after, a) { assert ApprovalSound(db, a); }
    forall r ensures BatchSound(after, r) { assert BatchSound(db, r); assert HasApproval(after, r) == HasApproval(db, r); }
    forall r ensures RetrySound(after, r) { assert RetrySound(db, r); }
    forall a, c ensures RequestsDiffer(after, a, c) { assert RequestsDiffer(db, a, c); }
    forall r, q ensures OneLiveRetry(after, r, q) { assert OneLiveRetry(db, r, q); }
    forall i, k ensures OneCopy(after, i, k) { assert OneCopy(db, i, k); }
  }

  /**
   Ending a repetition cancels each batch it read as scheduled without reading its status again
   under the lock. By then that is sound exactly when the batch was not approved in between.
   */
  lemma {:induction false} LateCancelSound(db: Db, b: BatchId)
    requires Inv(db) && b in db.batches
    ensures Inv(CancelUnrequested(db, {b})) <==> !Paying(db.batches[b].status)
    ensures Paying(db.batches[b].status) ==> HasApproval(CancelUnrequested(db, {b}), b) && Dead(CancelUnrequested(db, {b}).batches[b].status)
  {
    var after := CancelUnrequested(db, {b});
    if Unrequested(db.batches[b].status) {
      CancelUnrequestedKeeps(db, {b});
    } else if Dead(db.batches[b].status) {
      CancelDeadKeeps(db, b);
    } else {
      assert BatchSound(db, b);
      var a :| a in db.approvals && db.approvals[a].batch == b && db.approvals[a].state == Approved;
      assert after.approvals[a] == db.approvals[a] && !ApprovalSound(after, a);
    }
  }
}
