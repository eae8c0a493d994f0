/**
 The services as they run: rows updated in place, one transaction a method. Each method
 leaves exactly the database its transaction function describes, or refuses and leaves it as
 it was; what those databases satisfy is proved in PaymentInvariant and PaymentTheorems.
 */
module PaymentService {
  import opened Common
  import opened PaymentContent
  import opened PaymentModel
  import opened PaymentInvariant
  import opened PaymentWorld
  import opened PaymentSending

  const ITEMS_PER_TICK := 25

  /** Answers of the sent-Pix notice to the webhook that received it. */
  datatype NoticeResult = Applied | Ignored | UnknownSendId | SendKeyMismatch | SendStatusConflict

  datatype NoticeStatus = NoticeRealized | NoticeNotRealized | NoticeOther

  method ContentHash(reference: string, issuer: AccountId, lines: map<ItemId, HashedItem>) returns (c: Content)
    ensures c == ContentOf(reference, issuer, lines)
  {
    var todo := lines.Keys;
    var total: nat := 0;
    var list: multiset<HashedItem> := multiset{};
    ghost var done: map<ItemId, HashedItem> := map[];
    while todo != {}
      invariant todo <= lines.Keys && done == lines - todo
      invariant total == Total(done) && list == Lines(done)
      decreases |todo|
    {
      var i :| i in todo;
      ghost var more := done[i := lines[i]];
      assert more - {i} == done && more == lines - (todo - {i});
      TakeOneTotal(more, i);
      TakeOneLine(more, i);
      total, list := total + lines[i].amountCents, multiset{lines[i]} + list;
      todo, done := todo - {i}, more;
    }
    assert done == lines;
    c := Content(reference, issuer, total, list);
  }

  class PaymentStore {
    var recipients: map<RecipientId, Recipient>
    var batches: map<BatchId, Batch>
    var items: map<ItemId, Item>
    var approvals: map<ApprovalId, Approval>
    var settings: map<CompanyId, Settings>
    var schedules: map<ScheduleId, Repetition>

    constructor ()
      ensures Rows() == Db(map[], map[], map[], map[], map[], map[])
    {
      recipients, batches, items, approvals, settings, schedules := map[], map[], map[], map[], map[], map[];
    }

    function Rows(): Db
      reads this
    {
      Db(recipients, batches, items, approvals, settings, schedules)
    }

    // ---- batches -------------------------------------------------------------------------

    method BuildItemsOf(company: CompanyId, b: BatchId, lines: seq<Line>) returns (r: Result<map<ItemId, Item>, Refusal>)
      ensures r == BuildItems(Rows(), company, b, lines)
    {
      if RepeatsRecipient(lines) { return Failure(RecipientRepeated); }
      var total := 0;
      for n := 0 to |lines|
        invariant total == SumOf(lines[..n])
      {
        assert lines[..n + 1][..n] == lines[..n];
        total := total + lines[n].amountCents;
      }
      assert lines[..|lines|] == lines;
      if total > MAX_TOTAL_CENTS { return Failure(TotalTooHigh); }
      var built: map<ItemId, Item> := map[];
      for n := 0 to |lines|
        invariant FirstProblem(Rows(), company, lines[..n]) == None
        invariant built == ItemsOf(Rows(), b, lines[..n])
      {
        var line := lines[n];
        assert lines[..n + 1][..n] == lines[..n];
        if line.recipient !in recipients || recipients[line.recipient].company != company {
          ProblemStays(Rows(), company, lines, n);
          return Failure(NotFound);
        }
        if !recipients[line.recipient].active {
          ProblemStays(Rows(), company, lines, n);
          return Failure(RecipientInactive);
        }
        built := built[line.id := NewItem(Rows(), b, line)];
      }
      return Success(built);
    }

    method CreateBatch(company: CompanyId, b: BatchId, reference: string, lines: seq<Line>,
                       scheduled: bool, schedule: Option<ScheduleId>) returns (refused: Option<Refusal>)
      requires b !in batches && FreshLines(Rows(), lines)
      modifies this
      ensures Outcome(Create(old(Rows()), company, b, reference, lines, scheduled, schedule), old(Rows()), refused)
      ensures Inv(old(Rows())) ==> Inv(Rows())
    {
      if Inv(Rows()) { CreateKeeps(Rows(), company, b, reference, lines, scheduled, schedule); }
      var built := BuildItemsOf(company, b, lines);
      if built.Failure? { return Some(built.error); }
      batches := batches[b := EmptyBatch(company, reference, scheduled, None, schedule)];
      items := items + built.value;
      return None;
    }

    /** How a transaction function and the rows after its method go together. */
    ghost predicate Outcome(r: Result<Db, Refusal>, before: Db, refused: Option<Refusal>)
      reads this
    {
      match r
      case Success(after) => refused == None && Rows() == after
      case Failure(error) => refused == Some(error) && Rows() == before
    }

    method UpdateBatch(company: CompanyId, b: BatchId, reference: string, lines: seq<Line>,
                       expectedVersion: nat, scheduled: bool) returns (refused: Option<Refusal>)
      requires FreshLines(Rows(), lines)
      modifies this
      ensures Outcome(Update(old(Rows()), company, b, reference, lines, expectedVersion, scheduled), old(Rows()), refused)
      ensures Inv(old(Rows())) ==> Inv(Rows())
    {
      if Inv(Rows()) { UpdateKeeps(Rows(), company, b, reference, lines, expectedVersion, scheduled); }
      if b !in batches || batches[b].company != company { return Some(NotFound); }
      if !Editable(batches[b].status) { return Some(NotEditable); }
      if batches[b].version != expectedVersion { return Some(VersionChanged); }
      var built := BuildItemsOf(company, b, lines);
      if built.Failure? { return Some(built.error); }
      ReplaceLines(b, reference, built.value, scheduled);
      return None;
    }

    method ReplaceLines(b: BatchId, reference: string, built: map<ItemId, Item>, scheduled: bool)
      requires b in batches
      modifies this
      ensures Rows() == old(Rows()).(
        items := Without(old(items), b) + built,
        batches := old(batches)[b := old(batches)[b].(
          reference := reference, version := old(batches)[b].version + 1, status := if scheduled then Scheduled else old(batches)[b].status)])
    {
      items := Without(items, b);
      items := items + built;
      batches := batches[b := batches[b].(reference := reference, version := batches[b].version + 1)];
      if scheduled {
        batches := batches[b := batches[b].(status := Scheduled)];
      }
    }

    method ScheduleBatch(company: CompanyId, b: BatchId, expectedVersion: nat) returns (refused: Option<Refusal>)
      modifies this
      ensures Outcome(Schedule(old(Rows()), company, b, expectedVersion), old(Rows()), refused)
      ensures Inv(old(Rows())) ==> Inv(Rows())
    {
      if Inv(Rows()) && Schedule(Rows(), company, b, expectedVersion).Success? { MoveEditableKeeps(Rows(), b, Scheduled); }
      if b !in batches || batches[b].company != company { return Some(NotFound); }
      if !Editable(batches[b].status) { return Some(NotEditable); }
      if batches[b].version != expectedVersion { return Some(VersionChanged); }
      batches := Move(batches, {b}, Scheduled);
      return None;
    }

    method CancelOne(b: BatchId)
      requires b in batches
      modifies this
      ensures Rows() == CancelUnrequested(old(Rows()), {b})
    {
      items := MovePending(items, {b}, Canceled);
      approvals := CloseRequests(approvals, {b}, Invalidated);
      batches := Move(batches, {b}, CanceledBatch);
    }

    method CancelBatch(company: CompanyId, b: BatchId) returns (refused: Option<Refusal>)
      modifies this
      ensures Outcome(Cancel(old(Rows()), company, b), old(Rows()), refused)
      ensures Inv(old(Rows())) ==> Inv(Rows())
    {
      if Inv(Rows()) && Cancel(Rows(), company, b).Success? { CancelUnrequestedKeeps(Rows(), {b}); }
      if b !in batches || batches[b].company != company { return Some(NotFound); }
      if !Unrequested(batches[b].status) { return Some(NotCancelable); }
      CancelOne(b);
      return None;
    }

    method EndRepetition(company: CompanyId, s: ScheduleId, expectedVersion: nat) returns (refused: Option<Refusal>)
      modifies this
      ensures Outcome(EndSchedule(old(Rows()), company, s, expectedVersion), old(Rows()), refused)
      ensures Inv(old(Rows())) ==> Inv(Rows())
    {
      if Inv(Rows()) { EndScheduleKeeps(Rows(), company, s, expectedVersion); }
      if s !in schedules || schedules[s].company != company { return Some(NotFound); }
      if schedules[s].version != expectedVersion { return Some(VersionChanged); }
      if !schedules[s].active { return None; }
      schedules := schedules[s := Ended(schedules[s])];
      CancelAll(Upcoming(Rows(), company, s));
      return None;
    }

    method CancelNext(ghost before: Db, ghost done: set<BatchId>, b: BatchId)
      requires b in batches && b !in done && Rows() == CancelUnrequested(before, done)
      modifies this
      ensures Rows() == CancelUnrequested(before, done + {b}) && batches.Keys == old(batches.Keys)
    {
      CancelOne(b);
      CancelOneMore(before, done, b);
    }

    method CancelAll(upcoming: set<BatchId>)
      requires upcoming <= batches.Keys
      modifies this
      ensures Rows() == CancelUnrequested(old(Rows()), upcoming)
    {
      ghost var before := Rows();
      ghost var done: set<BatchId> := {};
      var todo := upcoming;
      CancelNone(before);
      while todo != {}
        invariant done !! todo && done + todo == upcoming && upcoming <= batches.Keys
        invariant Rows() == CancelUnrequested(before, done)
        decreases |todo|
      {
        var b :| b in todo;
        CancelNext(before, done, b);
        todo, done := todo - {b}, done + {b};
      }
    }

    method CopyFailures(retry: BatchId, copies: map<ItemId, ItemId>) returns (created: map<ItemId, Item>)
      requires forall n :: n in copies ==> copies[n] in items
      ensures created == map n | n in copies :: RetryItem(Rows(), retry, copies[n])
    {
      created := map[];
      var todo := copies.Keys;
      while todo != {}
        invariant todo <= copies.Keys
        invariant created == map n | n in copies && n !in todo :: RetryItem(Rows(), retry, copies[n])
        decreases |todo|
      {
        var n :| n in todo;
        created := created[n := RetryItem(Rows(), retry, copies[n])];
        todo := todo - {n};
      }
    }

    /** The retry already made of a batch, if any may still pay: the open one first. */
    method PreviousRetry(company: CompanyId, b: BatchId) returns (id: Option<BatchId>)
      ensures id.None? <==> LiveRetries(Rows(), company, b) == {}
      ensures id.Some? ==> id.value in LiveRetries(Rows(), company, b)
      ensures id.Some? && !Open(batches[id.value].status) ==>
        forall r :: r in LiveRetries(Rows(), company, b) ==> !Open(batches[r].status)
    {
      var previous := LiveRetries(Rows(), company, b);
      if previous == {} { return None; }
      var open := set r | r in previous && Open(batches[r].status);
      if open != {} {
        var r :| r in open;
        return Some(r);
      }
      forall r | r in previous ensures !Open(batches[r].status) { assert r !in open; }
      var r :| r in previous;
      return Some(r);
    }

    method InsertRetry(company: CompanyId, b: BatchId, retry: BatchId, reference: string, copies: map<ItemId, ItemId>)
      requires forall n :: n in copies ==> copies[n] in items
      modifies this
      ensures Rows() == old(Rows()).(
        batches := old(Rows()).batches[retry := EmptyBatch(company, reference, false, Some(b), None)],
        items := old(Rows()).items + (map n | n in copies :: RetryItem(old(Rows()), retry, copies[n])))
    {
      var created := CopyFailures(retry, copies);
      batches := batches[retry := EmptyBatch(company, reference, false, Some(b), None)];
      items := items + created;
    }

    /** One retry at a time: an open one is handed back, a finished one rules out the next. */
    method RetryFailedItems(company: CompanyId, b: BatchId, retry: BatchId, reference: string,
                            copies: map<ItemId, ItemId>) returns (refused: Option<Refusal>, id: BatchId)
      requires forall n :: n in copies ==> copies[n] in items
      modifies this
      ensures Outcome(RetryFailed(old(Rows()), company, b, retry, reference, copies), old(Rows()), refused)
      ensures refused == None && id != retry ==> id in LiveRetries(old(Rows()), company, b) && Open(old(batches)[id].status)
      ensures Inv(old(Rows())) && retry !in old(batches) && CopiesFailures(old(Rows()), b, copies) ==> Inv(Rows())
    {
      if Inv(Rows()) && retry !in batches && CopiesFailures(Rows(), b, copies) { RetryFailedKeeps(Rows(), company, b, retry, reference, copies); }
      if b !in batches || batches[b].company != company { return Some(NotFound), b; }
      if batches[b].status != CompletedWithFailures { return Some(NoFailures), b; }
      refused, id := RetryOnce(company, b, retry, reference, copies);
    }

    /** The open retry again, or the first one. */
    method RetryOnce(company: CompanyId, b: BatchId, retry: BatchId, reference: string,
                     copies: map<ItemId, ItemId>) returns (refused: Option<Refusal>, id: BatchId)
      requires forall n :: n in copies ==> copies[n] in items
      requires b in batches && batches[b].company == company && batches[b].status == CompletedWithFailures
      modifies this
      ensures Outcome(RetryFailed(old(Rows()), company, b, retry, reference, copies), old(Rows()), refused)
      ensures refused == None && id != retry ==> id in LiveRetries(old(Rows()), company, b) && Open(old(batches)[id].status)
    {
      var previous := PreviousRetry(company, b);
      if previous.Some? {
        if Open(batches[previous.value].status) { return None, previous.value; }
        return Some(AlreadyRetried), b;
      }
      if FailedActive(Rows(), b) == {} { return Some(NoFailures), b; }
      InsertRetry(company, b, retry, reference, copies);
      return None, retry;
    }

    // ---- approval ------------------------------------------------------------------------

    method FindInactive(b: BatchId) returns (found: bool)
      ensures found <==> HasInactive(Rows(), b)
    {
      var inactive := set i | i in items && items[i].batch == b && !Active(Rows(), items[i].recipient);
      if inactive != {} {
        var i :| i in inactive;
        assert i in items && items[i].batch == b && !Active(Rows(), items[i].recipient);
        return true;
      }
      forall i | i in items && items[i].batch == b ensures Active(Rows(), items[i].recipient) {
        assert i !in inactive;
      }
      return false;
    }

    method ResnapshotItems(b: BatchId)
      modifies this`items
      ensures items == Resnapshot(old(Rows()), b)
    {
      var read := Rows();
      var todo := OfBatch(items, b);
      ghost var done: set<ItemId> := {};
      SnapshotNone(read);
      while todo != {}
        invariant done !! todo && done + todo == OfBatch(read.items, b)
        invariant items == SnapshotSome(read, done)
        decreases |todo|
      {
        var i :| i in todo;
        SnapshotOneMore(read, done, i);
        items := items[i := Snapshot(read, items[i])];
        todo, done := todo - {i}, done + {i};
      }
      SnapshotAll(read, b);
    }

    method RequestApproval(company: CompanyId, b: BatchId, expected: Option<nat>, issuer: AccountId, a: ApprovalId)
      returns (refused: Option<Refusal>)
      requires a !in approvals
      modifies this
      ensures Outcome(Request(old(Rows()), company, b, expected, issuer, a), old(Rows()), refused)
      ensures Inv(old(Rows())) ==> Inv(Rows())
    {
      if Inv(Rows()) { RequestKeeps(Rows(), company, b, expected, issuer, a); }
      if b !in batches || batches[b].company != company { return Some(NotFound); }
      if batches[b].status != (if expected.None? then Scheduled else Draft) { return Some(NotDraft); }
      if expected.Some? && batches[b].version != expected.value { return Some(VersionChanged); }
      if company !in settings || !settings[company].enabled { return Some(FeatureOff); }
      var inactive := FindInactive(b);
      if inactive { return Some(RecipientInactive); }
      WriteRequest(company, b, issuer, a);
      return None;
    }

    /** Snapshots, hash, request and batch in turn. */
    method WriteRequest(company: CompanyId, b: BatchId, issuer: AccountId, a: ApprovalId)
      requires b in batches && company in settings
      modifies this
      ensures Rows() == Requested(old(Rows()), company, b, issuer, a)
    {
      ResnapshotItems(b);
      var content := ContentHash(batches[b].reference, issuer, Hashed(items, b));
      var number := batches[b].approvalRequests + 1;
      approvals := approvals[a := Approval(company, b, number, content, content.totalCents,
                                           settings[company].approverPhone, Awaiting)];
      batches := batches[b := batches[b].(status := AwaitingApproval, contentHash := Some(content),
                                          issuer := Some(issuer), approvalRequests := number,
                                          version := batches[b].version + 1)];
    }

    /** The row changes first; the batch and its items follow under conditions of their own. */
    method CloseRequest(a: ApprovalId, state: ApprovalState, status: BatchStatus)
      modifies this
      ensures Rows() == Close(old(Rows()), a, state, status)
    {
      if a !in approvals || approvals[a].state != Awaiting { return; }
      var row := approvals[a];
      approvals := approvals[a := row.(state := state)];
      if row.batch !in batches { return; }
      var batch := batches[row.batch];
      if batch.status == AwaitingApproval && batch.approvalRequests == row.requestNumber {
        batches := Move(batches, {row.batch}, status);
        if status == Expired {
          items := MovePending(items, {row.batch}, Canceled);
        }
      }
    }

    method CheckStillAsRequested(a: ApprovalId) returns (same: bool)
      requires a in approvals && approvals[a].batch in batches
      ensures same <==> StillAsRequested(Rows(), a)
    {
      var row := approvals[a];
      var batch := batches[row.batch];
      if batch.status != AwaitingApproval
         || batch.approvalRequests != row.requestNumber
         || batch.contentHash != Some(row.content)
         || batch.issuer.None?
         || row.company !in settings || !settings[row.company].enabled
         || settings[row.company].approverPhone != row.approver
      {
        return false;
      }
      var now := ContentHash(batch.reference, batch.issuer.value, Hashed(items, row.batch));
      return now == row.content;
    }

    method DecideApproval(a: ApprovalId, approve: bool)
      modifies this
      ensures Rows() == Decide(old(Rows()), a, approve)
      ensures Inv(old(Rows())) ==> Inv(Rows())
    {
      if Inv(Rows()) { DecideKeeps(Rows(), a, approve); }
      if a !in approvals || approvals[a].state != Awaiting || approvals[a].batch !in batches { return; }
      var row := approvals[a];
      var same := CheckStillAsRequested(a);
      if !same {
        CloseRequest(a, Invalidated, Draft);
        return;
      }
      approvals := approvals[a := row.(state := if approve then Approved else Rejected)];
      batches := Move(batches, {row.batch}, if approve then Processing else RejectedBatch);
      if !approve {
        items := MovePending(items, {row.batch}, Canceled);
      }
    }

    // ---- settings ------------------------------------------------------------------------

    method ConfigureFeature(company: CompanyId, enabled: bool, phone: Phone, expectedVersion: nat)
      returns (refused: Option<Refusal>)
      modifies this
      ensures Outcome(Configure(old(Rows()), company, enabled, phone, expectedVersion), old(Rows()), refused)
      ensures Inv(old(Rows())) ==> Inv(Rows())
    {
      if Inv(Rows()) { ConfigureKeeps(Rows(), company, enabled, phone, expectedVersion); }
      var current := if company in settings then settings[company].version else 0;
      if current != expectedVersion { return Some(VersionChanged); }
      Switch(company, enabled, phone);
      return None;
    }

    /** The new settings, and what they stop or send back. */
    method Switch(company: CompanyId, enabled: bool, phone: Phone)
      modifies this
      ensures Configure(old(Rows()), company, enabled, phone, CurrentVersion(old(Rows()), company)) == Success(Rows())
    {
      var current := if company in settings then settings[company].version else 0;
      var newApprover := company in settings && settings[company].approverPhone != phone;
      settings := settings[company := Settings(current + 1, enabled, phone)];
      if !enabled {
        CancelEverythingUnsent(company);
      } else if newApprover {
        ReturnRequests(company);
      }
    }

    method ReturnRequests(company: CompanyId)
      modifies this
      ensures Rows() == ReturnRequestsToDraft(old(Rows()), company)
    {
      var all := set b | b in batches && batches[b].company == company;
      approvals := CloseRequests(approvals, all, Invalidated);
      batches := Move(batches, OfCompany(Rows(), company, AwaitingApproval), Draft);
    }

    method CancelEverythingUnsent(company: CompanyId)
      modifies this
      ensures Rows() == CancelUnsent(old(Rows()), company)
    {
      ghost var before := Rows();
      var all := set b | b in batches && batches[b].company == company;
      items := MovePending(items,
        OfCompany(Rows(), company, AwaitingApproval) + OfCompany(Rows(), company, Processing), Canceled);
      approvals := CloseRequests(approvals, all, Invalidated);
      batches := Move(batches, OfCompany(Rows(), company, AwaitingApproval), CanceledBatch);
      assert OfCompany(Rows(), company, Scheduled) == OfCompany(before, company, Scheduled);
      batches := Move(batches, OfCompany(Rows(), company, Scheduled), Draft);
      schedules := map s | s in schedules ::
        if schedules[s].company == company && schedules[s].active then Ended(schedules[s]) else schedules[s];
    }

    // ---- sender --------------------------------------------------------------------------

    /**
     One run of the sender over its list, with the answers the provider gives in turn. It
     stops at the first request turned away; the answer of a request that failed is nothing.
     */
    method SendBatch(queue: seq<ItemId>, answers: seq<Outcome>) returns (paused: bool)
      requires |queue| <= ITEMS_PER_TICK && |answers| == |queue|
      modifies this
      ensures Rows() == Sent(old(Rows()), queue, answers)
      ensures paused <==> Pauses(old(Rows()), queue, answers)
      ensures Inv(old(Rows())) && InProgress(old(Rows()), queue) ==> Inv(Rows())
    {
      if Inv(Rows()) && InProgress(Rows(), queue) { SentKeeps(Rows(), queue, answers); }
      ghost var before := Rows();
      for n := 0 to |queue|
        invariant Sent(Rows(), queue[n..], answers[n..]) == Sent(before, queue, answers)
        invariant Pauses(Rows(), queue[n..], answers[n..]) == Pauses(before, queue, answers)
      {
        var i := queue[n];
        if i in items && items[i].status == Pending {
          items := items[i := items[i].(status := Sending)];
          match answers[n]
          case SaidRateLimited =>
            items := items[i := items[i].(status := Pending)];
            return true;
          case SaidInProcessing => items := items[i := items[i].(status := InProcessing)];
          case SaidPaid => items := items[i := items[i].(status := Paid)];
          case SaidRefused => items := items[i := items[i].(status := Failed)];
          case SaidDuplicate => items := items[i := items[i].(status := Uncertain)];
          case SaidNothing => items := items[i := items[i].(status := Uncertain)];
        }
        assert queue[n..][1..] == queue[n + 1..] && answers[n..][1..] == answers[n + 1..];
      }
      return false;
    }

    /** The result of a sent-Pix notice, from the account the batch pays from. */
    method ApplyNotice(i: ItemId, fromPayingKey: bool, isRefund: bool, status: NoticeStatus) returns (r: NoticeResult)
      modifies this
      ensures r == UnknownSendId <==> i !in old(items)
      ensures r == SendKeyMismatch <==> i in old(items) && !fromPayingKey
      ensures r == Applied <==> (
        && i in old(items) && fromPayingKey && !isRefund && status != NoticeOther
        && old(items)[i].status in {Sending, InProcessing, Uncertain})
      ensures r == SendStatusConflict <==> (
        && i in old(items) && fromPayingKey && !isRefund && status != NoticeOther
        && old(items)[i].status !in {Sending, InProcessing, Uncertain, if status == NoticeRealized then Paid else Failed})
      ensures r == Applied ==>
        Rows() == old(Rows()).(items := old(items)[i := old(items)[i].(status := if status == NoticeRealized then Paid else Failed)])
      ensures r != Applied ==> Rows() == old(Rows())
      ensures Inv(old(Rows())) ==> Inv(Rows())
    {
      if Inv(Rows()) { NoticeKeeps(Rows(), i, status == NoticeRealized); }
      if i !in items { return UnknownSendId; }
      if !fromPayingKey { return SendKeyMismatch; }
      if isRefund || status == NoticeOther { return Ignored; }
      var seen := items[i].status;
      var to := if status == NoticeRealized then Paid else Failed;
      var changed := InFlight(items[i].status);
      if changed {
        items := items[i := items[i].(status := to)];
      }
      if !changed && seen != to { return SendStatusConflict; }
      return if changed then Applied else Ignored;
    }

    /** Whether all results of the batch are known, and whether any is not paid. */
    method Results(b: BatchId) returns (known: bool, unpaid: bool)
      ensures known <==> AllKnown(Rows(), b)
      ensures unpaid <==> exists i :: i in items && items[i].batch == b && items[i].status in {Failed, Canceled}
    {
      known, unpaid := true, false;
      var todo := items.Keys;
      while todo != {}
        invariant todo <= items.Keys
        invariant !known ==> !AllKnown(Rows(), b)
        invariant known ==> forall i :: i in items && i !in todo && items[i].batch == b ==> Final(items[i].status)
        invariant unpaid ==> exists i :: i in items && items[i].batch == b && items[i].status in {Failed, Canceled}
        invariant !unpaid ==> forall i :: i in items && i !in todo && items[i].batch == b ==> items[i].status !in {Failed, Canceled}
        decreases |todo|
      {
        var i :| i in todo;
        if items[i].batch == b {
          known := known && Final(items[i].status);
          unpaid := unpaid || items[i].status in {Failed, Canceled};
        }
        todo := todo - {i};
      }
    }

    method CompleteBatch(b: BatchId)
      modifies this
      ensures Rows() == CompleteFinished(old(Rows()), b)
      ensures Inv(old(Rows())) ==> Inv(Rows())
    {
      if Inv(Rows()) { CompleteFinishedKeeps(Rows(), b); }
      if b !in batches || batches[b].status != Processing { return; }
      var known, unpaid := Results(b);
      if known { batches := Move(batches, {b}, if unpaid then CompletedWithFailures else Completed); }
    }
  }

  lemma {:induction false} NoticeKeeps(db: Db, i: ItemId, realized: bool)
    requires Inv(db)
    ensures Inv(Notified(db, i, realized))
  {
    assert ItemFits(db, i);
    SetItemKeeps(db, i, {Sending, InProcessing, Uncertain}, if realized then Paid else Failed);
  }

  // ---- what the sender's loop computes ----------------------------------------------------

  function Sent(db: Db, queue: seq<ItemId>, answers: seq<Outcome>): Db
    requires |answers| == |queue|
    decreases |queue|
  {
    if queue == [] then db
    else if queue[0] in db.items && db.items[queue[0]].status == Pending then
      var answered := Recorded(SetItem(db, queue[0], {Pending}, Sending), queue[0], answers[0]);
      if answers[0] == SaidRateLimited then answered else Sent(answered, queue[1..], answers[1..])
    else Sent(db, queue[1..], answers[1..])
  }

  predicate Pauses(db: Db, queue: seq<ItemId>, answers: seq<Outcome>)
    requires |answers| == |queue|
    decreases |queue|
  {
    queue != [] &&
    if queue[0] in db.items && db.items[queue[0]].status == Pending then
      answers[0] == SaidRateLimited
      || Pauses(Recorded(SetItem(db, queue[0], {Pending}, Sending), queue[0], answers[0]), queue[1..], answers[1..])
    else Pauses(db, queue[1..], answers[1..])
  }

  /** No claimed item before row n was turned away. */
  predicate Reached(db: Db, queue: seq<ItemId>, answers: seq<Outcome>, n: nat)
    requires n <= |queue| == |answers|
  {
    forall m :: 0 <= m < n ==> !(queue[m] in db.items && db.items[queue[m]].status == Pending && answers[m] == SaidRateLimited)
  }

  /** The rows after the first item of the queue. */
  function SentFirst(db: Db, queue: seq<ItemId>, answers: seq<Outcome>): Db
    requires |answers| == |queue| && queue != []
  {
    if queue[0] in db.items && db.items[queue[0]].status == Pending
    then Recorded(SetItem(db, queue[0], {Pending}, Sending), queue[0], answers[0]) else db
  }

  predicate FirstTurned(db: Db, queue: seq<ItemId>, answers: seq<Outcome>)
    requires |answers| == |queue| && queue != []
  {
    queue[0] in db.items && db.items[queue[0]].status == Pending && answers[0] == SaidRateLimited
  }

  /** Rows that are not in the queue stay. */
  lemma {:induction false} SentElsewhere(db: Db, queue: seq<ItemId>, answers: seq<Outcome>, i: ItemId)
    requires |answers| == |queue| && i !in queue
    ensures var after := Sent(db, queue, answers);
      && after == db.(items := after.items) && after.items.Keys == db.items.Keys
      && (i in db.items ==> after.items[i] == db.items[i])
    decreases |queue|
  {
    if queue != [] && !FirstTurned(db, queue, answers) {
      SentElsewhere(SentFirst(db, queue, answers), queue[1..], answers[1..], i);
    }
  }

  /**
   One run over distinct items: each one still pending and reached takes the status of its answer,
   every other one stays.
   */
  lemma {:induction false} SentMeans(db: Db, queue: seq<ItemId>, answers: seq<Outcome>, n: nat)
    requires |answers| == |queue| && n < |queue| && (forall j, k :: 0 <= j < k < |queue| ==> queue[j] != queue[k])
    requires queue[n] in db.items
    ensures var after, x := Sent(db, queue, answers), db.items[queue[n]];
      && queue[n] in after.items
      && after.items[queue[n]] == if x.status == Pending && Reached(db, queue, answers, n) then x.(status := Answered(answers[n])) else x
    decreases |queue|
  {
    if n == 0 {
      SentHead(db, queue, answers);
    } else {
      var next := SentFirst(db, queue, answers);
      ReachedOn(db, next, queue, answers, n);
      if !FirstTurned(db, queue, answers) { SentMeans(next, queue[1..], answers[1..], n - 1); }
    }
  }

  lemma {:induction false} SentHead(db: Db, queue: seq<ItemId>, answers: seq<Outcome>)
    requires |answers| == |queue| && queue != [] && queue[0] in db.items && queue[0] !in queue[1..]
    ensures var after, x := Sent(db, queue, answers), db.items[queue[0]];
      queue[0] in after.items && after.items[queue[0]] == if x.status == Pending then x.(status := Answered(answers[0])) else x
  {
    if !FirstTurned(db, queue, answers) { SentElsewhere(SentFirst(db, queue, answers), queue[1..], answers[1..], queue[0]); }
  }

  /** The run pauses exactly when an item still pending was turned away. */
  lemma {:induction false} PausesMeans(db: Db, queue: seq<ItemId>, answers: seq<Outcome>)
    requires |answers| == |queue| && forall j, k :: 0 <= j < k < |queue| ==> queue[j] != queue[k]
    ensures Pauses(db, queue, answers) <==> !Reached(db, queue, answers, |queue|)
    decreases |queue|
  {
    if queue != [] {
      var next := SentFirst(db, queue, answers);
      ReachedOn(db, next, queue, answers, |queue|);
      if !FirstTurned(db, queue, answers) { PausesMeans(next, queue[1..], answers[1..]); }
    }
  }

  lemma {:induction false} ReachedOn(db: Db, next: Db, queue: seq<ItemId>, answers: seq<Outcome>, n: nat)
    requires n <= |queue|
    requires |answers| == |queue| && queue != [] && forall j, k :: 0 <= j < k < |queue| ==> queue[j] != queue[k]
    requires next.items.Keys == db.items.Keys && forall i :: i in db.items && i != queue[0] ==> next.items[i] == db.items[i]
    ensures n >= 1 ==> (Reached(db, queue, answers, n) <==> Reached(db, queue, answers, 1) && Reached(next, queue[1..], answers[1..], n - 1))
  {
    if n >= 1 {
      forall m | 1 <= m < n ensures queue[m] == queue[1..][m - 1] && answers[m] == answers[1..][m - 1] && queue[m] != queue[0] {}
      if Reached(next, queue[1..], answers[1..], n - 1) && Reached(db, queue, answers, 1) {
        forall m | 0 <= m < n ensures !(queue[m] in db.items && db.items[queue[m]].status == Pending && answers[m] == SaidRateLimited) {
          if m >= 1 { assert !(queue[1..][m - 1] in next.items && next.items[queue[1..][m - 1]].status == Pending && answers[1..][m - 1] == SaidRateLimited); }
        }
      }
    }
  }

  /** The items a sender reads are of a batch being paid. */
  predicate InProgress(db: Db, queue: seq<ItemId>) {
    forall n :: 0 <= n < |queue| && queue[n] in db.items ==>
      db.items[queue[n]].batch in db.batches && db.batches[db.items[queue[n]].batch].status == Processing
  }

  lemma {:induction false} RecordedRows(db: Db, i: ItemId, outcome: Outcome)
    ensures Recorded(db, i, outcome).batches == db.batches && Recorded(db, i, outcome).items.Keys == db.items.Keys
    ensures forall k :: k in db.items ==> Recorded(db, i, outcome).items[k].batch == db.items[k].batch
  {}

  lemma {:induction false} RecordedKeeps(db: Db, i: ItemId, outcome: Outcome)
    requires Inv(db) && InProgress(db, [i])
    ensures Inv(Recorded(db, i, outcome))
  {
    assert [i][0] == i;
    SetItemKeeps(db, i, {Sending}, Answered(outcome));
  }

  lemma {:induction false} SentKeeps(db: Db, queue: seq<ItemId>, answers: seq<Outcome>)
    requires Inv(db) && |answers| == |queue| && InProgress(db, queue)
    ensures Inv(Sent(db, queue, answers))
    decreases |queue|
  {
    if queue != [] {
      if queue[0] in db.items && db.items[queue[0]].status == Pending {
        var claimed := SetItem(db, queue[0], {Pending}, Sending);
        SetItemKeeps(db, queue[0], {Pending}, Sending);
        RecordedKeeps(claimed, queue[0], answers[0]);
        RecordedRows(claimed, queue[0], answers[0]);
        if answers[0] != SaidRateLimited { SentKeeps(Recorded(claimed, queue[0], answers[0]), queue[1..], answers[1..]); }
      } else {
        SentKeeps(db, queue[1..], answers[1..]);
      }
    }
  }

  lemma {:induction false} ProblemStays(db: Db, company: CompanyId, lines: seq<Line>, n: nat)
    requires n < |lines| && FirstProblem(db, company, lines[..n + 1]).Some?
    ensures FirstProblem(db, company, lines) == FirstProblem(db, company, lines[..n + 1])
    decreases |lines|
  {
    if n + 1 < |lines| {
      var shorter := lines[..|lines| - 1];
      assert shorter[..n + 1] == lines[..n + 1];
      ProblemStays(db, company, shorter, n);
    } else {
      assert lines[..n + 1] == lines;
    }
  }

  /** Items taken so far by the loop that brings the collaborators' current data in. */
  function SnapshotSome(db: Db, done: set<ItemId>): map<ItemId, Item> {
    map i | i in db.items :: if i in done then Snapshot(db, db.items[i]) else db.items[i]
  }

  function OfBatch(items: map<ItemId, Item>, b: BatchId): (r: set<ItemId>)
    ensures r <= items.Keys
  {
    set i | i in items && items[i].batch == b
  }

  lemma {:induction false} SnapshotNone(db: Db)
    ensures SnapshotSome(db, {}) == db.items
  {}

  lemma {:induction false} SnapshotAll(db: Db, b: BatchId)
    ensures SnapshotSome(db, OfBatch(db.items, b)) == Resnapshot(db, b)
  {}

  lemma {:induction false} SnapshotOneMore(db: Db, done: set<ItemId>, i: ItemId)
    requires i in db.items && i !in done
    ensures SnapshotSome(db, done)[i] == db.items[i]
    ensures SnapshotSome(db, done)[i := Snapshot(db, db.items[i])] == SnapshotSome(db, done + {i})
  {}

  lemma {:induction false} CancelNone(db: Db)
    ensures CancelUnrequested(db, {}) == db
  {
    assert CancelUnrequested(db, {}).items == db.items;
    assert CancelUnrequested(db, {}).approvals == db.approvals;
    assert CancelUnrequested(db, {}).batches == db.batches;
  }

  lemma {:induction false} CancelOneMore(db: Db, done: set<BatchId>, b: BatchId)
    requires b !in done
    ensures CancelUnrequested(CancelUnrequested(db, done), {b}) == CancelUnrequested(db, done + {b})
  {
    var x, y := CancelUnrequested(CancelUnrequested(db, done), {b}), CancelUnrequested(db, done + {b});
    assert x.items == y.items;
    assert x.approvals == y.approvals;
    assert x.batches == y.batches;
  }
}
