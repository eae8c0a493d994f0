/**
 Collaborator payments: the rows of the database and, for every transaction of the batch,
 approval, settings and scheduler services, the database it leaves (or the refusal).
 Ids are random UUIDs in the program, so a new id is a parameter that no row uses yet;
 the send id given to the provider is the item id without hyphens, so they are one thing here.
 */
module PaymentModel {
  import opened Common
  import opened PaymentContent

  type CompanyId = nat
  type BatchId = nat
  type ApprovalId = nat
  type RecipientId = nat
  type ScheduleId = nat
  type Phone = string

  const MAX_TOTAL_CENTS := 2147483647

  datatype BatchStatus =
    | Draft | Scheduled | AwaitingApproval | Processing
    | Completed | CompletedWithFailures | CanceledBatch | Expired | RejectedBatch

  datatype ItemStatus = Pending | Sending | InProcessing | Uncertain | Paid | Failed | Canceled

  datatype ApprovalState = Awaiting | Approved | Rejected | ExpiredRequest | Invalidated | Held

  datatype Recipient = Recipient(company: CompanyId, name: string, destination: Destination, active: bool)

  datatype Batch = Batch(
    company: CompanyId, reference: string, status: BatchStatus, version: nat,
    contentHash: Option<Content>, issuer: Option<AccountId>, approvalRequests: nat,
    retryOf: Option<BatchId>, schedule: Option<ScheduleId>)

  /** `origin` records which failed item a retry item pays again; an edit forgets it. */
  datatype Item = Item(
    batch: BatchId, recipient: RecipientId, recipientName: string, destination: Destination,
    amountCents: nat, status: ItemStatus, origin: Option<ItemId>)

  datatype Approval = Approval(
    company: CompanyId, batch: BatchId, requestNumber: nat, content: Content,
    totalCents: nat, approver: Phone, state: ApprovalState)

  datatype Settings = Settings(version: nat, enabled: bool, approverPhone: Phone)

  datatype Repetition = Repetition(company: CompanyId, active: bool, version: nat)

  datatype Db = Db(
    recipients: map<RecipientId, Recipient>, batches: map<BatchId, Batch>,
    items: map<ItemId, Item>, approvals: map<ApprovalId, Approval>,
    settings: map<CompanyId, Settings>, schedules: map<ScheduleId, Repetition>)

  datatype Refusal =
    | NotFound | NotEditable | VersionChanged | RecipientRepeated | TotalTooHigh
    | RecipientInactive | NotCancelable | NoFailures | AlreadyRetried | NotDraft | FeatureOff

  /** One line of a payment as the user types it, with the id its item will get. */
  datatype Line = Line(id: ItemId, recipient: RecipientId, amountCents: nat)

  predicate Editable(s: BatchStatus) { s == Draft || s == Scheduled }
  predicate Unrequested(s: BatchStatus) { Editable(s) || s == AwaitingApproval }
  predicate Open(s: BatchStatus) { Unrequested(s) || s == Processing }
  predicate Dead(s: BatchStatus) { s == CanceledBatch || s == Expired || s == RejectedBatch }
  predicate Finished(s: BatchStatus) { s == Completed || s == CompletedWithFailures }
  /** Approved: from here on the batch may have sent money. */
  predicate Paying(s: BatchStatus) { s == Processing || Finished(s) }
  predicate InFlight(s: ItemStatus) { s == Sending || s == InProcessing || s == Uncertain }
  predicate Final(s: ItemStatus) { s == Paid || s == Failed || s == Canceled }

  // ---- conditional bulk updates -------------------------------------------------------

  function Hashed(items: map<ItemId, Item>, b: BatchId): map<ItemId, HashedItem> {
    map i | i in items && items[i].batch == b :: HashedItem(items[i].destination, items[i].amountCents)
  }

  function MovePending(items: map<ItemId, Item>, batches: set<BatchId>, to: ItemStatus): map<ItemId, Item> {
    map i | i in items ::
      if items[i].batch in batches && items[i].status == Pending then items[i].(status := to) else items[i]
  }

  function CloseRequests(approvals: map<ApprovalId, Approval>, batches: set<BatchId>, to: ApprovalState)
    : map<ApprovalId, Approval>
  {
    map a | a in approvals ::
      if approvals[a].batch in batches && approvals[a].state == Awaiting
      then approvals[a].(state := to) else approvals[a]
  }

  function Move(batches: map<BatchId, Batch>, which: set<BatchId>, to: BatchStatus): map<BatchId, Batch> {
    map b | b in batches ::
      if b in which then batches[b].(status := to, version := batches[b].version + 1) else batches[b]
  }

  function OfCompany(db: Db, company: CompanyId, status: BatchStatus): set<BatchId> {
    set b | b in db.batches && db.batches[b].company == company && db.batches[b].status == status
  }

  // ---- batches service ----------------------------------------------------------------

  /** The collaborator as registered now. */
  function Snapshot(db: Db, item: Item): Item {
    if item.recipient !in db.recipients then item else
    item.(recipientName := db.recipients[item.recipient].name,
          destination := db.recipients[item.recipient].destination)
  }

  function NewItem(db: Db, b: BatchId, line: Line): Item
    requires line.recipient in db.recipients
  {
    var r := db.recipients[line.recipient];
    Item(b, line.recipient, r.name, r.destination, line.amountCents, Pending, None)
  }

  function SumOf(lines: seq<Line>): nat {
    if lines == [] then 0 else SumOf(lines[..|lines|-1]) + lines[|lines|-1].amountCents
  }

  /** The first line that names a missing or an inactive collaborator, in the order given. */
  function FirstProblem(db: Db, company: CompanyId, lines: seq<Line>): (r: Option<Refusal>)
    ensures r == None <==> forall k :: 0 <= k < |lines| ==>
      lines[k].recipient in db.recipients && db.recipients[lines[k].recipient].company == company
      && db.recipients[lines[k].recipient].active
  {
    if lines == [] then None else
    var earlier := FirstProblem(db, company, lines[..|lines|-1]);
    var line := lines[|lines|-1];
    if earlier.Some? then earlier
    else if line.recipient !in db.recipients || db.recipients[line.recipient].company != company then Some(NotFound)
    else if !db.recipients[line.recipient].active then Some(RecipientInactive)
    else None
  }

  function ItemsOf(db: Db, b: BatchId, lines: seq<Line>): (r: map<ItemId, Item>)
    requires forall k :: 0 <= k < |lines| ==> lines[k].recipient in db.recipients
    ensures forall i :: i in r <==> exists k :: 0 <= k < |lines| && lines[k].id == i
    ensures forall i :: i in r ==> r[i].batch == b && r[i].status == Pending
    ensures forall i :: i in r ==> r[i].origin == None && r[i].recipient in db.recipients
  {
    if lines == [] then map[] else
    var line := lines[|lines|-1];
    ItemsOf(db, b, lines[..|lines|-1])[line.id := NewItem(db, b, line)]
  }

  predicate RepeatsRecipient(lines: seq<Line>) {
    exists j, k :: 0 <= j < k < |lines| && lines[j].recipient == lines[k].recipient
  }

  function BuildItems(db: Db, company: CompanyId, b: BatchId, lines: seq<Line>): Result<map<ItemId, Item>, Refusal> {
    if RepeatsRecipient(lines) then Failure(RecipientRepeated)
    else if SumOf(lines) > MAX_TOTAL_CENTS then Failure(TotalTooHigh)
    else
      var problem := FirstProblem(db, company, lines);
      if problem.Some? then Failure(problem.value) else Success(ItemsOf(db, b, lines))
  }

  ghost predicate FreshLines(db: Db, lines: seq<Line>) {
    && (forall k :: 0 <= k < |lines| ==> lines[k].id !in db.items)
    && (forall j, k :: 0 <= j < k < |lines| ==> lines[j].id != lines[k].id)
  }

  function EmptyBatch(company: CompanyId, reference: string, scheduled: bool,
                      retryOf: Option<BatchId>, schedule: Option<ScheduleId>): Batch {
    Batch(company, reference, if scheduled then Scheduled else Draft, 1, None, None, 0, retryOf, schedule)
  }

  function Create(db: Db, company: CompanyId, b: BatchId, reference: string, lines: seq<Line>,
                  scheduled: bool, schedule: Option<ScheduleId>): Result<Db, Refusal>
  {
    var built := BuildItems(db, company, b, lines);
    if built.Failure? then Failure(built.error) else
    Success(db.(batches := db.batches[b := EmptyBatch(company, reference, scheduled, None, schedule)],
                items := db.items + built.value))
  }

  /** A repetition copies its lines even for collaborators who became inactive. */
  function CreateOccurrence(db: Db, company: CompanyId, b: BatchId, reference: string, lines: seq<Line>,
                            schedule: ScheduleId): Db
    requires forall k :: 0 <= k < |lines| ==> lines[k].recipient in db.recipients
  {
    db.(batches := db.batches[b := EmptyBatch(company, reference, true, None, Some(schedule))],
        items := db.items + ItemsOf(db, b, lines))
  }

  function Without(items: map<ItemId, Item>, b: BatchId): map<ItemId, Item> {
    map i | i in items && items[i].batch != b :: items[i]
  }

  function Update(db: Db, company: CompanyId, b: BatchId, reference: string, lines: seq<Line>,
                  expectedVersion: nat, scheduled: bool): Result<Db, Refusal>
  {
    if b !in db.batches || db.batches[b].company != company then Failure(NotFound)
    else if !Editable(db.batches[b].status) then Failure(NotEditable)
    else if db.batches[b].version != expectedVersion then Failure(VersionChanged)
    else
      var built := BuildItems(db, company, b, lines);
      if built.Failure? then Failure(built.error) else
      var row := db.batches[b];
      Success(db.(
        items := Without(db.items, b) + built.value,
        batches := db.batches[b := row.(reference := reference, version := row.version + 1,
                                        status := if scheduled then Scheduled else row.status)]))
  }

  function Schedule(db: Db, company: CompanyId, b: BatchId, expectedVersion: nat): Result<Db, Refusal> {
    if b !in db.batches || db.batches[b].company != company then Failure(NotFound)
    else if !Editable(db.batches[b].status) then Failure(NotEditable)
    else if db.batches[b].version != expectedVersion then Failure(VersionChanged)
    else Success(db.(batches := Move(db.batches, {b}, Scheduled)))
  }

  /** Items, requests and status of batches nothing was sent for. */
  function CancelUnrequested(db: Db, which: set<BatchId>): Db {
    db.(items := MovePending(db.items, which, Canceled),
        approvals := CloseRequests(db.approvals, which, Invalidated),
        batches := Move(db.batches, which, CanceledBatch))
  }

  function Cancel(db: Db, company: CompanyId, b: BatchId): Result<Db, Refusal> {
    if b !in db.batches || db.batches[b].company != company then Failure(NotFound)
    else if !Unrequested(db.batches[b].status) then Failure(NotCancelable)
    else Success(CancelUnrequested(db, {b}))
  }

  function Upcoming(db: Db, company: CompanyId, schedule: ScheduleId): set<BatchId> {
    set b | b in db.batches && db.batches[b].company == company
      && db.batches[b].schedule == Some(schedule) && db.batches[b].status == Scheduled
  }

  function Ended(row: Repetition): Repetition {
    row.(active := false, version := row.version + 1)
  }

  function EndSchedule(db: Db, company: CompanyId, schedule: ScheduleId, expectedVersion: nat): Result<Db, Refusal> {
    if schedule !in db.schedules || db.schedules[schedule].company != company then Failure(NotFound)
    else if db.schedules[schedule].version != expectedVersion then Failure(VersionChanged)
    else if !db.schedules[schedule].active then Success(db)
    else Success(CancelUnrequested(
      db.(schedules := db.schedules[schedule := Ended(db.schedules[schedule])]),
      Upcoming(db, company, schedule)))
  }

  function LiveRetries(db: Db, company: CompanyId, b: BatchId): set<BatchId> {
    set r | r in db.batches && db.batches[r].company == company && db.batches[r].retryOf == Some(b)
      && !Dead(db.batches[r].status)
  }

  predicate Active(db: Db, r: RecipientId) { r in db.recipients && db.recipients[r].active }

  function FailedActive(db: Db, b: BatchId): set<ItemId> {
    set i | i in db.items && db.items[i].batch == b && db.items[i].status == Failed
      && Active(db, db.items[i].recipient)
  }

  /** One new id for each failed item of an active collaborator, and no other. */
  ghost predicate CopiesFailures(db: Db, b: BatchId, copies: map<ItemId, ItemId>) {
    && (forall n :: n in copies ==> n !in db.items)
    && copies.Values == FailedActive(db, b)
    && (forall n, m :: n in copies && m in copies && copies[n] == copies[m] ==> n == m)
  }

  function RetryItem(db: Db, retry: BatchId, failed: ItemId): Item
    requires failed in db.items
  {
    Snapshot(db, db.items[failed]).(batch := retry, status := Pending, origin := Some(failed))
  }

  /** Result batch and whether it is new: a double click gets the open retry back. */
  function RetryFailed(db: Db, company: CompanyId, b: BatchId, retry: BatchId, reference: string,
                       copies: map<ItemId, ItemId>): Result<Db, Refusal>
    requires forall n :: n in copies ==> copies[n] in db.items
  {
    if b !in db.batches || db.batches[b].company != company then Failure(NotFound)
    else if db.batches[b].status != CompletedWithFailures then Failure(NoFailures)
    else if exists r :: r in LiveRetries(db, company, b) && Open(db.batches[r].status) then Success(db)
    else if LiveRetries(db, company, b) != {} then Failure(AlreadyRetried)
    else if FailedActive(db, b) == {} then Failure(NoFailures)
    else Success(db.(
      batches := db.batches[retry := EmptyBatch(company, reference, false, Some(b), None)],
      items := db.items + (map n | n in copies :: RetryItem(db, retry, copies[n]))))
  }

  // ---- approval service ---------------------------------------------------------------

  function Resnapshot(db: Db, b: BatchId): map<ItemId, Item> {
    map i | i in db.items :: if db.items[i].batch == b then Snapshot(db, db.items[i]) else db.items[i]
  }

  predicate HasInactive(db: Db, b: BatchId) {
    exists i :: i in db.items && db.items[i].batch == b && !Active(db, db.items[i].recipient)
  }

  /** The batch frozen as it stands, with its request. */
  ghost function Requested(db: Db, company: CompanyId, b: BatchId, issuer: AccountId, a: ApprovalId): Db
    requires b in db.batches && company in db.settings
  {
    var row := db.batches[b];
    var items := Resnapshot(db, b);
    var content := ContentOf(row.reference, issuer, Hashed(items, b));
    db.(items := items,
        approvals := db.approvals[a := Approval(company, b, row.approvalRequests + 1, content,
                                               content.totalCents, db.settings[company].approverPhone, Awaiting)],
        batches := db.batches[b := row.(status := AwaitingApproval, contentHash := Some(content),
                                        issuer := Some(issuer), approvalRequests := row.approvalRequests + 1,
                                        version := row.version + 1)])
  }

  /** `expected` is the version the company clicked on; none is the scheduled request. */
  ghost function Request(db: Db, company: CompanyId, b: BatchId, expected: Option<nat>,
                         issuer: AccountId, a: ApprovalId): Result<Db, Refusal>
  {
    if b !in db.batches || db.batches[b].company != company then Failure(NotFound)
    else if db.batches[b].status != (if expected.None? then Scheduled else Draft) then Failure(NotDraft)
    else if expected.Some? && db.batches[b].version != expected.value then Failure(VersionChanged)
    else if company !in db.settings || !db.settings[company].enabled then Failure(FeatureOff)
    else if HasInactive(db, b) then Failure(RecipientInactive)
    else Success(Requested(db, company, b, issuer, a))
  }

  /** Only a request nobody decided ends here, and it takes its batch along if no later request replaced it. */
  function Close(db: Db, a: ApprovalId, state: ApprovalState, status: BatchStatus): Db {
    if a !in db.approvals || db.approvals[a].state != Awaiting then db else
    var row := db.approvals[a];
    var closed := db.(approvals := db.approvals[a := row.(state := state)]);
    if row.batch !in db.batches then closed else
    var batch := db.batches[row.batch];
    if batch.status != AwaitingApproval || batch.approvalRequests != row.requestNumber then closed else
    closed.(batches := Move(db.batches, {row.batch}, status),
            items := if status == Expired then MovePending(db.items, {row.batch}, Canceled) else db.items)
  }

  /** Nothing the approver was shown is different now, and the approver may still decide. */
  ghost predicate StillAsRequested(db: Db, a: ApprovalId)
    requires a in db.approvals && db.approvals[a].batch in db.batches
  {
    var row := db.approvals[a];
    var batch := db.batches[row.batch];
    && batch.status == AwaitingApproval
    && batch.approvalRequests == row.requestNumber
    && batch.contentHash == Some(row.content)
    && batch.issuer.Some?
    && row.company in db.settings && db.settings[row.company].enabled
    && db.settings[row.company].approverPhone == row.approver
    && ContentOf(batch.reference, batch.issuer.value, Hashed(db.items, row.batch)) == row.content
  }

  /** A tap of the approver on a request still awaiting. */
  ghost function Decide(db: Db, a: ApprovalId, approve: bool): Db {
    if a !in db.approvals || db.approvals[a].state != Awaiting || db.approvals[a].batch !in db.batches then db else
    var row := db.approvals[a];
    if !StillAsRequested(db, a) then Close(db, a, Invalidated, Draft)
    else db.(
      approvals := db.approvals[a := row.(state := if approve then Approved else Rejected)],
      batches := Move(db.batches, {row.batch}, if approve then Processing else RejectedBatch),
      items := if approve then db.items else MovePending(db.items, {row.batch}, Canceled))
  }

  // ---- settings and scheduler ---------------------------------------------------------

  /** Ends what was asked or approved and not claimed yet; claimed items go on to their result. */
  function CancelUnsent(db: Db, company: CompanyId): Db {
    var awaiting := OfCompany(db, company, AwaitingApproval);
    var paying := OfCompany(db, company, Processing);
    var scheduled := OfCompany(db, company, Scheduled);
    var all := set b | b in db.batches && db.batches[b].company == company;
    db.(items := MovePending(db.items, awaiting + paying, Canceled),
        approvals := CloseRequests(db.approvals, all, Invalidated),
        batches := Move(Move(db.batches, awaiting, CanceledBatch), scheduled, Draft),
        schedules := map s | s in db.schedules ::
          if db.schedules[s].company == company && db.schedules[s].active
          then Ended(db.schedules[s]) else db.schedules[s])
  }

  function ReturnRequestsToDraft(db: Db, company: CompanyId): Db {
    var all := set b | b in db.batches && db.batches[b].company == company;
    db.(approvals := CloseRequests(db.approvals, all, Invalidated),
        batches := Move(db.batches, OfCompany(db, company, AwaitingApproval), Draft))
  }

  function CurrentVersion(db: Db, company: CompanyId): nat {
    if company in db.settings then db.settings[company].version else 0
  }

  function Configure(db: Db, company: CompanyId, enabled: bool, phone: Phone, expectedVersion: nat): Result<Db, Refusal> {
    if CurrentVersion(db, company) != expectedVersion then Failure(VersionChanged) else
    var saved := db.(settings := db.settings[company := Settings(expectedVersion + 1, enabled, phone)]);
    if !enabled then Success(CancelUnsent(saved, company))
    else if company in db.settings && db.settings[company].approverPhone != phone
    then Success(ReturnRequestsToDraft(saved, company))
    else Success(saved)
  }

  /** The date of a payment came and its request was refused. */
  function ToDraft(db: Db, b: BatchId): Db {
    if b in db.batches && Editable(db.batches[b].status) then db.(batches := Move(db.batches, {b}, Draft)) else db
  }

  // ---- sender, reconciler and webhook: each write is one conditional update ------------

  function SetItem(db: Db, i: ItemId, from: set<ItemStatus>, to: ItemStatus): Db {
    if i in db.items && db.items[i].status in from
    then db.(items := db.items[i := db.items[i].(status := to)]) else db
  }

  function FailPending(db: Db, b: BatchId): Db {
    db.(items := MovePending(db.items, {b}, Failed))
  }

  /** Sends that may have been lost; `late` are those whose claim is old enough. */
  function MarkLost(db: Db, late: set<ItemId>): Db {
    db.(items := map i | i in db.items ::
          if i in late && db.items[i].status == Sending then db.items[i].(status := Uncertain) else db.items[i])
  }

  predicate AllKnown(db: Db, b: BatchId) {
    forall i :: i in db.items && db.items[i].batch == b ==> Final(db.items[i].status)
  }

  function CompleteFinished(db: Db, b: BatchId): Db {
    if b !in db.batches || db.batches[b].status != Processing || !AllKnown(db, b) then db else
    var unpaid := exists i :: i in db.items && db.items[i].batch == b && db.items[i].status in {Failed, Canceled};
    db.(batches := Move(db.batches, {b}, if unpaid then CompletedWithFailures else Completed))
  }
}
