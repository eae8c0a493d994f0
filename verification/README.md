# Verified model of api-cobranca

This project models, in Dafny, the parts of the billing API whose correctness depends on more than one piece of
code, and proves what they promise for every input, every interleaving and every run.

Five components are covered.

1. **Payments to collaborators** (`Payment*.dfy`, `Occurrences.dfy`). Batches, approvals, items, settings and
   repetitions are rows; every transaction of the services is a function from database to database
   (`PaymentModel`), and `PaymentStore` performs it in place (`PaymentService`). `PaymentInvariant` holds one
   predicate a row and the proof that each transaction keeps them. `PaymentSending` adds senders, the reconciler,
   the webhook, requests on the wire and a provider that decides about each send at any later time;
   `PaymentTheorems` states what holds after every run, `PaymentSwitch` what a switch-off leaves behind, `PaymentGap`
   when ending a repetition in two steps is sound.
2. **Outbound dispatch and its reviews** (`Dispatch*.dfy`): the lease protocol of an intent, holds, previews and
   confirmations, with lost answers, crashes, expired leases and commits whose outcome the worker never hears.
   `Reply*.dfy` re-attributes chains of replies, and `JsonText.dfy` and `CanonicalJson.dfy` print the canonical
   payload whose text identifies a request.
3. **Collection rule** (`Collection*.dfy`): contacts of a rule, plans, skips and claims made by racing rounds, resumed
   messages and e-mails in the stead of rejected ones; `CollectionSpacing` says when contacts stay apart and in order.
   `RuleSchedule.dfy` is the editor that rewrites a schedule under its unique key.
4. **Checkout money**: `Pricing.dfy` (coupon, gross-up, item shares), `Refund*.dfy` (keyed ledger, requests,
   histories, requests created after an older reading), `Card*.dfy` (card attempts, their settlement and the
   readings that go out of date).
5. **Calendar** (`Calendar.dfy`, `Occurrences.dfy`, `Dashboard.dfy`): civil dates, occurrence dates, dashboard
   periods, buckets and sums.

Each component has a module whose name ends in `Meaning`: for every operation, in plain conditions on rows, when it is
refused and why, what it writes, and that nothing else changes. The stores are proved against the transaction
functions, these lemmas say what the functions compute, and the invariants and theorems what follows in every run.

Conventions. Random ids, lease tokens and clocks are parameters; a new id is one no row uses yet. Money is whole
cents and every quotient is exact. A content hash is the value it hashes, so equal hashes mean equal contents. One
conditional update or one `$transaction` is one step, and calls to a provider are steps of their own with any
answer. A refused transaction leaves the rows as they were. Lemmas carry `{:induction false}`: every use of an
induction hypothesis is written out.

What the proofs say about the code beyond its own comments:

- The interval between contacts is 23 hours, although the comment on the engine says 24; the proofs follow the code.
- Two ways lead around that interval, and both around the order of days: a held message that is resumed, or a failed
  e-mail retried, and the e-mail that stands in for a rejected message, which is written outside the claim
  (`CollectionRuns`). Each keeps the contacts apart exactly when nothing of another claim counts within 23 hours of it
  (`CollectionSpacing.ReviveApart`, `CollectionSpacing.FallbackApart`); without them every run keeps interval and order.
- The error for a lost dispatch lease cannot occur for a worker whose message was accepted: its commit applies, or
  was applied before (`DispatchTheorems.HolderCommits`).
- A switch-off can leave a payment approved and unsent: a send on the wire at the switch whose rate limit is recorded
  after it (`PaymentRuns.LeftBehind`). `PaymentSwitch.UnsentExactly` says when one remains; a sender that looked at the
  switch before can still claim it again.
- Ending a repetition cancels the batches it read as scheduled without a second look under the lock; a batch approved
  in between is canceled although its approval stands and its payments may be on the wire
  (`PaymentGap.CanceledAfterSending`); that is the only way to a dead batch that was approved
  (`PaymentGap.DeadUnsentIffClean`).
- A refund request is read and created without a lock: two can be open at once, and one made from an older reading can
  pay an item again (`RefundGap`). `RefundGap.SoundIffCurrent` and `RefundGap.FollowsIffPaid` say exactly when not.
- A refund by hand under a key another order used ends its order as refunded while the ledger holds no refund
  (`RefundRuns.ManualKeyReused`); a recorded refund is in the ledger exactly when its key is new
  (`RefundModel.CountedIffKeyNew`).
- A card retry let in before its transaction can be reserved on an order closed meanwhile, and two charges checked
  before either is confirmed settle an order twice (`CardRuns`). `CardWorld.ClosedIdleIffOpenReserves` and
  `CardWorld.SettledOnceIffClean` say exactly when.
- Re-attribution stops five citations below the changed message, although its comment says that no dependent is left
  behind: the sixth keeps its old attribution (`ReplyRuns.SevenMessages`), and only such a sixth reply can be stale
  (`ReplyThreads.StaleExactly`).

## Model

| member | source | states |
|---|---|---|
| `PaymentTheorems.AtMostOneSend` | api-cobranca/src/disbursements/disbursement-sender.service.ts:107-227 | After every run of senders, reconciler, checks, webhooks, switches and retries, two requests for one send id that were not turned away for their rate are the same request. |
| `PaymentTheorems.NoDuplicateAnswer` | api-cobranca/src/disbursements/disbursement-sender.service.ts:107-137 | A request still unanswered carries a send id the provider does not have yet, so it never answers that it is a duplicate. |
| `PaymentTheorems.StatusIsTrue` | api-cobranca/src/disbursements/disbursement-sender.service.ts:140-227 | PAID means the provider paid; PENDING, CANCELED and FAILED mean it did not and no request on the wire still can. |
| `PaymentTheorems.FinalForever` | api-cobranca/src/disbursements/disbursement-sender.service.ts:363-402 | PAID, FAILED and CANCELED items keep their status over any later run. |
| `PaymentTheorems.OneApproval` | api-cobranca/src/disbursements/disbursement-approval.service.ts:210-257 | A batch that may pay has exactly one approved approval. |
| `PaymentTheorems.EverySendIsApproved` | api-cobranca/src/disbursements/disbursement-approval.service.ts:101-257 | Every request ever sent is for an item of a batch with an approved approval, and its destination, amount, reference and account are among those hashed in that approval. |
| `PaymentTheorems.PaidWithinApproved` | api-cobranca/src/disbursements/disbursement-approval.service.ts:101-192 | The paid items of a batch never add up to more than the total its approver saw. |
| `PaymentTheorems.ObligationPaidOnce` | api-cobranca/src/disbursements/disbursement-batches.service.ts:518-573 | Two paid items that descend from one failed item through unedited retries are the same item. |
| `PaymentTheorems.OneRetryThatCanPay` | api-cobranca/src/disbursements/disbursement-batches.service.ts:526-541 | Of the retries of a batch at most one is outside canceled, expired and rejected. |
| `PaymentTheorems.DeadBatchesSentNothing` | api-cobranca/src/disbursements/disbursement-approval.service.ts:436-465 | With every transaction one step, no item of a canceled, expired or rejected batch was ever put on the wire. |
| `PaymentGap.DeadUnsentIffClean` | api-cobranca/src/disbursements/disbursement-batches.service.ts:371-408 | With the end of a repetition read first and its batches canceled later: dead batches stay unapproved and unsent all through a run exactly when no such cancellation met a batch approved meanwhile. |
| `PaymentGap.UnsentIffClean` | api-cobranca/src/disbursements/disbursement-batches.service.ts:398-408 | The same from any sound state; a run without such a cancellation keeps the whole invariant, on which the other theorems rest. |
| `PaymentGap.CanceledAfterSending` | api-cobranca/src/disbursements/disbursement-batches.service.ts:398-408 | A run from the empty database in which a batch read as scheduled is requested, approved and sent before it is canceled. |
| `PaymentTheorems.RunKeeps` | api-cobranca/src/disbursements/disbursement-sender.service.ts:58-262 | The invariant of rows, workers, wires and provider holds after every event of every run. |
| `PaymentInvariant.AwaitingIsAsRequested` | api-cobranca/src/disbursements/disbursement-approval.service.ts:468-507 | A request still awaiting is always as it was asked, so the approver's tap never finds a changed batch. |
| `PaymentInvariant.RequestKeeps` | api-cobranca/src/disbursements/disbursement-approval.service.ts:101-192 | Asking for approval keeps the invariant of all payment rows. |
| `PaymentInvariant.DecideKeeps` | api-cobranca/src/disbursements/disbursement-approval.service.ts:219-257 | Approving or rejecting keeps it. |
| `PaymentInvariant.RetryFailedKeeps` | api-cobranca/src/disbursements/disbursement-batches.service.ts:518-573 | Retrying failures keeps it. |
| `PaymentInvariant.ConfigureKeeps` | api-cobranca/src/disbursements/disbursement-settings.service.ts:180-252 | Switching off, on, or to another approver keeps it. |
| `PaymentWorld.CallServed` | api-cobranca/src/disbursements/disbursement-batches.service.ts:227-573 | No administrative transaction changes what an approved batch pays, revives an item or touches one in flight. |
| `PaymentSending.TransmitKeeps` | api-cobranca/src/disbursements/disbursement-sender.service.ts:107-125 | A claimed item goes on the wire as approved and only once. |
| `PaymentSending.AnswerKeeps` | api-cobranca/src/disbursements/disbursement-sender.service.ts:115-137 | Recording any answer of the provider, late or lost, keeps what statuses say true. |
| `PaymentSending.WebhookKeeps` | api-cobranca/src/disbursements/disbursement-webhook.service.ts:45-107 | A notice of the provider moves only items in flight, to the result it reports. |
| `PaymentSending.CheckKeeps` | api-cobranca/src/disbursements/disbursement-sender.service.ts:180-228 | So does a check of an item at the provider. |
| `PaymentContent.LinesFixTotal` | api-cobranca/src/disbursements/disbursement-batches.service.ts:116-148 | Two item lists with the same hashed lines have the same total. |
| `PaymentContent.FindLine` | api-cobranca/src/disbursements/disbursement-batches.service.ts:116-148 | Every hashed line comes from an item of the batch. |
| `PaymentEffects.RequestFreezes` | api-cobranca/src/disbursements/disbursement-approval.service.ts:101-192 | A request hashes the batch with collaborators as registered now and amounts as typed; only its own items change. |
| `PaymentEffects.TapDecides` | api-cobranca/src/disbursements/disbursement-approval.service.ts:219-257 | A tap on an awaiting request always decides: items stay payable, or all end. |
| `PaymentEffects.SwitchOffStops` | api-cobranca/src/disbursements/disbursement-settings.service.ts:206-238 | Switching off leaves nothing of the company scheduled, awaiting, repeating or unsent, and no sent item changes. |
| `PaymentSwitch.UnsentExactly` | api-cobranca/src/disbursements/disbursement-sender.service.ts:107-134 | Over every run after a switch-off in which the feature stays off, an item is requested or approved and unsent exactly when a send of it was turned away for its rate and no sender claimed it, gave up its batch, or the feature was switched off again since. |
| `PaymentSwitch.UnsentWasSending` | api-cobranca/src/disbursements/disbursement-settings.service.ts:206-238 | Only an item that was SENDING at the switch can end so. |
| `PaymentRuns.TurnedAwayAfterSwitch` | api-cobranca/src/disbursements/disbursement-sender.service.ts:104-134 | From every state with an approved unsent item and an idle sender, seven steps send it, switch the feature off, record the rate limit and leave it unsent. |
| `PaymentRuns.LeftBehind` | api-cobranca/src/disbursements/disbursement-sender.service.ts:104-134 | A run from the empty database that ends so. |
| `PaymentEffects.LateCancelSound` | api-cobranca/src/disbursements/disbursement-batches.service.ts:398-408 | A batch canceled by the end of its repetition without a second look at its status keeps the invariant exactly when it was not approved meanwhile; otherwise it is canceled under a standing approval. |
| `PaymentEffects.RetryCopies` | api-cobranca/src/disbursements/disbursement-batches.service.ts:542-567 | A retry has exactly one item for each failed item of an active collaborator, same amount, current destination. |
| `PaymentTheorems.EndedIsTrue` | api-cobranca/src/disbursements/disbursement-sender.service.ts:229-262 | In every run a completed batch has only items the provider paid, and one completed with failures has an item the provider never pays and no request still undecided. |
| `PaymentService.ContentHash` | api-cobranca/src/disbursements/disbursement-batches.service.ts:116-148 | The hashed content is the reference, the account, the exact total and the collection of lines, in any item order. |
| `PaymentService.PaymentStore.CreateBatch` | api-cobranca/src/disbursements/disbursement-batches.service.ts:227-275 | Leaves exactly the database of `Create`, or refuses with its reason and changes nothing. |
| `PaymentService.PaymentStore.UpdateBatch` | api-cobranca/src/disbursements/disbursement-batches.service.ts:279-334 | The same for an edit with version control. |
| `PaymentService.PaymentStore.ScheduleBatch` | api-cobranca/src/disbursements/disbursement-batches.service.ts:337-368 | The same for scheduling a draft. |
| `PaymentService.PaymentStore.CancelBatch` | api-cobranca/src/disbursements/disbursement-batches.service.ts:411-442 | The same for a cancellation before the approval. |
| `PaymentService.PaymentStore.EndRepetition` | api-cobranca/src/disbursements/disbursement-batches.service.ts:371-408 | The same for ending a repetition and its upcoming batches, nothing coming in between. |
| `PaymentService.PaymentStore.RetryFailedItems` | api-cobranca/src/disbursements/disbursement-batches.service.ts:518-573 | The same for a retry, returning the open one on a double click. |
| `PaymentService.PaymentStore.RequestApproval` | api-cobranca/src/disbursements/disbursement-approval.service.ts:101-192 | The same for an approval request, immediate or scheduled. |
| `PaymentService.PaymentStore.CloseRequest` | api-cobranca/src/disbursements/disbursement-approval.service.ts:436-465 | The same for a request that expires or is held. |
| `PaymentService.PaymentStore.CheckStillAsRequested` | api-cobranca/src/disbursements/disbursement-approval.service.ts:468-507 | Recomputes the hash in a loop and answers exactly `StillAsRequested`. |
| `PaymentService.PaymentStore.DecideApproval` | api-cobranca/src/disbursements/disbursement-approval.service.ts:219-257 | The same for the approver's tap. |
| `PaymentService.PaymentStore.ConfigureFeature` | api-cobranca/src/disbursements/disbursement-settings.service.ts:164-204 | The same for the switch and the approver's phone. |
| `PaymentService.PaymentStore.CancelEverythingUnsent` | api-cobranca/src/disbursements/disbursement-settings.service.ts:207-238 | The same for everything a switch-off stops. |
| `PaymentService.PaymentStore.SendBatch` | api-cobranca/src/disbursements/disbursement-sender.service.ts:104-137 | The sending loop claims, sends and records item by item and stops at the first rate limit. |
| `PaymentService.PaymentStore.ApplyNotice` | api-cobranca/src/disbursements/disbursement-webhook.service.ts:45-107 | Applied exactly if the notice is of a known item in flight, from the paying key, no refund and of a known result, and then the item is paid or failed as it says; every other answer has its exact condition and changes nothing. |
| `PaymentService.PaymentStore.CompleteBatch` | api-cobranca/src/disbursements/disbursement-sender.service.ts:233-262 | Leaves exactly the database of `CompleteFinished`. |
| `PaymentMeaning.CreateMeans` | api-cobranca/src/disbursements/disbursement-batches.service.ts:243-275 | A new batch has one pending item for each line, with that line's collaborator, amount, registered name and destination, and no other; other rows stay, the hashed total is the sum of the lines, and lines are refused for a repeated collaborator, a total too high, or the first collaborator missing or inactive. |
| `PaymentMeaning.OccurrenceMeans` | api-cobranca/src/disbursements/disbursement-scheduler.service.ts:167-199 | The same for the next payment of a repetition, whose collaborators may be inactive. |
| `PaymentMeaning.UpdateMeans` | api-cobranca/src/disbursements/disbursement-batches.service.ts:295-334 | An edit in the version seen puts the items of its lines in the place of all items and counts the version on; refused for another company, a batch already asked for, a stale version or its lines. |
| `PaymentMeaning.ScheduleMeans` | api-cobranca/src/disbursements/disbursement-batches.service.ts:345-368 | Only a draft of the company, in the version seen, becomes scheduled, and nothing else changes. |
| `PaymentMeaning.CancelMeans` | api-cobranca/src/disbursements/disbursement-batches.service.ts:411-442 | Before the approval a batch is canceled with its pending items and awaiting requests, and nothing else. |
| `PaymentMeaning.EndScheduleRows` | api-cobranca/src/disbursements/disbursement-batches.service.ts:371-408 | Each batch, item and request after the end of a repetition: those of its scheduled batches end, all others stay. |
| `PaymentMeaning.EndScheduleMeans` | api-cobranca/src/disbursements/disbursement-batches.service.ts:371-397 | The end of a repetition is refused for another company or an older version only, and a second end changes nothing. |
| `PaymentMeaning.ToDraftMeans` | api-cobranca/src/disbursements/disbursement-scheduler.service.ts:202-216 | A scheduled batch that cannot be asked for goes back to draft, and nothing else changes. |
| `PaymentMeaning.RetryMeans` | api-cobranca/src/disbursements/disbursement-batches.service.ts:518-573 | A retry is refused without failures to pay again or after one that ran to its end, the open one is handed back, and otherwise a draft is made. |
| `PaymentMeaning.RequestMeans` | api-cobranca/src/disbursements/disbursement-approval.service.ts:101-192 | A request is refused for each reason in turn, and otherwise makes one new awaiting approval of the hashed content, under the next request number; no other batch or request changes. |
| `PaymentMeaning.CloseMeans` | api-cobranca/src/disbursements/disbursement-approval.service.ts:436-465 | Only an awaiting request ends; its batch goes along if it waits for this request, its pending items then if the request expired, and nothing else changes. |
| `PaymentMeaning.DecideMeans` | api-cobranca/src/disbursements/disbursement-approval.service.ts:219-257 | A tap on an awaiting request moves it, its batch and, if it rejects, its items, and nothing else. |
| `PaymentMeaning.StillMeans` | api-cobranca/src/disbursements/disbursement-approval.service.ts:468-507 | A request is as it was asked exactly if it is the current one of its batch, hash, reference, account and lines are those shown, the feature is on and the approver the same. |
| `PaymentMeaning.StaleTapMeans` | api-cobranca/src/disbursements/disbursement-approval.service.ts:219-245 | A tap on any other request invalidates it and sends its batch back to draft. |
| `PaymentMeaning.DecideOnce` | api-cobranca/src/disbursements/disbursement-approval.service.ts:210-224 | A tap on a request that does not await changes nothing. |
| `PaymentMeaning.ConfigureMeans` | api-cobranca/src/disbursements/disbursement-settings.service.ts:180-204 | Refused for an older version only; switched on for the same approver only the settings change. |
| `PaymentMeaning.SwitchOffMeans` | api-cobranca/src/disbursements/disbursement-settings.service.ts:206-252 | Every batch, item, request and repetition after a switch-off, by what it was before. |
| `PaymentMeaning.NewApproverMeans` | api-cobranca/src/disbursements/disbursement-settings.service.ts:240-252 | With another approver what awaits goes back to draft, or to its schedule, and nothing else changes. |
| `PaymentMeaning.AnswerMeans` | api-cobranca/src/disbursements/disbursement-sender.service.ts:363-402 | Each answer of the provider moves an item still being sent to one status and no other row. |
| `PaymentMeaning.CheckMeans` | api-cobranca/src/disbursements/disbursement-sender.service.ts:180-228 | A check moves the item to what the provider knows if it is still as read; not found proves nothing. |
| `PaymentMeaning.NoticeMeans` | api-cobranca/src/disbursements/disbursement-webhook.service.ts:72-106 | A notice moves an item in flight to paid or failed and nothing else. |
| `PaymentMeaning.BulkMeans` | api-cobranca/src/disbursements/disbursement-sender.service.ts:356-361 | Giving up a batch fails exactly its pending items; a page of lost sends becomes uncertain. |
| `PaymentMeaning.CompleteMeans` | api-cobranca/src/disbursements/disbursement-sender.service.ts:233-262 | A batch in progress ends exactly when every item is paid, failed or canceled, completed exactly when all were paid. |
| `PaymentMeaning.StatusesMean` | api-cobranca/src/disbursements/disbursement-batches.service.ts:23-32 | Which statuses the theorems call editable, open, paying, dead, in flight and final. |
| `PaymentService.SentMeans` | api-cobranca/src/disbursements/disbursement-sender.service.ts:107-137 | What the sending loop does to each item of its queue: claimed, sent as stored and recorded until the first rate limit, untouched after it. |
| `Occurrences.Repetition.constructor` | api-cobranca/src/disbursements/disbursement-batches.service.ts:444-487 | A repetition starts with its first payment on the first date, and the invariant of its payments. |
| `Occurrences.FirstOccurrence` | api-cobranca/src/disbursements/disbursement-schedule.ts:40-58 | Occurrence 1 is the first date. |
| `Occurrences.OccurrencesIncrease` | api-cobranca/src/disbursements/disbursement-schedule.ts:36-58 | For every unit and step, a later occurrence has a later date. |
| `Occurrences.MonthlyClamped` | api-cobranca/src/disbursements/disbursement-schedule.ts:50-57 | A monthly payment is that many months after the first, on its day or the last day of a shorter month, with no drift. |
| `Occurrences.EvenlySpaced` | api-cobranca/src/disbursements/disbursement-schedule.ts:46-49 | Daily and weekly payments are exactly n - 1 steps of days after the first. |
| `Occurrences.WithinIsPrefix` | api-cobranca/src/disbursements/disbursement-schedule.ts:61-70 | If an occurrence belongs to the repetition, so do all before it. |
| `Occurrences.WithinBound` | api-cobranca/src/disbursements/disbursement-schedule.ts:61-70 | A repetition with an end date or a maximum has at most that many occurrences. |
| `Occurrences.WithinMeans` | api-cobranca/src/disbursements/disbursement-schedule.ts:61-70 | An occurrence belongs to a repetition exactly if it is not past the number of payments nor its date past the end date. |
| `Occurrences.StartMeans` | api-cobranca/src/disbursements/disbursement-batches.service.ts:444-470 | A repetition is refused for fewer than two payments, for two ways to end, or for an end not after its start, in this order. |
| `Occurrences.BoundMeans` | api-cobranca/src/disbursements/disbursement-schedule.ts:61-70 | The bound is the number of payments, or else the days from the first date to the end date, both counted. |
| `Occurrences.Repetition.CreateNext` | api-cobranca/src/disbursements/disbursement-scheduler.service.ts:129-200 | Creates exactly the next occurrence, or ends the repetition when none is left or nobody is to be paid. |
| `Occurrences.Repetition.RunTicks` | api-cobranca/src/disbursements/disbursement-scheduler.service.ts:114-200 | Over any ticks one payment is created for each look that found nothing waiting while it is active, so a bounded repetition ends within its occurrences left and one more look; if somebody was always left to pay, its payments are exactly the occurrences within it. |
| `DispatchTheorems.AtMostOneTransmission` | api-cobranca/src/communications/outbound-intent.service.ts:309-482 | Of all transmissions of an intent at most one may have reached, or may still reach, the provider. |
| `DispatchTheorems.TransmittedStaysClosed` | api-cobranca/src/communications/outbound-intent.service.ts:309-482 | An intent with such a transmission is SENDING, UNCERTAIN or ACCEPTED. |
| `DispatchTheorems.AcceptedIsTrue` | api-cobranca/src/communications/outbound-intent.service.ts:330-365 | ACCEPTED and an external id come together, and the id is one the provider gave for that intent. |
| `DispatchTheorems.AcceptedForever` | api-cobranca/src/communications/outbound-intent.service.ts:309-482 | No later event changes an accepted intent. |
| `DispatchTheorems.HolderCommits` | api-cobranca/src/communications/outbound-intent.service.ts:326-392 | The commit of a worker with the provider's answer always applies, or was applied before, even after its lease expired. |
| `DispatchTheorems.OneLiveIntent` | api-cobranca/src/communications/template-resume.service.ts:284-327 | Over all generations of a logical key at most one intent is pending, sending, uncertain or accepted. |
| `DispatchTheorems.OneMessage` | api-cobranca/src/communications/template-resume.service.ts:191-281 | At most one message of a logical key can reach its recipient, however often it is held and resumed. |
| `DispatchTheorems.ConfirmationReplays` | api-cobranca/src/communications/template-resume.service.ts:204-211 | At any later time the same key returns the stored result and changes nothing; any other key is refused. |
| `DispatchTheorems.FirstConfirmationWins` | api-cobranca/src/communications/template-resume.service.ts:243-265 | Once one review resumed or closed a held message, every other review that previewed it is refused for ever. |
| `DispatchTheorems.OvertakenIsRefused` | api-cobranca/src/communications/template-resume.service.ts:243-256 | A review of an older version of a hold is refused, whatever else it contains. |
| `DispatchWorld.ConfirmServed` | api-cobranca/src/communications/template-resume.service.ts:191-281 | A confirmation adds pending successors and changes nothing that may have left. |
| `DispatchWorld.BlockServed` | api-cobranca/src/communications/template-pending.service.ts:57-165 | Holding never touches an intent that may have left. |
| `DispatchWorld.PrepareServed` | api-cobranca/src/templates/template-send-preparer.service.ts:56-111 | A first or renewed reservation makes a new generation only when none of the key is live. |
| `DispatchWorld.FailKeeps` | api-cobranca/src/communications/outbound-intent.service.ts:395-450 | A recorded failure that denies the transmission is true of all transmissions of the intent. |
| `DispatchWorld.RecoverKeeps` | api-cobranca/src/communications/outbound-intent.service.ts:454-489 | Recovery of expired leases keeps every promise of workers and intents. |
| `DispatchService.DispatchStore.ClaimIntent` | api-cobranca/src/communications/outbound-intent.service.ts:309-323 | Claims exactly a pending intent whose time came. |
| `DispatchService.DispatchStore.CommitWithRetry` | api-cobranca/src/communications/outbound-intent.service.ts:332-392 | Commits the acceptance exactly if one of three tries gets through and the claim, or its recovery, still stands. |
| `DispatchService.DispatchStore.RecordSendFailure` | api-cobranca/src/communications/outbound-intent.service.ts:395-450 | Records uncertain, retry or failed as the error and the phase of the send demand, under the lease only. |
| `DispatchService.DispatchStore.RecoverExpired` | api-cobranca/src/communications/outbound-intent.service.ts:454-489 | Marks exactly the expired claims of the page uncertain. |
| `DispatchService.DispatchStore.BlockSend` | api-cobranca/src/communications/template-pending.service.ts:57-165 | Leaves exactly the rows of `Block`: the intent held if it may be, the hold created, counted or reopened. |
| `DispatchService.DispatchStore.PrepareSend` | api-cobranca/src/templates/template-send-preparer.service.ts:56-111 | Leaves exactly the rows of `Prepare`. |
| `DispatchService.DispatchStore.SuccessorGeneration` | api-cobranca/src/communications/template-resume.service.ts:498-513 | Finds the next generation of a logical key. |
| `DispatchService.DispatchStore.EvaluateHold` | api-cobranca/src/communications/template-resume.service.ts:284-397 | Resumes exactly on hold, with nothing accepted or on its way and an allowed verdict, with that snapshot; in the same place an obsolete verdict closes. |
| `DispatchService.DispatchStore.PreviewHolds` | api-cobranca/src/communications/template-resume.service.ts:95-150 | Stores the evaluation of every hold asked for, or refuses. |
| `DispatchService.DispatchStore.ApplyItems` | api-cobranca/src/communications/template-resume.service.ts:239-266 | Revalidates and applies every item in turn, or undoes all of them at the first that changed. |
| `DispatchService.DispatchStore.ConfirmReview` | api-cobranca/src/communications/template-resume.service.ts:191-281 | Leaves exactly the rows of `Confirm`, with its answer in every case. |
| `DispatchMeaning.ClaimMeans` | api-cobranca/src/communications/outbound-intent.service.ts:309-323 | Exactly a pending intent whose time came is claimed, under the token, for a minute. |
| `DispatchMeaning.CommitMeans` | api-cobranca/src/communications/outbound-intent.service.ts:330-365 | The acceptance is written exactly for the lease that sent it or after its claim was taken for lost, and to no other intent. |
| `DispatchMeaning.FailureMeans` | api-cobranca/src/communications/outbound-intent.service.ts:395-450 | Uncertain, pending again after the wait, or failed, exactly as phase and error of the failed send demand. |
| `DispatchMeaning.RecoverMeans` | api-cobranca/src/communications/outbound-intent.service.ts:454-489 | An expired claim of the page becomes uncertain and every other intent stays. |
| `DispatchMeaning.BlockHolds` | api-cobranca/src/communications/template-pending.service.ts:90-165 | A first hold is made, a closed one stays, a repeated reason is counted and a new one takes the hold a version on. |
| `DispatchMeaning.BlockStops` | api-cobranca/src/communications/template-pending.service.ts:61-88 | The intent is held exactly if nobody claimed it or it is known not to have left. |
| `DispatchMeaning.PrepareMeans` | api-cobranca/src/templates/template-send-preparer.service.ts:56-111 | A key is reserved once; only a failure that never left is renewed, as a generation past the highest, and a send not allowed is held. |
| `DispatchMeaning.EvaluateMeans` | api-cobranca/src/communications/template-resume.service.ts:284-397 | On hold with nothing accepted or on its way, an allowed verdict resumes with its snapshot and an obsolete one closes with its reason; an accepted intent closes, anything else waits. |
| `DispatchMeaning.PreviewMeans` | api-cobranca/src/communications/template-resume.service.ts:95-150 | One to fifty different holds that exist are stored as they are evaluated; anything else is refused. |
| `DispatchMeaning.ConfirmMeans` | api-cobranca/src/communications/template-resume.service.ts:191-281 | After a first confirmation: each new intent is of an item whose verdict is allowed and whose key had nothing live, each closed key had an accepted intent or an obsolete verdict, and every other key keeps hold and intents. |
| `DispatchMeaning.ConfirmRefuses` | api-cobranca/src/communications/template-resume.service.ts:191-256 | A confirmation is refused exactly if the review is missing, confirmed by another key, its key used, or expired, in this order; past these only because a hold changed. |
| `DispatchMeaning.UnchangedConfirms` | api-cobranca/src/communications/template-resume.service.ts:239-266 | A review whose holds are all still evaluated as stored is confirmed. |
| `ReplyModel.ValidateCoherent` | api-cobranca/src/communications/reply-attribution.ts:46-86 | A validated context belongs together and to the recipient, keeps company and invoice, and validates again unchanged. |
| `ReplyModel.SettledBelongs` | api-cobranca/src/communications/reply-attribution.ts:104-173 | A settled reply carries nothing, or the company and invoice of the message it cites, coherent with its contact. |
| `ReplyModel.RepliesAlike` | api-cobranca/src/communications/reply-attribution.ts:197-205 | All replies to one message resolve alike, so one resolution serves them all. |
| `ReplyThreads.AfterReevaluation` | api-cobranca/src/communications/reply-attribution.ts:179-272 | Whatever was stale before: an automatic reply is settled if the message it cites changed, and left as it was if not; only exactly six citations below is it left although its message changed. |
| `ReplyThreads.StaleExactly` | api-cobranca/src/communications/reply-attribution.ts:179-272 | If only direct replies were stale before, a reply is stale afterwards exactly when it is six citations below, under a message that changed and has not expired. |
| `ReplyThreads.ShallowThreadsSettle` | api-cobranca/src/communications/reply-attribution.ts:175-184 | With no automatic reply exactly six citations below, every automatic reply equals its recomputation afterwards. |
| `ReplyThreads.FollowsSettled` | api-cobranca/src/communications/reply-attribution.ts:104-173 | A reply to a settled reply resolves to the same attribution until the message it cites expires. |
| `ReplyThreads.ChainFollows` | api-cobranca/src/communications/reply-attribution.ts:179-272 | Five citations down an open chain, every reply carries what the changed message hands on, whatever it carried before. |
| `ReplyThreads.SixthReplyStays` | api-cobranca/src/communications/reply-attribution.ts:179-184 | The sixth reply of an open chain keeps its row, which is right exactly if it already said what the message hands on. |
| `ReplyRuns.SevenMessages` | api-cobranca/src/communications/reply-attribution.ts:179-184 | A settled thread of seven messages whose first gets a company: five replies take it, the sixth is left stale. |
| `ReplyThreads.Descended` | api-cobranca/src/communications/reply-attribution.ts:238-267 | Updating a reply and re-evaluating its own replies settles its thread and logs each changed row once. |
| `ReplyThreads.Composed` | api-cobranca/src/communications/reply-attribution.ts:207-271 | Threads of different replies are independent, so results and log entries of batches add up. |
| `ReplyService.ReplyStore.ResolveInbound` | api-cobranca/src/communications/reply-attribution.ts:144-173 | Resolves interactive token, then citation, then nothing. |
| `ReplyService.ReplyStore.UpdateAttribution` | api-cobranca/src/communications/reply-attribution.ts:238-265 | Changes a dependent only if its revision and method are those read, with one log entry one revision higher. |
| `ReplyService.ReplyStore.ReevaluateReplies` | api-cobranca/src/communications/reply-attribution.ts:179-272 | For any batch size, settles every automatic reply of the threads down to the depth left and touches nothing else. |
| `ReplyService.ReplyStore.AssignContext` | api-cobranca/src/communications/communication-attribution.service.ts:43-161 | A context is applied under its revision, for any method; in any database every automatic reply whose cited message changed is settled, but six citations below, and all others keep their rows. |
| `ReplyService.AssignedSettles` | api-cobranca/src/communications/communication-attribution.service.ts:43-161 | From a settled database, all replies are settled again exactly but those six citations below under a changed, unexpired message. |
| `ReplyMeaning.ValidateMeans` | api-cobranca/src/communications/reply-attribution.ts:46-86 | Without a company only the empty context is valid; with one, exactly what belongs together and to the contact, with the debtor of its invoice. |
| `ReplyMeaning.InheritMeans` | api-cobranca/src/communications/reply-attribution.ts:104-142 | A message hands its context on exactly within its conversation and channel while it is kept. |
| `ReplyMeaning.ResolveMeans` | api-cobranca/src/communications/reply-attribution.ts:144-173 | The message a button was issued with decides, or else the one cited; without either there is no context. |
| `ReplyMeaning.AutomaticMeans` | api-cobranca/src/communications/reply-attribution.ts:186-205 | A re-evaluation touches exactly what the program resolved itself, still kept, with a channel and no send of its own. |
| `ReplyMeaning.ParentMeans` | api-cobranca/src/communications/reply-attribution.ts:189-205 | The message cited is the one whose provider id is answered, of that conversation and channel. |
| `ReplyMeaning.UpdateMeans` | api-cobranca/src/communications/reply-attribution.ts:179-265 | A re-attribution changes context, method and revision, the last by one, down to five levels below the changed message. |
| `JsonText.EscapeParses` | api-cobranca/src/communications/message-context.ts:91-92 | Escaping any UTF-16 string, lone surrogates included, is inverted by the parser. |
| `JsonText.PrintParses` | api-cobranca/src/communications/message-context.ts:85-123 | The parser inverts the canonical text of every value, whatever follows it. |
| `JsonText.PrintInjective` | api-cobranca/src/communications/message-context.ts:84-123 | Two values have the same text exactly when they are equal but for key order. |
| `CanonicalJson.CanonicalInjective` | api-cobranca/src/communications/message-context.ts:84-123 | Two accepted object graphs have the same canonical payload exactly when they stand for the same JSON. |
| `CanonicalJson.CycleRejected` | api-cobranca/src/communications/message-context.ts:95-101 | An object that holds itself, at any distance, stands for no JSON value. |
| `CanonicalJson.DenotedProper` | api-cobranca/src/communications/message-context.ts:89-116 | What an accepted graph stands for is proper JSON. |
| `CanonicalJson.Canonicalizer.Visit` | api-cobranca/src/communications/message-context.ts:87-121 | The walk succeeds exactly on graphs of plain JSON within depth 64, prints their value and restores its ancestors. |
| `CanonicalJson.CanonicalPayload` | api-cobranca/src/communications/message-context.ts:85-123 | Accepts exactly such graphs and returns their canonical text; a refusal names a value sixty-five objects deep, or one before that which is no JSON. |
| `JsonMeaning.CharacterMeans` | api-cobranca/src/communications/message-context.ts:91-94 | Each code unit as ECMAScript writes it: short escapes, six lower-case characters for other controls and lone surrogates, all else as it is. |
| `JsonMeaning.StringMeans` | api-cobranca/src/communications/message-context.ts:91-94 | A string is its characters one after the other, surrogate pairs kept. |
| `JsonMeaning.WordsMean` | api-cobranca/src/communications/message-context.ts:90-94 | Null, true, false, digits and quoted strings as JSON writes them. |
| `JsonMeaning.ListMeans` | api-cobranca/src/communications/message-context.ts:104-106 | A list is its items in order with commas between them, in square brackets. |
| `JsonMeaning.RecordMeans` | api-cobranca/src/communications/message-context.ts:114-117 | A record is its fields in ascending key order, each key a string and a colon, with commas between them, in braces. |
| `JsonMeaning.LessMeans` | api-cobranca/src/communications/message-context.ts:115 | Keys compare by the first code unit that differs, a key before those it begins. |
| `JsonMeaning.PlainMeans` | api-cobranca/src/communications/message-context.ts:107-117 | An object stands for a record with exactly its keys and what their values stand for. |
| `JsonMeaning.GraphMeans` | api-cobranca/src/communications/message-context.ts:87-113 | Plain values stand for themselves down to depth 64; symbols, instances and everything else stand for nothing. |
| `JsonMeaning.ArrayMeans` | api-cobranca/src/communications/message-context.ts:105-106 | An array stands for the list of what its items stand for. |
| `CollectionModel.ContactsUnique` | api-cobranca/src/billing/collection-rule-engine.ts:340-354 | The contacts of a rule are fixed by its steps: one for each cumulative day, in day order, with all steps of that day. |
| `CollectionWorld.ContactsSpaced` | api-cobranca/src/billing/collection-rule-engine.ts:171-253 | Whatever counts when a contact is claimed, e-mails that stood in for rejected messages included, is 23 h older than the claim, unless it was put back to be sent later. |
| `CollectionSpacing.PlainRunsStayApart` | api-cobranca/src/billing/collection-rule-engine.ts:171-253 | In every run with neither a revival nor an e-mail standing in, two counted attempts of different claims of one recurrence or lone invoice are 23 h apart. |
| `CollectionSpacing.FallbackApart` | api-cobranca/src/queue/workers/message.worker.ts:448-474 | An e-mail that stands in for a rejected message keeps contacts apart exactly when none of another claim of the scope counts within 23 h of it. |
| `CollectionSpacing.ReviveApart` | api-cobranca/src/communications/template-resume.service.ts:540-556 | A resumed or retried message keeps them apart exactly when none of another claim counts within 23 h of its date. |
| `CollectionSpacing.ApartIffClear` | api-cobranca/src/billing/collection-rule-engine.ts:171-253 | Contacts stay apart at every moment of a run exactly when each of its revivals and e-mails was clear in this sense. |
| `CollectionWorld.EmissionsSpaced` | api-cobranca/src/billing/collection-rule-engine.ts:211-253 | A claim is at least 23 h after every earlier emission message that still counts. |
| `CollectionWorld.NeverGoesBack` | api-cobranca/src/billing/collection-rule-engine.ts:126-136 | Through rule edits and profile changes, a claim made within 23 h of its plan is for a later day than every contact, or e-mail in its stead, that counted before it. |
| `CollectionSpacing.OrderIffOrderly` | api-cobranca/src/billing/collection-rule-engine.ts:126-136 | The days of an invoice's counted contacts rise at every moment of a run exactly when each attempt that starts to count falls in line with those that do. |
| `CollectionSpacing.PlainRunsGoForward` | api-cobranca/src/billing/collection-rule-engine.ts:126-136 | In runs of prompt claims without revivals and e-mails standing in, they rise with time. |
| `CollectionWorld.SkippedForever` | api-cobranca/src/billing/collection-rule-engine.ts:292-322 | A contact passed over keeps its row whatever follows, so it is never sent. |
| `CollectionWorld.ChosenWasUntouched` | api-cobranca/src/billing/collection-rule-engine.ts:121-125 | A plan never chooses a contact one of whose steps has an attempt. |
| `CollectionRuns.RevivalBreaksSpacing` | api-cobranca/src/communications/template-resume.service.ts:540-556 | A run without e-mails standing in, in which resuming a held message puts two counted contacts at the same instant. |
| `CollectionRuns.FallbackBreaksSpacing` | api-cobranca/src/whatsapp/outbound-dispatcher.service.ts:411-433 | A run without revivals in which a message rejected a day late has its e-mail sent a minute after the next contact, for an earlier day. |
| `CollectionService.RuleContacts` | api-cobranca/src/billing/collection-rule-engine.ts:340-354 | Groups the active steps by cumulative day, leaves out days up to -30, and sorts by day. |
| `CollectionService.RuleStore.MinIntervalRuns` | api-cobranca/src/billing/collection-rule-engine.ts:211-253 | The latest counted contact decides exactly whether any is less than 23 h old. |
| `CollectionService.RuleStore.LastRuleContactDay` | api-cobranca/src/billing/collection-rule-engine.ts:256-272 | The day of the last counted attempt decides exactly which days have passed. |
| `CollectionService.RuleStore.PlanContact` | api-cobranca/src/billing/collection-rule-engine.ts:91-164 | Picks the latest eligible due contact, writes exactly the other due ones as skipped, then waits for hours or interval or sends. |
| `CollectionService.RuleStore.ClaimContact` | api-cobranca/src/billing/collection-rule-engine.ts:171-204 | Claims all steps of a contact or none, exactly when none was attempted and the interval has passed. |
| `CollectionMeaning.EligibleMeans` | api-cobranca/src/billing/collection-rule-engine.ts:100-136 | A contact is eligible exactly if its day came, no step of it was tried, no counted message left on its day or later, and, before the due date, its day was not over when the invoice was registered. |
| `CollectionMeaning.PicksMean` | api-cobranca/src/billing/collection-rule-engine.ts:136 | The contact chosen is the eligible one of the latest day, and none only if none is eligible. |
| `CollectionMeaning.ReasonMeans` | api-cobranca/src/billing/collection-rule-engine.ts:130-135 | Passed over as before the registration first, and else as already passed. |
| `CollectionMeaning.SkipsMean` | api-cobranca/src/billing/collection-rule-engine.ts:138-164 | A plan writes a skipped row for every step of the due contacts it did not choose, and no other row. |
| `CollectionMeaning.HoursMean` | api-cobranca/src/billing/collection-rule-engine.ts:150-162 | A contact waits exactly when some step of it has hours and the minute of the day is before or after them. |
| `CollectionMeaning.IntervalMeans` | api-cobranca/src/billing/collection-rule-engine.ts:211-253 | A claim is too soon exactly within 23 hours of a counted rule message or emission of the invoice or its recurrence. |
| `CollectionMeaning.ClaimMeans` | api-cobranca/src/billing/collection-rule-engine.ts:171-204 | A claim is made exactly of at least one step, none of them tried for the invoice, outside the interval. |
| `CollectionMeaning.EntriesInOrder` | api-cobranca/src/billing/collection-rule-engine.ts:340-354 | The entries of a contact are the steps of its day in their order. |
| `CollectionMeaning.ContactsMean` | api-cobranca/src/billing/collection-rule-engine.ts:340-354 | One contact for each day from 29 before the due date on which a step falls, in day order, with the steps of its day. |
| `CollectionMeaning.ActiveMeans` | api-cobranca/src/billing/collection-rule-engine.ts:344 | Exactly the active steps, in their order. |
| `CollectionMeaning.DaysRunUp` | api-cobranca/src/billing/collection-rule-engine.ts:340-354 | The days of the steps run up by their delays. |
| `CollectionMeaning.CountedMeans` | api-cobranca/src/billing/collection-rule-engine.ts:32 | Queued, sent, delivered, opened and clicked messages count, and no others. |
| `CollectionMeaning.MinuteMeans` | api-cobranca/src/billing/collection-rule-engine.ts:149-159 | The minute compared with the hours is that of the São Paulo day. |
| `CollectionMeaning.ScopeMeans` | api-cobranca/src/billing/collection-rule-engine.ts:211-253 | The interval is that of the invoice, or of all invoices of its recurrence in its company. |
| `RuleSchedule.UsedStepsStay` | api-cobranca/src/billing/collection-profile.service.ts:405-502 | A step some invoice got that stays active keeps its id, channel and cumulative day in any listing of the new schedule. |
| `RuleSchedule.UsedStepsRetire` | api-cobranca/src/billing/collection-profile.service.ts:453-461 | A step some invoice got is never deleted: it is retired with its history and only its order changed. |
| `RuleSchedule.ListingUnique` | api-cobranca/src/billing/collection-profile.service.ts:405-423 | With orders that differ, the order of the steps and so their days are fixed. |
| `RuleSchedule.SavedListing` | api-cobranca/src/billing/collection-profile.service.ts:468-502 | After a save the active steps are the incoming ones, on the incoming days. |
| `RuleSchedule.SyncNeverRefused` | api-cobranca/src/billing/collection-profile.service.ts:590-614 | Moving a profile to the standard schedule is never refused for moving a sent step or repeating a slot. |
| `RuleSchedule.ValidateSteps` | api-cobranca/src/billing/collection-profile.service.ts:1026-1052 | Accepts exactly steps with delays in bounds and distinct order and channel, and names the fault that comes first. |
| `RuleSchedule.ScheduleStore.Write` | api-cobranca/src/billing/collection-profile.service.ts:452-503 | Every single write of a save finds its order and channel free, so the unique key is never violated. |
| `RuleSchedule.ScheduleStore.FindMoved` | api-cobranca/src/billing/collection-profile.service.ts:411-438 | Refuses exactly when a sent step would change day or channel. |
| `RuleSchedule.ScheduleStore.SetSteps` | api-cobranca/src/billing/collection-profile.service.ts:389-504 | Refuses exactly invalid or moving saves without a write; otherwise the rows are saved as promised, under the unique key throughout. |
| `RuleMeaning.SavedMeans` | api-cobranca/src/billing/collection-profile.service.ts:468-502 | Each step sent has its row with its order, channel and delay, active, under the id it names once and with that row's attempts, or under a new one. |
| `RuleMeaning.OthersMean` | api-cobranca/src/billing/collection-profile.service.ts:440-467 | Of the other rows retired ones stay, and active ones are deleted if no invoice got them and retired below -1000 otherwise. |
| `RuleMeaning.MovedMeans` | api-cobranca/src/billing/collection-profile.service.ts:411-438 | A save moves a sent step exactly if it names an active one some invoice got on another channel or another running day. |
| `RuleMeaning.InputMeans` | api-cobranca/src/billing/collection-profile.service.ts:1026-1052 | Delays lie from -30 to 365, and no two steps share order and channel. |
| `RuleMeaning.DaysMean` | api-cobranca/src/billing/collection-profile.service.ts:405-423 | Days run up by the delays from the first step on, in the schedule as in what is sent. |
| `RuleMeaning.SlotsMean` | api-cobranca/src/billing/collection-profile.service.ts:452-503 | Unique says that different rows differ in order or channel. |
| `RuleMeaning.SavedSlots` | api-cobranca/src/billing/collection-profile.service.ts:452-503 | After a save different rows differ in order or channel, active ones at orders 0 to 50, retired ones at -1001 or below. |
| `Sorting.SortBy` | api-cobranca/src/billing/collection-rule-engine.ts:343-345 | Sorts by a key, each element used once, equal keys in the order they had. |
| `Pricing.IssueOf` | api-cobranca/src/checkout/checkout-pricing.ts:64-78 | A coupon applies exactly when it is active, in its dates, not used up and valid for the product, and otherwise the first of these that fails is the reason. |
| `Pricing.DiscountKeepsFloor` | api-cobranca/src/checkout/checkout-rules.ts:116-125 | A coupon never takes a price below the floor nor gives more than it says. |
| `Pricing.GrossUp` | api-cobranca/src/checkout/checkout-pricing.ts:121-146 | With the buyer paying, the seller keeps the subtotal or one cent more after the tariff, and the total is the least that covers it. |
| `Pricing.QuoteSound` | api-cobranca/src/checkout/checkout-pricing.ts:106-146 | For every cart, coupon and tariff below 100 %: surcharge, kept amount, floor and fees are within their bounds. |
| `Pricing.DiscountExact` | api-cobranca/src/checkout/checkout-rules.ts:116-125 | A coupon takes all it says, a percentage to the cent below, unless that reaches the floor, and then exactly down to the floor. |
| `Pricing.QuoteAddsUp` | api-cobranca/src/checkout/checkout-pricing.ts:106-120 | The lines are the product and the bumps, each at its own price; only the first is discounted; subtotal and discount are the sum of the prices. |
| `Pricing.QuoteFees` | api-cobranca/src/checkout/checkout-pricing.ts:121-146 | Platform fee and Pix fee are the nearest cent of their parts of subtotal and total, halves up. |
| `Pricing.ItemShares` | api-cobranca/src/checkout/checkout-pricing.ts:153-174 | The shares are those of the largest remainder, adding up to the total. |
| `Pricing.SharesUnique` | api-cobranca/src/checkout/checkout-pricing.ts:163-173 | Weights and total fix the shares. |
| `Pricing.ExactShare` | api-cobranca/src/checkout/checkout-pricing.ts:148-152 | Each share is the floor or the ceiling of its exact proportion. |
| `Pricing.SharesMonotone` | api-cobranca/src/checkout/checkout-pricing.ts:163-173 | A larger weight never gets a smaller share. |
| `Pricing.SharesAddUp` | api-cobranca/src/checkout/checkout-pricing.ts:148-152 | For any order with items the shares add up to the total. |
| `RefundModel.RecordKeeps` | api-cobranca/src/checkout/checkout-refunds.service.ts:58-182 | Under keys of its own every refund keeps the returned fee equal to the rounded fee times refunded over total. |
| `RefundModel.RefundBounds` | api-cobranca/src/checkout/checkout-refunds.service.ts:92-143 | The fee returned with a refund is at most the refund; manual refunds never pass the total; the order is refunded exactly when all is back. |
| `RefundModel.ReplayKnown` | api-cobranca/src/checkout/checkout-refunds.service.ts:72-76 | A refund reported again under its key writes nothing. |
| `RefundRuns.SaleEntersOnce` | api-cobranca/src/checkout/checkout-ledger.service.ts:63-102 | The first settlement of an order enters total, tariff and fee once; any later one enters nothing; refunds keep their sums. |
| `RefundRuns.NetAfterRefunds` | api-cobranca/src/checkout/checkout-ledger.service.ts:63-102 | In every history of settlements and refunds from the empty ledger, refund keys apart, a sold order nets total less tariff, refunds and unreturned fee; fully refunded, exactly minus the tariff. |
| `RefundRuns.RunFollows` | api-cobranca/src/checkout/checkout-refunds.service.ts:58-182 | Such histories keep the ledger invariant and enter every sale as its first settlement said. |
| `RefundModel.CountedIffKeyNew` | api-cobranca/src/checkout/checkout-ledger.service.ts:51-57 | A recorded refund is in the ledger with its amount exactly when no entry carried its key before. |
| `RefundModel.RefundedByHand` | api-cobranca/src/checkout/checkout-finance.service.ts:187-201 | A full refund by hand ends the order as refunded whether or not its key leaves the refund in the ledger. |
| `RefundRuns.ManualKeyReused` | api-cobranca/src/checkout/checkout-finance.service.ts:193-201 | Two sales refunded in full by hand under one key: both end as refunded, and the second keeps its whole net in the ledger. |
| `RefundModel.FeeGrowsSlowly` | api-cobranca/src/checkout/checkout-refunds.service.ts:108-116 | The fee due back never shrinks and grows no faster than the money refunded. |
| `RefundHistory.AskCosts` | api-cobranca/src/checkout/checkout-refunds.service.ts:379-406 | A new request costs exactly the shares of its items, or the rest of the order when it names none. |
| `RefundHistory.RefundsFollowShares` | api-cobranca/src/checkout/checkout-refunds.service.ts:339-440 | From the sale of an order on, when refunds pay their open request: what is back is the shares of the items refunded, the order is refunded exactly when all is back, and its entries net accordingly. |
| `RefundGap.FollowsIffPaid` | api-cobranca/src/checkout/checkout-refunds.service.ts:339-430 | With requests read first and created later: what is back follows the shares of the items refunded all through a run exactly when every refund brought the whole total back or paid just the items it newly marked. |
| `RefundGap.SoundIffCurrent` | api-cobranca/src/checkout/checkout-refunds.service.ts:339-430 | One request at a time, for items still to refund at their shares, all through a run exactly when each request was still current when it was created: nothing open, its items not refunded, the rest unchanged. |
| `RefundGap.TwoOpenOneRefund` | api-cobranca/src/checkout/checkout-refunds.service.ts:144-151 | On every order just sold with two items: both are asked for at once, one refund marks both and pays one. |
| `RefundGap.StaleReadingPaysTwice` | api-cobranca/src/checkout/checkout-refunds.service.ts:339-430 | On every such order: two readings of one item, created and refunded in turn, pay it back twice although no two requests are ever open. |
| `RefundGap.TwoOpenFromSale` | api-cobranca/src/checkout/checkout-refunds.service.ts:144-151 | An order sold from the empty ledger on which the first of the two happens. |
| `RefundService.RefundDesk.RecordRefund` | api-cobranca/src/checkout/checkout-refunds.service.ts:58-182 | Leaves exactly the rows of `Record`, with its refusal or replay answer. |
| `RefundService.RefundDesk.ReadRequest` | api-cobranca/src/checkout/checkout-refunds.service.ts:339-410 | Decides and prices a request exactly as `AskRow`, with shares split in place. |
| `RefundService.RefundDesk.RequestRefund` | api-cobranca/src/checkout/checkout-refunds.service.ts:339-430 | Reading and creating with nothing in between leaves exactly the rows of `Ask`. |
| `RefundService.RefundDesk.EndRequest` | api-cobranca/src/checkout/checkout-refunds.service.ts:224-246 | Withdraws or rejects exactly an open request. |
| `RefundService.RefundDesk.AppendEntry` | api-cobranca/src/checkout/checkout-ledger.service.ts:51-57 | An entry whose key exists is left out, any other is appended. |
| `RefundService.RefundDesk.RecordPaidOrder` | api-cobranca/src/checkout/checkout-ledger.service.ts:63-102 | On a sound ledger the sums of sale, tariff and fee become those of the order the first time and never change again, and the ledger stays sound. |
| `RefundMeaning.RecordRefuses` | api-cobranca/src/checkout/checkout-refunds.service.ts:58-107 | A refund by hand is refused exactly on an order that is not paid, above what is left, or while the open request is held; one of the provider is a fact. |
| `RefundMeaning.RecordMeans` | api-cobranca/src/checkout/checkout-refunds.service.ts:92-182 | A recorded refund enters itself and the fee that comes back, ends the order when all is back, and closes every open request. |
| `RefundMeaning.FeeMeans` | api-cobranca/src/checkout/checkout-refunds.service.ts:108-116 | The fee back is the platform's part of what is back, to the nearest cent. |
| `RefundMeaning.AskRefuses` | api-cobranca/src/checkout/checkout-refunds.service.ts:339-400 | A request is refused exactly for an order not paid, one already open, an item the order has not or one refunded, in this order. |
| `RefundMeaning.AskMeans` | api-cobranca/src/checkout/checkout-refunds.service.ts:379-430 | It costs the rest of the order, or the shares of its items but never more than is left; a buyer's is held for a week. |
| `RefundMeaning.ChosenMeans` | api-cobranca/src/checkout/checkout-refunds.service.ts:379-406 | The shares of the items named, each once. |
| `RefundMeaning.OpenMeans` | api-cobranca/src/checkout/checkout-refunds.service.ts:144-151 | An open request is one of the order still requested. |
| `RefundMeaning.SettleMeans` | api-cobranca/src/checkout/checkout-refunds.service.ts:224-246 | Exactly an open request is withdrawn or turned down. |
| `RefundMeaning.AppendMeans` | api-cobranca/src/checkout/checkout-ledger.service.ts:51-57 | An entry comes last unless its key is taken. |
| `CardWorld.OneAttemptInProgress` | api-cobranca/src/checkout/checkout-card.service.ts:335-380 | However retries, notices and reconciliations race, an order has at most one attempt in progress and three in all. |
| `CardWorld.AttemptsOnlyGoForward` | api-cobranca/src/checkout/checkout-card.service.ts:562-632 | PAID is final, an approval is never undone, and a declined or canceled attempt can only become paid. |
| `CardWorld.SettledPerPayment` | api-cobranca/src/checkout/checkout-payments.service.ts:137-235 | In every run an order is settled once for each attempt that was paid, and stays paid for from then on. |
| `CardWorld.ConfirmSettlesOnce` | api-cobranca/src/checkout/checkout-card.service.ts:603-620 | Confirming an attempt that was not paid leaves its order settled once exactly when no other attempt of it is paid. |
| `CardWorld.SettledOnceIffClean` | api-cobranca/src/checkout/checkout-card.service.ts:598-622 | No order of a run is settled twice exactly when every confirmation found no other paid attempt of its order. |
| `CardWorld.PromptSettlesOnce` | api-cobranca/src/checkout/checkout-card.service.ts:598-622 | With each check and its confirmation uninterrupted no order is settled twice. |
| `CardWorld.ObserveIsCheckAndConfirm` | api-cobranca/src/checkout/checkout-card.service.ts:562-632 | Reading a paid charge with nothing in between is the check and, unless another attempt was paid, the confirmation. |
| `CardRuns.BothChecksFirstSettleTwice` | api-cobranca/src/checkout/checkout-card.service.ts:596-624 | A run in which a declined charge and its retry are both read paid and checked before either is confirmed: the order is settled twice. |
| `CardWorld.ClosedIdleIffOpenReserves` | api-cobranca/src/checkout/checkout-card.service.ts:335-380 | Closed orders have nothing in progress all through a run exactly when no reservation of it met a closed order. |
| `CardWorld.ReserveOnClosed` | api-cobranca/src/checkout/checkout-card.service.ts:335-355 | A closed, idle order stays idle through a reservation exactly when its three attempts are used up. |
| `CardWorld.ClosingFindsAllEnded` | api-cobranca/src/checkout/checkout-card.service.ts:466-489 | In every run, the step that closes an order finds all its attempts declined or canceled. |
| `CardWorld.ClosedLateAndForReason` | api-cobranca/src/checkout/checkout-card.service.ts:466-489 | A closed order is more than ten minutes past its expiry and was never settled; a declined one has a declined card. |
| `CardRuns.StalePayReservesClosedOrder` | api-cobranca/src/checkout/checkout-card.service.ts:276-360 | A run in which a retry let in at the last instant is reserved ten minutes later on the order just closed. |
| `CardService.CardDesk.ReserveAttempt` | api-cobranca/src/checkout/checkout-card.service.ts:335-380 | Reserves exactly when nothing is in progress and attempts are left. |
| `CardService.CardDesk.ObserveCharge` | api-cobranca/src/checkout/checkout-card.service.ts:562-632 | Leaves exactly the rows of `Observe` for any detail read of a charge. |
| `CardService.CardDesk.Confirm` | api-cobranca/src/checkout/checkout-payments.service.ts:137-176 | Marks attempt and order paid once and tells whether it did. |
| `CardService.CardDesk.AskToPay` | api-cobranca/src/checkout/checkout-card.service.ts:298-316 | Lets a retry in exactly when the order is open and in time, nothing is in progress and attempts are left. |
| `CardService.CardDesk.CheckPaid` | api-cobranca/src/checkout/checkout-card.service.ts:598-619 | Notes the charge and finds whether another attempt of a settled order was paid. |
| `CardService.CardDesk.FindOverdue` | api-cobranca/src/checkout/checkout-card.service.ts:466-476 | Reads up to fifty overdue orders, all of them if there are fewer. |
| `CardService.CardDesk.CloseOverdue` | api-cobranca/src/checkout/checkout-card.service.ts:466-499 | Closes exactly the orders it found, each for its reason, and changes nothing else. |
| `CardMeaning.SettlesOnlyAgreed` | api-cobranca/src/checkout/checkout-card.service.ts:562-632 | An order is settled only by a reading of its attempt as paid for the attempt's own total, with installments and charge agreeing where known. |
| `CardMeaning.DisagreementMeans` | api-cobranca/src/checkout/checkout-card.service.ts:570-591 | A reading that disagrees changes no order and moves only a submitting attempt, to uncertain. |
| `CardMeaning.WordMeans` | api-cobranca/src/checkout/checkout-card.service.ts:592-632 | For each status word, which attempts move and where to. |
| `CardMeaning.PaidMeans` | api-cobranca/src/checkout/checkout-card.service.ts:596-624 | A paid charge is noted, and settles its order once unless another attempt did. |
| `CardMeaning.PaidForItsTotal` | api-cobranca/src/checkout/checkout-card.service.ts:562-624 | In every run, whichever attempt is paid or about to be confirmed was read as paid for its own total. |
| `CardMeaning.AskMeans` | api-cobranca/src/checkout/checkout-card.service.ts:298-316 | A retry is let in exactly on a pending order in time, nothing in progress, fewer than three attempts. |
| `CardMeaning.ReserveMeans` | api-cobranca/src/checkout/checkout-card.service.ts:335-380 | The reservation checks progress and attempts again, and adds one submitting attempt. |
| `CardMeaning.SilenceMeans` | api-cobranca/src/checkout/checkout-card.service.ts:520-535 | A lost answer leaves a submission uncertain; half an hour without a charge cancels it. |
| `CardMeaning.CloseMeans` | api-cobranca/src/checkout/checkout-card.service.ts:466-499 | An order ten minutes past its expiry with nothing in progress is due, and closes if that still holds. |
| `CardMeaning.UsedOnce` | api-cobranca/src/checkout/checkout-card.service.ts:335-360 | What a retry, a check or a closing has read is used in one step and not again. |
| `Calendar.DayNumberOrders` | api-cobranca/src/billing/dashboard-period.ts:45-56 | Day numbers order dates and tell them apart. |
| `Calendar.NumberOfDate` | api-cobranca/src/billing/dashboard-period.ts:45-49 | Counting days is the inverse of numbering dates. |
| `Calendar.EpochIs` | api-cobranca/src/billing/dashboard-period.ts:34-43 | The first of January 1970 has the day number the instants count from. |
| `Calendar.InstantsOfDate` | api-cobranca/src/billing/dashboard-period.ts:33-43 | An instant falls on a date exactly between that São Paulo midnight and the next. |
| `Calendar.ShiftMonths` | api-cobranca/src/billing/dashboard-period.ts:58-68 | Shifting months keeps the day or takes the last of a shorter month. |
| `Dashboard.ResolveRange` | api-cobranca/src/billing/dashboard-period.ts:84-145 | Refuses exactly invalid custom periods; otherwise the range, its granularity and a previous window wholly before it are as promised. |
| `Dashboard.Buckets` | api-cobranca/src/billing/dashboard-period.ts:148-165 | Every day, or every month with a day of the range, in order and once. |
| `Dashboard.OneBucket` | api-cobranca/src/billing/dashboard-period.ts:147-165 | A date of the range has exactly one bucket. |
| `Dashboard.NoBucketOutside` | api-cobranca/src/billing/dashboard-period.ts:147-165 | Every bucket has a date of the range. |
| `Dashboard.WindowIsRange` | api-cobranca/src/billing/company-dashboard.service.ts:239-247 | The instants queried are exactly those whose São Paulo date is in the range. |
| `Dashboard.ReceivedSeries` | api-cobranca/src/billing/company-dashboard.service.ts:122-143 | Each bucket holds what was received on its dates, and together they are the received total and count. |
| `Dashboard.ByMethod` | api-cobranca/src/billing/company-dashboard.service.ts:144-156 | Each cell is what was paid by its method. |
| `Dashboard.MethodsAddUp` | api-cobranca/src/billing/company-dashboard.service.ts:144-156 | Sums by method never exceed the received total and equal it when every method is known. |
| `Dashboard.Aging` | api-cobranca/src/billing/company-dashboard.service.ts:158-187 | Each age bucket holds its overdue invoices and together they are the overdue total. |
| `Dashboard.ReceivedMeans` | api-cobranca/src/billing/company-dashboard.service.ts:122-143 | One payment more adds its amount to the bucket of its own day or month, and to no other. |
| `Dashboard.MethodMeans` | api-cobranca/src/billing/company-dashboard.service.ts:144-156 | One payment more adds to the cell of its method: Pix, boleto, card. |
| `Dashboard.AgedMeans` | api-cobranca/src/billing/company-dashboard.service.ts:158-187 | One open invoice more is overdue from the day after it was due, and counts in 1 to 15, 16 to 30, 31 to 60 or more days. |

## Left out

- Controllers, request validation, cron wiring, logging, mail, audit tables and e-mail or page text: only the effect of
  each conditional write matters here. Bounds that request validation sets (20 steps, orders 0 to 50) are
  preconditions where a proof uses them.
- Provider clients and their authentication: their answers are free, except that an answer which denies a send is only
  given for one that did not happen.
- Hash collisions: a content hash is the value it hashes.
- PaymentService.PaymentStore.SendBatch: the balance check and the choice of the page by name are left out, since they
  only decide which pending items are taken; the check that the feature is on may happen at any time before a claim.
- PaymentTheorems.ObligationPaidOnce: a retry draft that a user edits forgets which items it copied, so the
  statement covers unedited retries only.
- PaymentService.PaymentStore.UpdateBatch: "apply to the next ones" (lines copied to the repetition) is left out.
- Occurrences.Repetition.CreateNext: the rows of the batch it creates are those of `PaymentModel.CreateOccurrence`; an
  occurrence is its number and date here.
- DispatchWorld.PrepareServed: template policy, rendering and encryption are one verdict, which may be any; intents
  written before logical keys existed are left out, and so is the message row beside each intent.
- DispatchService.DispatchStore.EvaluateHold: the reasons found in invoices, activations, approvals and templates are
  one verdict of the environment, which may change between preview and confirmation.
- ReplyService.ReplyStore.ReevaluateReplies: rows locked by a concurrent manual correction are covered by the contract
  of `UpdateAttribution` for any row read before; a whole re-evaluation runs alone. Citations are assumed to form no
  cycle, since the provider gives a message its id before anything can cite it.
- CanonicalJson.Canonicalizer.Visit: numbers are their canonical digits, so negative zero is zero; getters and proxies
  are left out.
- CollectionWorld.ContactsSpaced: an attempt is dated at the step that writes it. Undelivered statuses count again only
  by the revival event (a resumed hold or a retried e-mail); the e-mail for a rejected message is the fallback event,
  which the provider's verdict may trigger at any later time.
- CollectionService.RuleStore.PlanContact: the message moment and the query for a received overdue message are left
  out.
- RuleSchedule.ScheduleStore.SetSteps: send hours and template columns are not part of this model; retired steps are
  assumed at or below -1001 and active ones at 0 to 50, which every save keeps.
- Pricing.ItemShares: exact fractions instead of floating point, so ties are exact ties.
- RefundRuns.NetAfterRefunds: an order keeps the total and the fee it was sold with; a second settlement of a card
  order with other installments, which rewrites its total, is not part of this model. The order row is locked, so
  refunds of one order are one after the other.
- RefundHistory.RefundsFollowShares: reading and creating a request are one step here; `RefundGap` parts them.
- RefundService.RefundDesk.RequestRefund: runs alone, like every method of a store; `RefundGap` has the interleavings.
- CardWorld.SettledPerPayment: Pix attempts of the same order, quotes, kept cards and the amounts written to the order
  are left out; the count of settlements stands for sale, access and coupon use.
- CardWorld.OneAttemptInProgress: the limit of tries of a document and the age from which an attempt is looked at only
  narrow when an event happens, so those events may happen at any time here.
- PaymentService.PaymentStore.EndRepetition: reads and cancels its batches at once, and so do the runs of
  `PaymentTheorems`; `PaymentGap` parts the two.
- ReplyService.ReplyStore.AssignContext: who may call it with which method is left out.
- Dashboard.ResolveRange: years before the third, which have no previous year of dates here, and the texts of dates are
  left out; a custom date that does not parse is absent. Collection rates and message statistics are plain sums.
- Upsell offers, coupons and catalog administration, seller webhooks, certificates, API keys, authentication and media
  storage would add only easy members.
