/**
 The collection rule: which contact an invoice is due, which ones are passed over, and when a
 contact may be claimed. Days are day numbers of the São Paulo calendar.
 */
module CollectionModel {
  import opened Common
  import opened Calendar

  type InvoiceId = nat
  type StepId = nat
  type EmissionId = nat
  type Instant = int

  const MIN_CONTACT_INTERVAL_MS := 23 * HOUR_MS
  const EMISSION_SCHEDULE_DAY := -30

  datatype Channel = WhatsApp | Email

  datatype Status = Queued | Sent | Delivered | Opened | Clicked | Failed | Blocked | Skipped

  /** Times of day in minutes. */
  datatype Window = Window(start: int, end: int)

  datatype Step = Step(id: StepId, order: int, channel: Channel, delay: int, window: Option<Window>, active: bool)

  datatype Entry = Entry(step: StepId, channel: Channel)

  /** Steps of one cumulative day, sent together. */
  datatype Contact = Contact(day: int, entries: seq<Entry>)

  datatype Invoice = Invoice(company: nat, recurrence: Option<nat>, due: int, created: Instant)

  /**
   How an attempt came about; stamps order the steps of a run. A rejected WhatsApp message falls
   back to an e-mail of the same step, for the claim and the day of the message.
   */
  datatype Origin =
    | Claimed(stamp: nat, planStamp: nat, day: int, planned: Instant, claimed: Instant)
    | FellBack(claim: nat, stamp: nat, day: int)
    | PassedOver

  /** `revived` is the stamp of the last time an undelivered attempt was put back to be sent. */
  datatype Attempt = Attempt(status: Status, created: Instant, origin: Origin, revived: nat)

  /** The automatic or requested emission message, or the emission e-mail. */
  datatype Emission = Emission(invoice: InvoiceId, created: Instant, counted: bool, stamp: nat)

  datatype Slot = Slot(invoice: InvoiceId, step: StepId, channel: Channel)

  datatype Db = Db(invoices: map<InvoiceId, Invoice>, attempts: map<Slot, Attempt>, emissions: map<EmissionId, Emission>)

  /** May have reached the payer. */
  predicate Counted(s: Status) { s != Failed && s != Blocked && s != Skipped }

  lemma {:induction false} DayGrows(a: Instant, b: Instant)
    requires a <= b
    ensures SaoPauloDay(a) <= SaoPauloDay(b)
  {}

  // ---- contacts of a rule ------------------------------------------------------------------

  /** The steps that are on, in the order given. */
  function Active(steps: seq<Step>): seq<Step> {
    if steps == [] then [] else
    Active(steps[..|steps| - 1]) + (if steps[|steps| - 1].active then [steps[|steps| - 1]] else [])
  }

  function CumulativeDay(steps: seq<Step>, n: nat): int
    requires n <= |steps|
  {
    if n == 0 then 0 else CumulativeDay(steps, n - 1) + steps[n - 1].delay
  }

  /** Entries of the first n steps that fall on a day, in order. */
  function EntriesOn(steps: seq<Step>, n: nat, day: int): seq<Entry>
    requires n <= |steps|
  {
    if n == 0 then [] else
    EntriesOn(steps, n - 1, day) +
      (if CumulativeDay(steps, n) == day then [Entry(steps[n - 1].id, steps[n - 1].channel)] else [])
  }

  predicate Lists(contacts: seq<Contact>, day: int) {
    exists k :: 0 <= k < |contacts| && contacts[k].day == day
  }

  predicate DaysDiffer(contacts: seq<Contact>) {
    forall a, b :: 0 <= a < b < |contacts| ==> contacts[a].day != contacts[b].day
  }

  predicate DaysAscend(contacts: seq<Contact>) {
    forall a, b :: 0 <= a < b < |contacts| ==> contacts[a].day < contacts[b].day
  }

  predicate ContactHolds(steps: seq<Step>, n: nat, c: Contact)
    requires n <= |steps|
  {
    c.day > EMISSION_SCHEDULE_DAY && c.entries == EntriesOn(steps, n, c.day) && c.entries != []
  }

  /** One contact for every day after the emission on which some of the first n steps fall. */
  ghost predicate Covers(steps: seq<Step>, n: nat, contacts: seq<Contact>)
    requires n <= |steps|
  {
    && (forall k :: 0 <= k < |contacts| ==> ContactHolds(steps, n, contacts[k]))
    && (forall day {:trigger DayCovered(steps, n, contacts, day)} :: DayCovered(steps, n, contacts, day))
  }

  predicate DayCovered(steps: seq<Step>, n: nat, contacts: seq<Contact>, day: int)
    requires n <= |steps|
  {
    day > EMISSION_SCHEDULE_DAY && EntriesOn(steps, n, day) != [] ==> Lists(contacts, day)
  }

  predicate Ordered(steps: seq<Step>) {
    forall a, b :: 0 <= a < b < |steps| ==> steps[a].order <= steps[b].order
  }

  /** The contacts are fixed by the steps: two lists that cover them in day order are the same. */
  lemma {:induction false} ContactsUnique(steps: seq<Step>, a: seq<Contact>, b: seq<Contact>)
    requires Covers(steps, |steps|, a) && DaysAscend(a) && Covers(steps, |steps|, b) && DaysAscend(b)
    ensures a == b
  {
    forall n | 0 <= n < |a| ensures n < |b| && a[n] == b[n] { SameContact(steps, a, b, n); }
    if |a| > 0 { SameContact(steps, a, b, |a| - 1); }
    if |b| > 0 { SameContact(steps, b, a, |b| - 1); }
  }

  lemma {:induction false} SameContact(steps: seq<Step>, a: seq<Contact>, b: seq<Contact>, n: nat)
    requires Covers(steps, |steps|, a) && DaysAscend(a) && Covers(steps, |steps|, b) && DaysAscend(b) && n < |a|
    ensures n < |b| && a[n] == b[n]
  {
    forall m | 0 <= m < n ensures m < |b| && a[m] == b[m] { SameContact(steps, a, b, m); }
    if n > 0 { SameContact(steps, a, b, n - 1); }
    assert a[..n] == b[..n];
    ListedLater(steps, a, b, n);
    ListedLater(steps, b, a, n);
    assert ContactHolds(steps, |steps|, a[n]) && ContactHolds(steps, |steps|, b[n]);
  }

  lemma {:induction false} ListedLater(steps: seq<Step>, a: seq<Contact>, b: seq<Contact>, n: nat)
    requires Covers(steps, |steps|, a) && DaysAscend(a) && Covers(steps, |steps|, b) && DaysAscend(b) && n < |a|
    requires n <= |b| && a[..n] == b[..n]
    ensures n < |b| && b[n].day <= a[n].day
  {
    assert ContactHolds(steps, |steps|, a[n]);
    forall m | 0 <= m < n ensures a[m] == b[m] { assert a[..n][m] == b[..n][m]; }
    assert DayCovered(steps, |steps|, b, a[n].day);
    var k :| 0 <= k < |b| && b[k].day == a[n].day;
  }

  // ---- the plan --------------------------------------------------------------------------

  /** The step was tried for the invoice, on whatever channel. */
  predicate StepTaken(attempts: map<Slot, Attempt>, i: InvoiceId, step: StepId) {
    Slot(i, step, WhatsApp) in attempts || Slot(i, step, Email) in attempts
  }

  predicate Attempted(db: Db, i: InvoiceId, c: Contact) {
    exists n :: 0 <= n < |c.entries| && StepTaken(db.attempts, i, c.entries[n].step)
  }

  predicate IsDue(db: Db, i: InvoiceId, c: Contact, now: Instant)
    requires i in db.invoices
  {
    c.day <= SaoPauloDay(now) - db.invoices[i].due && !Attempted(db, i, c)
  }

  datatype SkipReason = BeforeRegistration | AlreadyPassed | Replaced

  /** A counted message of the invoice left on that day of the calendar, or later. */
  predicate Passed(db: Db, i: InvoiceId, day: int)
    requires i in db.invoices
  {
    exists s :: s in db.attempts && s.invoice == i && Counted(db.attempts[s].status)
      && day <= SaoPauloDay(db.attempts[s].created) - db.invoices[i].due
  }

  function ReasonToSkip(db: Db, i: InvoiceId, day: int): Option<SkipReason>
    requires i in db.invoices
  {
    if day < 0 && day < SaoPauloDay(db.invoices[i].created) - db.invoices[i].due then Some(BeforeRegistration)
    else if Passed(db, i, day) then Some(AlreadyPassed)
    else None
  }

  predicate Eligible(db: Db, i: InvoiceId, c: Contact, now: Instant)
    requires i in db.invoices
  {
    IsDue(db, i, c, now) && ReasonToSkip(db, i, c.day) == None
  }

  /** The most recent eligible contact, if there is one. */
  predicate PicksLatest(db: Db, i: InvoiceId, contacts: seq<Contact>, now: Instant, chosen: Option<Contact>)
    requires i in db.invoices
  {
    && (chosen.Some? ==> chosen.value in contacts && Eligible(db, i, chosen.value, now))
    && (forall n :: 0 <= n < |contacts| && Eligible(db, i, contacts[n], now) ==>
         chosen.Some? && contacts[n].day <= chosen.value.day)
  }

  /** Slots passed over by a plan: those of every due contact but the chosen one. */
  ghost function SkipsOf(db: Db, i: InvoiceId, contacts: seq<Contact>, now: Instant, chosen: Option<Contact>): set<Slot>
    requires i in db.invoices
  {
    set n, e | 0 <= n < |contacts| && 0 <= e < |contacts[n].entries| && IsDue(db, i, contacts[n], now)
      && Some(contacts[n]) != chosen :: Slot(i, contacts[n].entries[e].step, contacts[n].entries[e].channel)
  }

  /** Rows that exist stay as they are. */
  function WithSkips(attempts: map<Slot, Attempt>, skips: set<Slot>, at: Instant): map<Slot, Attempt> {
    map s | s in attempts.Keys + skips :: if s in attempts then attempts[s] else Attempt(Skipped, at, PassedOver, 0)
  }

  predicate Names(c: Contact, step: StepId, channel: Channel) {
    exists e :: 0 <= e < |c.entries| && c.entries[e] == Entry(step, channel)
  }

  // ---- the hours of a step -------------------------------------------------------------------

  function MinuteOfDay(now: Instant): int { ((now - SAO_PAULO_OFFSET_MS) % DAY_MS) / 60000 }

  function WindowOf(steps: seq<Step>, id: StepId): Option<Window> {
    if steps == [] then None else if steps[0].id == id then steps[0].window else WindowOf(steps[1..], id)
  }

  predicate Outside(window: Option<Window>, now: Instant) {
    window.Some? && (MinuteOfDay(now) < window.value.start || MinuteOfDay(now) > window.value.end)
  }

  predicate OutsideWindow(steps: seq<Step>, c: Contact, now: Instant) {
    exists e :: 0 <= e < |c.entries| && Outside(WindowOf(steps, c.entries[e].step), now)
  }

  // ---- spacing ---------------------------------------------------------------------------

  /** Invoices of one recurrence share their contacts; any other invoice stands alone. */
  predicate SameScope(db: Db, i: InvoiceId, j: InvoiceId) {
    && i in db.invoices && j in db.invoices && db.invoices[i].company == db.invoices[j].company
    && if db.invoices[i].recurrence.Some? then db.invoices[j].recurrence == db.invoices[i].recurrence else i == j
  }

  predicate CountedAttempt(db: Db, i: InvoiceId, s: Slot) {
    s in db.attempts && Counted(db.attempts[s].status) && SameScope(db, i, s.invoice)
  }

  predicate CountedEmission(db: Db, i: InvoiceId, e: EmissionId) {
    e in db.emissions && db.emissions[e].counted && SameScope(db, i, db.emissions[e].invoice)
  }

  predicate TooSoon(db: Db, i: InvoiceId, now: Instant) {
    || (exists s :: s in db.attempts && CountedAttempt(db, i, s) && now - db.attempts[s].created < MIN_CONTACT_INTERVAL_MS)
    || (exists e :: e in db.emissions && CountedEmission(db, i, e) && now - db.emissions[e].created < MIN_CONTACT_INTERVAL_MS)
  }

  // ---- claims ----------------------------------------------------------------------------

  datatype Claim = Claim(step: StepId, channel: Channel, status: Status)

  predicate AnyAttempted(db: Db, i: InvoiceId, claims: seq<Claim>) {
    exists n :: 0 <= n < |claims| && StepTaken(db.attempts, i, claims[n].step)
  }

  predicate MayClaim(db: Db, i: InvoiceId, claims: seq<Claim>, now: Instant) {
    claims != [] && !AnyAttempted(db, i, claims) && !TooSoon(db, i, now)
  }

  function SlotOf(i: InvoiceId, c: Claim): Slot { Slot(i, c.step, c.channel) }

  /** The rows of a claim, all created at once. */
  function WithClaims(attempts: map<Slot, Attempt>, i: InvoiceId, claims: seq<Claim>, at: Instant, origin: Origin): map<Slot, Attempt>
    decreases |claims|
  {
    if claims == [] then attempts else
    var last := claims[|claims| - 1];
    WithClaims(attempts, i, claims[..|claims| - 1], at, origin)[SlotOf(i, last) := Attempt(last.status, at, origin, 0)]
  }

  predicate Written(i: InvoiceId, claims: seq<Claim>, s: Slot, status: Status) {
    exists n :: 0 <= n < |claims| && SlotOf(i, claims[n]) == s && claims[n].status == status
  }

  /** A claim adds its own rows, all alike but for their status, and touches no other. */
  lemma {:induction false} ClaimRows(attempts: map<Slot, Attempt>, i: InvoiceId, claims: seq<Claim>, at: Instant, origin: Origin)
    requires forall n :: 0 <= n < |claims| ==> SlotOf(i, claims[n]) !in attempts
    ensures var after := WithClaims(attempts, i, claims, at, origin);
      && (forall s :: s in attempts ==> s in after && after[s] == attempts[s])
      && (forall s {:trigger s in after} :: s in after && s !in attempts ==>
           && s.invoice == i && after[s] == Attempt(after[s].status, at, origin, 0) && Written(i, claims, s, after[s].status))
      && (forall n :: 0 <= n < |claims| ==> SlotOf(i, claims[n]) in after)
    decreases |claims|
  {
    if claims != [] {
      var front := claims[..|claims| - 1];
      forall n | 0 <= n < |front| ensures front[n] == claims[n] {}
      ClaimRows(attempts, i, front, at, origin);
      var before, after := WithClaims(attempts, i, front, at, origin), WithClaims(attempts, i, claims, at, origin);
      forall s | s in after && s !in attempts ensures Written(i, claims, s, after[s].status) {
        if s == SlotOf(i, claims[|claims| - 1]) { assert claims[|claims| - 1].status == after[s].status; }
        else {
          var n :| 0 <= n < |front| && SlotOf(i, front[n]) == s && front[n].status == before[s].status;
          assert claims[n] == front[n];
        }
      }
      forall n | 0 <= n < |claims| ensures SlotOf(i, claims[n]) in after {
        if n < |front| { assert front[n] == claims[n]; }
      }
    }
  }
}
