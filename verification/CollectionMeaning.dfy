/** What the collection rule decides, in days, hours and rows, whatever it is computed by. */
module CollectionMeaning {
  import opened Common
  import opened Calendar
  import opened CollectionModel

  // ---- the contacts of a rule -------------------------------------------------------------------

  /** The days of the steps run up by their delays. */
  lemma {:induction false} DaysRunUp(steps: seq<Step>, n: nat)
    requires n < |steps|
    ensures CumulativeDay(steps, 0) == 0 && CumulativeDay(steps, n + 1) == CumulativeDay(steps, n) + steps[n].delay
  {}

  /** A step's entry is in the contact of the day it falls on, and each step there has its entry. */
  lemma {:induction false} EntriesMean(steps: seq<Step>, n: nat, day: int, e: Entry)
    requires n <= |steps|
    ensures e in EntriesOn(steps, n, day) <==>
      exists m :: 0 <= m < n && CumulativeDay(steps, m + 1) == day && steps[m].id == e.step && steps[m].channel == e.channel
  {
    if n > 0 {
      EntriesMean(steps, n - 1, day, e);
      if exists m :: 0 <= m < n && CumulativeDay(steps, m + 1) == day && steps[m].id == e.step && steps[m].channel == e.channel {
        var m :| 0 <= m < n && CumulativeDay(steps, m + 1) == day && steps[m].id == e.step && steps[m].channel == e.channel;
        if m == n - 1 { assert e == Entry(steps[m].id, steps[m].channel); }
      }
    }
  }

  /** Steps of one day, in the order of their positions. */
  function FallingOn(steps: seq<Step>, n: nat, day: int): nat
    requires n <= |steps|
  {
    if n == 0 then 0 else FallingOn(steps, n - 1, day) + (if CumulativeDay(steps, n) == day then 1 else 0)
  }

  lemma {:induction false} EntriesInOrder(steps: seq<Step>, n: nat, m: nat, day: int)
    requires m < n <= |steps| && CumulativeDay(steps, m + 1) == day
    ensures |EntriesOn(steps, n, day)| == FallingOn(steps, n, day) && FallingOn(steps, m, day) < |EntriesOn(steps, n, day)|
    ensures EntriesOn(steps, n, day)[FallingOn(steps, m, day)] == Entry(steps[m].id, steps[m].channel)
    decreases n
  {
    EntriesCount(steps, n, day);
    EntriesCount(steps, n - 1, day);
    if m < n - 1 { EntriesInOrder(steps, n - 1, m, day); }
  }

  lemma {:induction false} EntriesCount(steps: seq<Step>, n: nat, day: int)
    requires n <= |steps|
    ensures |EntriesOn(steps, n, day)| == FallingOn(steps, n, day)
  {
    if n > 0 { EntriesCount(steps, n - 1, day); }
  }

  /** Every active step and no other, as often as it is there and in that order. */
  lemma {:induction false} ActiveMeans(steps: seq<Step>, x: Step)
    ensures multiset(Active(steps))[x] == if x.active then multiset(steps)[x] else 0
    ensures Active([]) == [] && Active(steps + [x]) == if x.active then Active(steps) + [x] else Active(steps)
  {
    assert (steps + [x])[..|steps|] == steps;
    if steps != [] {
      var front, last := steps[..|steps| - 1], steps[|steps| - 1];
      ActiveMeans(front, x);
      assert steps == front + [last];
    }
  }

  /** The step at a position falls on that day. */
  predicate FallsAt(steps: seq<Step>, m: nat, day: int) { m < |steps| && CumulativeDay(steps, m + 1) == day }

  /** One contact for each day after the thirtieth before the due date on which a step falls, in day order, with the steps of its day. */
  lemma {:induction false} ContactsMean(steps: seq<Step>, contacts: seq<Contact>)
    ensures Ordered(steps) <==> forall a, b :: 0 <= a < b < |steps| ==> steps[a].order <= steps[b].order
    ensures Covers(steps, |steps|, contacts) && DaysAscend(contacts) <==> (
      && (forall a, b :: 0 <= a < b < |contacts| ==> contacts[a].day < contacts[b].day)
      && (forall k :: 0 <= k < |contacts| ==>
           contacts[k].day >= -29 && contacts[k].entries == EntriesOn(steps, |steps|, contacts[k].day) && contacts[k].entries != [])
      && (forall m: nat, day :: FallsAt(steps, m, day) && day >= -29 ==> exists k :: 0 <= k < |contacts| && contacts[k].day == day))
  {
    forall day ensures DayCovered(steps, |steps|, contacts, day) <==>
      (day >= -29 && (exists m: nat :: FallsAt(steps, m, day)) ==> exists k :: 0 <= k < |contacts| && contacts[k].day == day)
    {
      FallsOn(steps, |steps|, day);
    }
    if Covers(steps, |steps|, contacts) {
      forall m: nat, day | FallsAt(steps, m, day) && day >= -29 ensures exists k :: 0 <= k < |contacts| && contacts[k].day == day {
        assert DayCovered(steps, |steps|, contacts, day);
      }
    }
  }

  lemma {:induction false} FallsOn(steps: seq<Step>, n: nat, day: int)
    requires n <= |steps|
    ensures EntriesOn(steps, n, day) != [] <==> exists m: nat :: m < n && FallsAt(steps, m, day)
  {
    if n > 0 {
      FallsOn(steps, n - 1, day);
      if CumulativeDay(steps, n) == day { assert FallsAt(steps, n - 1, day); }
      if m: nat :| m < n && FallsAt(steps, m, day) { assert m < n - 1 || m == n - 1; }
    }
  }

  // ---- the plan ---------------------------------------------------------------------------------

  /** Every message but one that failed, is held or was passed over. */
  lemma {:induction false} CountedMeans(s: Status)
    ensures Counted(s) <==> s in {Queued, Sent, Delivered, Opened, Clicked}
  {}

  /** The day of the calendar a contact is for. */
  function DateOf(db: Db, i: InvoiceId, c: Contact): int
    requires i in db.invoices
  {
    db.invoices[i].due + c.day
  }

  predicate Untried(db: Db, i: InvoiceId, c: Contact) {
    forall s :: s in db.attempts && s.invoice == i ==> forall e :: 0 <= e < |c.entries| ==> c.entries[e].step != s.step
  }

  /**
   A contact may be sent when its day came and none of its steps was tried, unless it is before the
   due date and its day was over when the invoice was registered, or a counted message left on
   its day or later.
   */
  lemma {:induction false} EligibleMeans(db: Db, i: InvoiceId, c: Contact, now: Instant)
    requires i in db.invoices
    ensures IsDue(db, i, c, now) <==> DateOf(db, i, c) <= SaoPauloDay(now) && Untried(db, i, c)
    ensures Eligible(db, i, c, now) <==> (
      && DateOf(db, i, c) <= SaoPauloDay(now) && Untried(db, i, c)
      && (c.day >= 0 || DateOf(db, i, c) >= SaoPauloDay(db.invoices[i].created))
      && forall s :: s in db.attempts && s.invoice == i && Counted(db.attempts[s].status) ==> SaoPauloDay(db.attempts[s].created) < DateOf(db, i, c))
  {
    if Attempted(db, i, c) {
      var e :| 0 <= e < |c.entries| && StepTaken(db.attempts, i, c.entries[e].step);
      var s := if Slot(i, c.entries[e].step, WhatsApp) in db.attempts then Slot(i, c.entries[e].step, WhatsApp) else Slot(i, c.entries[e].step, Email);
      assert s in db.attempts && s.invoice == i && c.entries[e].step == s.step;
    }
    if !Untried(db, i, c) {
      var s, e :| s in db.attempts && s.invoice == i && 0 <= e < |c.entries| && c.entries[e].step == s.step;
      assert s == Slot(i, s.step, s.channel) && (s.channel == WhatsApp || s.channel == Email);
      assert StepTaken(db.attempts, i, c.entries[e].step);
    }
  }

  /** The eligible contact of the latest day, and none only if none is eligible. */
  lemma {:induction false} PicksMean(db: Db, i: InvoiceId, contacts: seq<Contact>, now: Instant, k: nat)
    requires i in db.invoices && k < |contacts| && forall a, b :: 0 <= a < b < |contacts| ==> contacts[a].day < contacts[b].day
    ensures PicksLatest(db, i, contacts, now, None) <==> forall n :: 0 <= n < |contacts| ==> !Eligible(db, i, contacts[n], now)
    ensures PicksLatest(db, i, contacts, now, Some(contacts[k])) <==>
      Eligible(db, i, contacts[k], now) && forall n :: k < n < |contacts| ==> !Eligible(db, i, contacts[n], now)
  {
    if PicksLatest(db, i, contacts, now, Some(contacts[k])) {
      forall n | k < n < |contacts| ensures !Eligible(db, i, contacts[n], now) {}
    }
  }

  /** Before the registration, or else passed by a counted message. */
  lemma {:induction false} ReasonMeans(db: Db, i: InvoiceId, c: Contact)
    requires i in db.invoices
    ensures ReasonToSkip(db, i, c.day) == Some(BeforeRegistration) <==>
      c.day < 0 && DateOf(db, i, c) < SaoPauloDay(db.invoices[i].created)
    ensures ReasonToSkip(db, i, c.day) == Some(AlreadyPassed) <==> (
      && (c.day >= 0 || DateOf(db, i, c) >= SaoPauloDay(db.invoices[i].created))
      && exists s :: s in db.attempts && s.invoice == i && Counted(db.attempts[s].status) && SaoPauloDay(db.attempts[s].created) >= DateOf(db, i, c))
  {}

  /** A plan writes a skipped row for every step of the due contacts it did not choose, and leaves all other rows. */
  lemma {:induction false} SkipsMean(db: Db, i: InvoiceId, contacts: seq<Contact>, now: Instant, chosen: Option<Contact>, at: Instant, s: Slot)
    requires i in db.invoices
    ensures var after := WithSkips(db.attempts, SkipsOf(db, i, contacts, now, chosen), at);
      && (s in db.attempts ==> s in after && after[s] == db.attempts[s])
      && (s in after && s !in db.attempts ==> after[s] == Attempt(Skipped, at, PassedOver, 0))
      && (s !in db.attempts ==> (s in after <==>
           exists n, e :: 0 <= n < |contacts| && 0 <= e < |contacts[n].entries| && Some(contacts[n]) != chosen
             && DateOf(db, i, contacts[n]) <= SaoPauloDay(now) && Untried(db, i, contacts[n])
             && s == Slot(i, contacts[n].entries[e].step, contacts[n].entries[e].channel)))
  {
    forall n | 0 <= n < |contacts| ensures IsDue(db, i, contacts[n], now) <==> DateOf(db, i, contacts[n]) <= SaoPauloDay(now) && Untried(db, i, contacts[n]) {
      EligibleMeans(db, i, contacts[n], now);
    }
  }

  // ---- hours ------------------------------------------------------------------------------------

  /** The minute of the São Paulo day. */
  lemma {:induction false} MinuteMeans(now: Instant)
    ensures var m, d := MinuteOfDay(now), SaoPauloDay(now);
      0 <= m < 24 * 60 && d * DAY_MS + m * 60000 <= now - SAO_PAULO_OFFSET_MS < d * DAY_MS + (m + 1) * 60000
  {
    var t := now - SAO_PAULO_OFFSET_MS;
    var d, r := t / DAY_MS, t % DAY_MS;
    assert t == d * DAY_MS + r && 0 <= r < DAY_MS;
    assert MinuteOfDay(now) == r / 60000;
  }

  predicate FirstWithId(steps: seq<Step>, k: nat, id: StepId) {
    k < |steps| && steps[k].id == id && forall j: nat :: j < k ==> steps[j].id != id
  }

  lemma {:induction false} WindowMeans(steps: seq<Step>, id: StepId, k: nat)
    requires FirstWithId(steps, k, id)
    ensures WindowOf(steps, id) == steps[k].window
  {
    if k > 0 {
      forall j: nat | j < k - 1 ensures steps[1..][j].id != id { assert steps[1..][j] == steps[j + 1]; }
      WindowMeans(steps[1..], id, k - 1);
    }
  }

  lemma {:induction false} NoWindow(steps: seq<Step>, id: StepId)
    requires forall k :: 0 <= k < |steps| ==> steps[k].id != id
    ensures WindowOf(steps, id) == None
  {
    if steps != [] { NoWindow(steps[1..], id); }
  }

  /** A contact waits exactly when some step of it has hours and it is earlier than they begin or later than they end. */
  lemma {:induction false} HoursMean(steps: seq<Step>, c: Contact, now: Instant)
    ensures OutsideWindow(steps, c, now) <==>
      exists e: nat, k: nat :: e < |c.entries| && FirstWithId(steps, k, c.entries[e].step) && steps[k].window.Some?
        && !(steps[k].window.value.start <= MinuteOfDay(now) <= steps[k].window.value.end)
  {
    if OutsideWindow(steps, c, now) {
      var e: nat :| e < |c.entries| && Outside(WindowOf(steps, c.entries[e].step), now);
      var id := c.entries[e].step;
      if forall k :: 0 <= k < |steps| ==> steps[k].id != id { NoWindow(steps, id); }
      var k := FirstIndex(steps, id);
      WindowMeans(steps, id, k);
      assert FirstWithId(steps, k, c.entries[e].step);
    }
    forall e: nat, k: nat | e < |c.entries| && FirstWithId(steps, k, c.entries[e].step) ensures WindowOf(steps, c.entries[e].step) == steps[k].window {
      WindowMeans(steps, c.entries[e].step, k);
    }
  }

  lemma {:induction false} FirstIndex(steps: seq<Step>, id: StepId) returns (k: nat)
    requires exists j :: 0 <= j < |steps| && steps[j].id == id
    ensures FirstWithId(steps, k, id)
  {
    k := 0;
    while steps[k].id != id
      invariant k < |steps| && forall j: nat :: j < k ==> steps[j].id != id
      decreases |steps| - k
    {
      k := k + 1;
    }
  }

  // ---- the interval and the claim -----------------------------------------------------------------

  /** The invoice alone, or all of its recurrence in its company. */
  predicate Shares(db: Db, i: InvoiceId, j: InvoiceId) {
    && i in db.invoices && j in db.invoices && db.invoices[i].company == db.invoices[j].company
    && (i == j || (db.invoices[i].recurrence.Some? && db.invoices[j].recurrence == db.invoices[i].recurrence))
  }

  lemma {:induction false} ScopeMeans(db: Db, i: InvoiceId, j: InvoiceId)
    ensures SameScope(db, i, j) <==> Shares(db, i, j)
  {}

  /** Less than twenty-three hours after a counted rule message or emission. */
  lemma {:induction false} IntervalMeans(db: Db, i: InvoiceId, now: Instant)
    ensures TooSoon(db, i, now) <==> (
      || (exists s :: s in db.attempts && Counted(db.attempts[s].status) && Shares(db, i, s.invoice) && now < db.attempts[s].created + 23 * 3600 * 1000)
      || (exists e :: e in db.emissions && db.emissions[e].counted && Shares(db, i, db.emissions[e].invoice) && now < db.emissions[e].created + 23 * 3600 * 1000))
  {
    if exists s :: s in db.attempts && Counted(db.attempts[s].status) && Shares(db, i, s.invoice) && now < db.attempts[s].created + 23 * 3600 * 1000 {
      var s :| s in db.attempts && Counted(db.attempts[s].status) && Shares(db, i, s.invoice) && now < db.attempts[s].created + 23 * 3600 * 1000;
      assert CountedAttempt(db, i, s);
    }
    if exists e :: e in db.emissions && db.emissions[e].counted && Shares(db, i, db.emissions[e].invoice) && now < db.emissions[e].created + 23 * 3600 * 1000 {
      var e :| e in db.emissions && db.emissions[e].counted && Shares(db, i, db.emissions[e].invoice) && now < db.emissions[e].created + 23 * 3600 * 1000;
      assert CountedEmission(db, i, e);
    }
  }

  /** A claim is of something, of steps never tried for the invoice, outside the interval. */
  lemma {:induction false} ClaimMeans(db: Db, i: InvoiceId, claims: seq<Claim>, now: Instant)
    ensures MayClaim(db, i, claims, now) <==> (
      && |claims| >= 1 && !TooSoon(db, i, now)
      && forall n, s :: 0 <= n < |claims| && s in db.attempts && s.invoice == i ==> s.step != claims[n].step)
  {
    if AnyAttempted(db, i, claims) {
      var n :| 0 <= n < |claims| && StepTaken(db.attempts, i, claims[n].step);
      var s := if Slot(i, claims[n].step, WhatsApp) in db.attempts then Slot(i, claims[n].step, WhatsApp) else Slot(i, claims[n].step, Email);
      assert s in db.attempts && s.invoice == i && s.step == claims[n].step;
    }
    if n, s :| 0 <= n < |claims| && s in db.attempts && s.invoice == i && s.step == claims[n].step {
      assert s == Slot(i, s.step, s.channel) && (s.channel == WhatsApp || s.channel == Email);
      assert StepTaken(db.attempts, i, claims[n].step);
    }
  }
}
