/**
 The rule engine as it runs: contacts built with a running day, a plan that writes what it
 passes over, and a claim made in one locked transaction.
 */
module CollectionService {
  import opened Common
  import opened Calendar
  import opened Sorting
  import opened CollectionModel

  datatype WaitReason = SendWindow | MinInterval

  datatype ContactPlan = NoContact | Wait(reason: WaitReason) | SendNow(contact: Contact)

  // ---- contacts of a rule ------------------------------------------------------------------

  /** One contact per day some active step falls on, the emission left out; `sorted` is the order the steps were taken in. */
  method RuleContacts(steps: seq<Step>) returns (contacts: seq<Contact>, ghost sorted: seq<Step>)
    ensures Ordered(sorted) && multiset(sorted) == multiset(Active(steps)) && TiesKept(Active(steps), sorted)
    ensures Covers(sorted, |sorted|, contacts) && DaysAscend(contacts)
  {
    var active: seq<Step> := [];
    for n := 0 to |steps|
      invariant active == Active(steps[..n])
    {
      assert steps[..n + 1][..n] == steps[..n];
      if steps[n].active { active := active + [steps[n]]; }
    }
    assert steps[..|steps|] == steps;
    var ordered, from := SortBy(active, (x: Step) => x.order);
    var grouped := GroupByDay(ordered);
    ghost var places;
    contacts, places := SortBy(grouped, (c: Contact) => c.day);
    sorted := ordered;
    forall a, b | 0 <= a < b < |ordered| && ordered[a].order == ordered[b].order ensures from[a] < from[b] {
      var key := (x: Step) => x.order;
      assert key(ordered[a]) == key(ordered[b]);
    }
    assert TakenFrom(active, ordered, from);
    SortedAscends(grouped, contacts, places);
    SameListed(ordered, grouped, contacts);
  }

  predicate TakenFrom(steps: seq<Step>, sorted: seq<Step>, from: seq<nat>) {
    && Rearranges(steps, sorted, from)
    && forall a, b :: 0 <= a < b < |sorted| && sorted[a].order == sorted[b].order ==> from[a] < from[b]
  }

  /** Steps of one position stay in their order. */
  ghost predicate TiesKept(steps: seq<Step>, sorted: seq<Step>) { exists from :: TakenFrom(steps, sorted, from) }

  /** The contacts of the active steps in the order of their positions. */
  ghost predicate FollowsRule(steps: seq<Step>, contacts: seq<Contact>) {
    DaysAscend(contacts)
    && exists sorted :: Ordered(sorted) && multiset(sorted) == multiset(Active(steps)) && TiesKept(Active(steps), sorted) && Covers(sorted, |sorted|, contacts)
  }

  method GroupByDay(steps: seq<Step>) returns (contacts: seq<Contact>)
    ensures Covers(steps, |steps|, contacts) && DaysDiffer(contacts)
  {
    contacts := [];
    var day := 0;
    for n := 0 to |steps|
      invariant day == CumulativeDay(steps, n)
      invariant Covers(steps, n, contacts) && DaysDiffer(contacts)
    {
      day := day + steps[n].delay;
      if day > EMISSION_SCHEDULE_DAY {
        ghost var before := contacts;
        var k := FindDay(contacts, day);
        var entry := Entry(steps[n].id, steps[n].channel);
        if k < |contacts| {
          contacts := contacts[k := contacts[k].(entries := contacts[k].entries + [entry])];
          AppendedCovers(steps, n + 1, before, contacts, k);
        } else {
          contacts := contacts + [Contact(day, [entry])];
          AddedCovers(steps, n + 1, before, contacts);
        }
      } else {
        PassedCovers(steps, n + 1, contacts);
      }
    }
  }

  method FindDay(contacts: seq<Contact>, day: int) returns (k: nat)
    ensures k <= |contacts| && (k < |contacts| ==> contacts[k].day == day)
    ensures k == |contacts| ==> !Lists(contacts, day)
  {
    k := 0;
    while k < |contacts| && contacts[k].day != day
      invariant k <= |contacts| && forall j :: 0 <= j < k ==> contacts[j].day != day
    {
      k := k + 1;
    }
  }

  lemma {:induction false} PassedCovers(steps: seq<Step>, n: nat, contacts: seq<Contact>)
    requires 0 < n <= |steps| && Covers(steps, n - 1, contacts) && CumulativeDay(steps, n) <= EMISSION_SCHEDULE_DAY
    ensures Covers(steps, n, contacts)
  {
    forall k | 0 <= k < |contacts| ensures ContactHolds(steps, n, contacts[k]) { assert ContactHolds(steps, n - 1, contacts[k]); }
    forall day ensures DayCovered(steps, n, contacts, day) { assert DayCovered(steps, n - 1, contacts, day); }
  }

  lemma {:induction false} AppendedCovers(steps: seq<Step>, n: nat, before: seq<Contact>, after: seq<Contact>, k: nat)
    requires 0 < n <= |steps| && k < |before| && Covers(steps, n - 1, before) && DaysDiffer(before)
    requires before[k].day == CumulativeDay(steps, n) > EMISSION_SCHEDULE_DAY
    requires after == before[k := before[k].(entries := before[k].entries + [Entry(steps[n - 1].id, steps[n - 1].channel)])]
    ensures Covers(steps, n, after) && DaysDiffer(after)
  {
    forall j | 0 <= j < |after| ensures ContactHolds(steps, n, after[j]) { assert ContactHolds(steps, n - 1, before[j]); }
    forall day ensures DayCovered(steps, n, after, day) {
      assert DayCovered(steps, n - 1, before, day);
      if day == before[k].day { assert after[k].day == day; }
      else if Lists(before, day) {
        var j :| 0 <= j < |before| && before[j].day == day;
        assert after[j].day == day;
      }
    }
  }

  lemma {:induction false} AddedCovers(steps: seq<Step>, n: nat, before: seq<Contact>, after: seq<Contact>)
    requires 0 < n <= |steps| && Covers(steps, n - 1, before) && DaysDiffer(before)
    requires CumulativeDay(steps, n) > EMISSION_SCHEDULE_DAY && !Lists(before, CumulativeDay(steps, n))
    requires after == before + [Contact(CumulativeDay(steps, n), [Entry(steps[n - 1].id, steps[n - 1].channel)])]
    ensures Covers(steps, n, after) && DaysDiffer(after)
  {
    var today := CumulativeDay(steps, n);
    assert DayCovered(steps, n - 1, before, today);
    forall j | 0 <= j < |before| ensures after[j] == before[j] && after[j].day != today {}
    forall j | 0 <= j < |after| ensures ContactHolds(steps, n, after[j]) {
      if j < |before| { assert ContactHolds(steps, n - 1, before[j]); }
    }
    forall day ensures DayCovered(steps, n, after, day) {
      assert DayCovered(steps, n - 1, before, day);
      if day == today { assert after[|before|].day == day; }
      else if Lists(before, day) {
        var j :| 0 <= j < |before| && before[j].day == day;
        assert after[j].day == day;
      }
    }
  }

  lemma {:induction false} SortedAscends(before: seq<Contact>, after: seq<Contact>, from: seq<nat>)
    requires DaysDiffer(before) && Rearranges(before, after, from) && SortedBy(after, (c: Contact) => c.day)
    ensures DaysAscend(after)
  {
    forall a, b | 0 <= a < b < |after| ensures after[a].day < after[b].day {
      assert ((c: Contact) => c.day)(after[a]) <= ((c: Contact) => c.day)(after[b]);
      assert before[from[a]].day != before[from[b]].day;
    }
  }

  lemma {:induction false} SameListed(steps: seq<Step>, before: seq<Contact>, after: seq<Contact>)
    requires Covers(steps, |steps|, before) && multiset(after) == multiset(before)
    ensures Covers(steps, |steps|, after)
  {
    forall k | 0 <= k < |after| ensures ContactHolds(steps, |steps|, after[k]) { assert after[k] in multiset(before); }
    forall day ensures DayCovered(steps, |steps|, after, day) {
      assert DayCovered(steps, |steps|, before, day);
      if Lists(before, day) {
        var j :| 0 <= j < |before| && before[j].day == day;
        assert before[j] in multiset(after);
      }
    }
  }

  // ---- plan and claim --------------------------------------------------------------------

  class RuleStore {
    var invoices: map<InvoiceId, Invoice>
    var attempts: map<Slot, Attempt>
    var emissions: map<EmissionId, Emission>

    constructor ()
      ensures Rows() == Db(map[], map[], map[])
    {
      invoices, attempts, emissions := map[], map[], map[];
    }

    function Rows(): Db
      reads this
    {
      Db(invoices, attempts, emissions)
    }

    method LastAttemptAt(i: InvoiceId) returns (last: Option<Instant>)
      ensures last.None? ==> forall s :: s in attempts ==> !CountedAttempt(Rows(), i, s)
      ensures last.Some? ==> (exists s :: s in attempts && CountedAttempt(Rows(), i, s) && attempts[s].created == last.value)
      ensures last.Some? ==> forall s :: s in attempts && CountedAttempt(Rows(), i, s) ==> attempts[s].created <= last.value
    {
      last := None;
      var todo := attempts.Keys;
      while todo != {}
        invariant todo <= attempts.Keys
        invariant last.None? ==> forall s :: s in attempts && s !in todo ==> !CountedAttempt(Rows(), i, s)
        invariant last.Some? ==> (exists s :: s in attempts && CountedAttempt(Rows(), i, s) && attempts[s].created == last.value)
        invariant last.Some? ==> forall s :: s in attempts && s !in todo && CountedAttempt(Rows(), i, s) ==> attempts[s].created <= last.value
        decreases |todo|
      {
        var s :| s in todo;
        if CountedAttempt(Rows(), i, s) && (last.None? || last.value < attempts[s].created) { last := Some(attempts[s].created); }
        todo := todo - {s};
      }
    }

    method LastEmissionAt(i: InvoiceId) returns (last: Option<Instant>)
      ensures last.None? ==> forall e :: e in emissions ==> !CountedEmission(Rows(), i, e)
      ensures last.Some? ==> (exists e :: e in emissions && CountedEmission(Rows(), i, e) && emissions[e].created == last.value)
      ensures last.Some? ==> forall e :: e in emissions && CountedEmission(Rows(), i, e) ==> emissions[e].created <= last.value
    {
      last := None;
      var todo := emissions.Keys;
      while todo != {}
        invariant todo <= emissions.Keys
        invariant last.None? ==> forall e :: e in emissions && e !in todo ==> !CountedEmission(Rows(), i, e)
        invariant last.Some? ==> (exists e :: e in emissions && CountedEmission(Rows(), i, e) && emissions[e].created == last.value)
        invariant last.Some? ==> forall e :: e in emissions && e !in todo && CountedEmission(Rows(), i, e) ==> emissions[e].created <= last.value
        decreases |todo|
      {
        var e :| e in todo;
        if CountedEmission(Rows(), i, e) && (last.None? || last.value < emissions[e].created) { last := Some(emissions[e].created); }
        todo := todo - {e};
      }
    }

    /** Nothing before the latest counted contact can matter to the interval. */
    method MinIntervalRuns(i: InvoiceId, now: Instant) returns (r: bool)
      ensures r <==> TooSoon(Rows(), i, now)
    {
      var attempt := LastAttemptAt(i);
      var emission := LastEmissionAt(i);
      var last := if attempt.None? then emission else if emission.None? then attempt
        else Some(Max(attempt.value, emission.value));
      r := last.Some? && now - last.value < MIN_CONTACT_INTERVAL_MS;
    }

    /** How far the counted contacts of this invoice have come, in days of the rule. */
    method LastRuleContactDay(i: InvoiceId) returns (day: Option<int>)
      requires i in invoices
      ensures forall d {:trigger Passed(Rows(), i, d)} :: Passed(Rows(), i, d) <==> (day.Some? && d <= day.value)
    {
      var last: Option<Instant> := None;
      var todo := attempts.Keys;
      while todo != {}
        invariant todo <= attempts.Keys
        invariant last.None? ==> forall s :: s in attempts && s !in todo && s.invoice == i ==> !Counted(attempts[s].status)
        invariant last.Some? ==> (exists s :: s in attempts && s.invoice == i && Counted(attempts[s].status) && attempts[s].created == last.value)
        invariant last.Some? ==> forall s :: s in attempts && s !in todo && s.invoice == i && Counted(attempts[s].status) ==> attempts[s].created <= last.value
        decreases |todo|
      {
        var s :| s in todo;
        if s.invoice == i && Counted(attempts[s].status) && (last.None? || last.value < attempts[s].created) {
          last := Some(attempts[s].created);
        }
        todo := todo - {s};
      }
      day := if last.Some? then Some(SaoPauloDay(last.value) - invoices[i].due) else None;
      forall d ensures Passed(Rows(), i, d) <==> (day.Some? && d <= day.value) {
        if Passed(Rows(), i, d) {
          var s :| s in attempts && s.invoice == i && Counted(attempts[s].status) && d <= SaoPauloDay(attempts[s].created) - invoices[i].due;
          DayGrows(attempts[s].created, last.value);
        }
      }
    }

    /** Chooses, and writes down what it passed over, before it looks at hours and interval. */
    method PlanContact(i: InvoiceId, steps: seq<Step>, now: Instant, at: Instant)
      returns (plan: ContactPlan, ghost contacts: seq<Contact>, ghost chosen: Option<Contact>)
      requires i in invoices
      modifies this`attempts
      ensures FollowsRule(steps, contacts)
      ensures PicksLatest(old(Rows()), i, contacts, now, chosen)
      ensures attempts == WithSkips(old(attempts), SkipsOf(old(Rows()), i, contacts, now, chosen), at)
      ensures plan == (
        if chosen.None? then NoContact
        else if OutsideWindow(steps, chosen.value, now) then Wait(SendWindow)
        else if TooSoon(Rows(), i, now) then Wait(MinInterval)
        else SendNow(chosen.value))
    {
      var list, sorted := RuleContacts(steps);
      contacts := list;
      var day := LastRuleContactDay(i);
      var pick := PickLatest(i, list, day, now);
      chosen := pick;
      ghost var was := Rows();
      WriteSkips(i, list, now, pick, at);
      if pick.None? { return NoContact, contacts, chosen; }
      var outside := IsOutside(steps, pick.value, now);
      if outside { return Wait(SendWindow), contacts, chosen; }
      var soon := MinIntervalRuns(i, now);
      plan := if soon then Wait(MinInterval) else SendNow(pick.value);
    }

    method PickLatest(i: InvoiceId, contacts: seq<Contact>, day: Option<int>, now: Instant) returns (chosen: Option<Contact>)
      requires i in invoices && DaysAscend(contacts)
      requires forall d {:trigger Passed(Rows(), i, d)} :: Passed(Rows(), i, d) <==> (day.Some? && d <= day.value)
      ensures PicksLatest(Rows(), i, contacts, now, chosen)
    {
      chosen := None;
      for n := 0 to |contacts|
        invariant chosen.Some? ==> chosen.value in contacts[..n] && Eligible(Rows(), i, chosen.value, now)
        invariant forall m :: 0 <= m < n && Eligible(Rows(), i, contacts[m], now) ==>
          chosen.Some? && contacts[m].day <= chosen.value.day
      {
        var c := contacts[n];
        var due := c.day <= SaoPauloDay(now) - invoices[i].due && !Attempted(Rows(), i, c);
        var early := c.day < 0 && c.day < SaoPauloDay(invoices[i].created) - invoices[i].due;
        assert Passed(Rows(), i, c.day) <==> (day.Some? && c.day <= day.value);
        if due && !early && !(day.Some? && c.day <= day.value) { chosen := Some(c); }
      }
    }

    method WriteSkips(i: InvoiceId, contacts: seq<Contact>, now: Instant, chosen: Option<Contact>, at: Instant)
      requires i in invoices
      modifies this`attempts
      ensures attempts == WithSkips(old(attempts), SkipsOf(old(Rows()), i, contacts, now, chosen), at)
    {
      ghost var was := Rows();
      var skipped: seq<Contact> := [];
      for n := 0 to |contacts|
        invariant forall k :: 0 <= k < |skipped| ==> skipped[k] in contacts && IsDue(was, i, skipped[k], now) && Some(skipped[k]) != chosen
        invariant forall k :: 0 <= k < n && IsDue(was, i, contacts[k], now) && Some(contacts[k]) != chosen ==> contacts[k] in skipped
      {
        if IsDue(Rows(), i, contacts[n], now) && Some(contacts[n]) != chosen { skipped := skipped + [contacts[n]]; }
      }
      var slots: set<Slot> := {};
      for k := 0 to |skipped|
        invariant slots == set c, e | 0 <= c < k && 0 <= e < |skipped[c].entries| :: Slot(i, skipped[c].entries[e].step, skipped[c].entries[e].channel)
      {
        slots := slots + set e | 0 <= e < |skipped[k].entries| :: Slot(i, skipped[k].entries[e].step, skipped[k].entries[e].channel);
      }
      SkippedSlots(was, i, contacts, now, chosen, skipped);
      attempts := map s | s in attempts.Keys + slots :: if s in attempts then attempts[s] else Attempt(Skipped, at, PassedOver, 0);
    }

    /** One locked transaction: claims either all its steps or nothing. */
    method ClaimContact(i: InvoiceId, claims: seq<Claim>, now: Instant, at: Instant, origin: Origin) returns (claimed: bool)
      modifies this`attempts
      ensures claimed <==> MayClaim(old(Rows()), i, claims, now)
      ensures attempts == if claimed then WithClaims(old(attempts), i, claims, at, origin) else old(attempts)
    {
      if |claims| == 0 { return false; }
      if AnyAttempted(Rows(), i, claims) { return false; }
      var soon := MinIntervalRuns(i, now);
      if soon { return false; }
      for n := 0 to |claims|
        invariant attempts == WithClaims(old(attempts), i, claims[..n], at, origin)
      {
        assert claims[..n + 1][..n] == claims[..n];
        attempts := attempts[SlotOf(i, claims[n]) := Attempt(claims[n].status, at, origin, 0)];
      }
      assert claims[..|claims|] == claims;
      return true;
    }
  }

  method IsOutside(steps: seq<Step>, c: Contact, now: Instant) returns (outside: bool)
    ensures outside <==> OutsideWindow(steps, c, now)
  {
    for e := 0 to |c.entries|
      invariant forall k :: 0 <= k < e ==> !Outside(WindowOf(steps, c.entries[k].step), now)
    {
      var window := WindowOf(steps, c.entries[e].step);
      if window.Some? && (MinuteOfDay(now) < window.value.start || MinuteOfDay(now) > window.value.end) { return true; }
    }
    return false;
  }

  lemma {:induction false} SkippedSlots(db: Db, i: InvoiceId, contacts: seq<Contact>, now: Instant, chosen: Option<Contact>, skipped: seq<Contact>)
    requires i in db.invoices
    requires forall k :: 0 <= k < |skipped| ==> skipped[k] in contacts && IsDue(db, i, skipped[k], now) && Some(skipped[k]) != chosen
    requires forall k :: 0 <= k < |contacts| && IsDue(db, i, contacts[k], now) && Some(contacts[k]) != chosen ==> contacts[k] in skipped
    ensures SkipsOf(db, i, contacts, now, chosen)
      == set c, e | 0 <= c < |skipped| && 0 <= e < |skipped[c].entries| :: Slot(i, skipped[c].entries[e].step, skipped[c].entries[e].channel)
  {
    var slots := set c, e | 0 <= c < |skipped| && 0 <= e < |skipped[c].entries| :: Slot(i, skipped[c].entries[e].step, skipped[c].entries[e].channel);
    forall s ensures s in slots <==> s in SkipsOf(db, i, contacts, now, chosen) {
      if s in slots {
        var c, e :| 0 <= c < |skipped| && 0 <= e < |skipped[c].entries| && s == Slot(i, skipped[c].entries[e].step, skipped[c].entries[e].channel);
        var n :| 0 <= n < |contacts| && contacts[n] == skipped[c];
        assert s == Slot(i, contacts[n].entries[e].step, contacts[n].entries[e].channel);
      }
      if s in SkipsOf(db, i, contacts, now, chosen) {
        var n, e :| 0 <= n < |contacts| && 0 <= e < |contacts[n].entries| && IsDue(db, i, contacts[n], now)
          && Some(contacts[n]) != chosen && s == Slot(i, contacts[n].entries[e].step, contacts[n].entries[e].channel);
        var c :| 0 <= c < |skipped| && skipped[c] == contacts[n];
        assert s == Slot(i, skipped[c].entries[e].step, skipped[c].entries[e].channel);
      }
    }
  }
}
