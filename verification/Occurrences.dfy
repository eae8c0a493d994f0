/** Scheduled payments: the date of each occurrence and the repetition that creates them in turn. */
module Occurrences {
  import opened Common
  import opened Calendar

  datatype Unit = EveryDay | EveryWeek | EveryMonth

  /** The day of the first date, that many months on, or the last day of a shorter month. */
  function MonthsOn(first: Date, steps: nat): (d: Date)
    requires IsDate(first)
    ensures IsDate(d) && MonthIndex(d) == MonthIndex(first) + steps
  {
    var month := first.month - 1 + steps;
    var year := first.year + month / 12;
    Date(year, month % 12 + 1, Min(first.day, MonthLength(year, month % 12 + 1)))
  }

  function DaysOn(first: Date, days: nat): (d: Date)
    requires IsDate(first)
    ensures IsDate(d) && DayNumber(d) == DayNumber(first) + days
  {
    FirstDay(first);
    AddDays(first, days)
  }

  /** Date of occurrence n, counted from the first date. */
  function OccurrenceDate(first: Date, unit: Unit, every: nat, n: nat): (d: Date)
    requires IsDate(first) && n >= 1
    ensures IsDate(d)
  {
    var steps: nat := (n - 1) * every;
    match unit
    case EveryDay => DaysOn(first, steps)
    case EveryWeek => DaysOn(first, steps * 7)
    case EveryMonth => MonthsOn(first, steps)
  }

  lemma {:induction false} StepsGrow(every: nat, n: nat, m: nat)
    requires every >= 1 && 1 <= n < m
    ensures (n - 1) * every + 1 <= (m - 1) * every
  {
    assert (m - 1) * every == (n - 1) * every + (m - n) * every;
    assert (m - n) * every >= 1;
  }

  lemma {:induction false} FirstOccurrence(first: Date, unit: Unit, every: nat)
    requires IsDate(first)
    ensures OccurrenceDate(first, unit, every, 1) == first
  {
    if unit != EveryMonth { DayNumberOrders(DaysOn(first, 0), first); }
  }

  /** A monthly payment falls on its day, or on the last day of a shorter month, and never drifts. */
  lemma {:induction false} MonthlyClamped(first: Date, every: nat, n: nat)
    requires IsDate(first) && n >= 1
    ensures var d := OccurrenceDate(first, EveryMonth, every, n);
      && MonthIndex(d) == MonthIndex(first) + (n - 1) * every
      && d.day == Min(first.day, MonthLength(d.year, d.month))
      && d == ShiftMonths(first, (n - 1) * every)
  {}

  /** Daily and weekly payments are exactly that many days apart. */
  lemma {:induction false} EvenlySpaced(first: Date, unit: Unit, every: nat, n: nat)
    requires IsDate(first) && n >= 1 && unit != EveryMonth
    ensures DaysBetween(first, OccurrenceDate(first, unit, every, n)) == (n - 1) * every * (if unit == EveryWeek then 7 else 1)
  {}

  lemma {:induction false} OccurrencesIncrease(first: Date, unit: Unit, every: nat, n: nat, m: nat)
    requires IsDate(first) && every >= 1 && 1 <= n < m
    ensures Earlier(OccurrenceDate(first, unit, every, n), OccurrenceDate(first, unit, every, m))
  {
    StepsGrow(every, n, m);
    var a, b := OccurrenceDate(first, unit, every, n), OccurrenceDate(first, unit, every, m);
    if unit == EveryMonth {
      MonthlyClamped(first, every, n);
      MonthlyClamped(first, every, m);
      MonthIndexOrders(a, b);
    } else {
      EvenlySpaced(first, unit, every, n);
      EvenlySpaced(first, unit, every, m);
      DayNumberOrders(a, b);
    }
  }

  lemma {:induction false} OccurrenceAfterDays(first: Date, unit: Unit, every: nat, n: nat)
    requires IsDate(first) && every >= 1 && n >= 1
    ensures DayNumber(first) + n - 1 <= DayNumber(OccurrenceDate(first, unit, every, n))
  {
    if n == 1 {
      FirstOccurrence(first, unit, every);
    } else {
      OccurrenceAfterDays(first, unit, every, n - 1);
      OccurrencesIncrease(first, unit, every, n - 1, n);
      DayLater(OccurrenceDate(first, unit, every, n - 1), OccurrenceDate(first, unit, every, n));
    }
  }

  lemma {:induction false} DayLater(a: Date, b: Date)
    requires IsDate(a) && IsDate(b) && Earlier(a, b)
    ensures DayNumber(a) + 1 <= DayNumber(b)
  {
    DayNumberOrders(a, b);
  }

  // ---- repetitions -----------------------------------------------------------------------

  datatype Rule = Rule(first: Date, unit: Unit, every: nat, endsOn: Option<Date>, most: Option<nat>)

  predicate RuleFits(r: Rule) { IsDate(r.first) && r.every >= 1 && (r.endsOn.Some? ==> IsDate(r.endsOn.value)) }

  predicate Within(r: Rule, n: nat)
    requires RuleFits(r) && n >= 1
  {
    && (r.most.Some? ==> n <= r.most.value)
    && (r.endsOn.Some? ==> !Earlier(r.endsOn.value, OccurrenceDate(r.first, r.unit, r.every, n)))
  }

  /** With a number of payments exactly that many belong to it, with an end date exactly those until then, with neither all. */
  lemma {:induction false} WithinMeans(r: Rule, n: nat)
    requires RuleFits(r) && n >= 1
    ensures Within(r, n) <==> (
      && (r.most.None? || n <= r.most.value)
      && (r.endsOn.None? || DayNumber(OccurrenceDate(r.first, r.unit, r.every, n)) <= DayNumber(r.endsOn.value)))
  {
    if r.endsOn.Some? {
      DayNumberOrders(r.endsOn.value, OccurrenceDate(r.first, r.unit, r.every, n));
      DayNumberOrders(OccurrenceDate(r.first, r.unit, r.every, n), r.endsOn.value);
    }
  }

  /** Occurrences within the repetition come without gaps from the first. */
  lemma {:induction false} WithinIsPrefix(r: Rule, m: nat, n: nat)
    requires RuleFits(r) && 1 <= m < n && Within(r, n)
    ensures Within(r, m)
  {
    OccurrencesIncrease(r.first, r.unit, r.every, m, n);
  }

  /** A repetition that ends on a date or after a number of payments has finitely many. */
  function Bound(r: Rule): nat
    requires RuleFits(r) && (r.endsOn.Some? || r.most.Some?)
  {
    if r.most.Some? then r.most.value else Max(0, DaysBetween(r.first, r.endsOn.value) + 1)
  }

  lemma {:induction false} BoundMeans(r: Rule)
    requires RuleFits(r) && (r.endsOn.Some? || r.most.Some?)
    ensures r.most.Some? ==> Bound(r) == r.most.value
    ensures r.most.None? ==> var days := DayNumber(r.endsOn.value) - DayNumber(r.first); Bound(r) == if days < 0 then 0 else days + 1
  {}

  lemma {:induction false} WithinBound(r: Rule, n: nat)
    requires RuleFits(r) && (r.endsOn.Some? || r.most.Some?) && n >= 1 && Within(r, n)
    ensures n <= Bound(r)
  {
    if r.most.None? {
      OccurrenceAfterDays(r.first, r.unit, r.every, n);
      DayNumberOrders(r.endsOn.value, OccurrenceDate(r.first, r.unit, r.every, n));
    }
  }

  /** A payment created for its date. */
  datatype Payment = Payment(occurrence: nat, date: Date)

  predicate AreOccurrences(r: Rule, payments: seq<Payment>)
    requires RuleFits(r)
  {
    forall k :: 0 <= k < |payments| ==>
      && payments[k].occurrence == k + 1 && payments[k].date == OccurrenceDate(r.first, r.unit, r.every, payments[k].occurrence)
      && Within(r, payments[k].occurrence)
  }

  datatype StartRefusal = EndAmbiguous | EndBeforeStart | TooFewOccurrences

  /** A repetition ends on a later date, after two or more payments, or never. */
  function RefusedToStart(r: Rule): Option<StartRefusal> {
    if r.most.Some? && r.most.value < 2 then Some(TooFewOccurrences)
    else if r.endsOn.Some? && r.most.Some? then Some(EndAmbiguous)
    else if r.endsOn.Some? && !Earlier(r.first, r.endsOn.value) then Some(EndBeforeStart)
    else None
  }

  /** Too few payments are refused first, then two ways to end, then an end that is no later than the start. */
  lemma {:induction false} StartMeans(r: Rule)
    requires RuleFits(r)
    ensures RefusedToStart(r) == Some(TooFewOccurrences) <==> r.most.Some? && r.most.value <= 1
    ensures RefusedToStart(r) == Some(EndAmbiguous) <==> r.endsOn.Some? && r.most.Some? && r.most.value > 1
    ensures RefusedToStart(r) == Some(EndBeforeStart) <==>
      r.endsOn.Some? && r.most.None? && DayNumber(r.endsOn.value) <= DayNumber(r.first)
  {
    if r.endsOn.Some? { DayNumberOrders(r.first, r.endsOn.value); }
  }

  class Repetition {
    const rule: Rule
    var active: bool
    var created: nat
    var payments: seq<Payment>

    /** Payments are the occurrences so far, in order and all within the repetition. */
    ghost predicate Valid()
      reads this
    {
      && RuleFits(rule) && created == |payments| && AreOccurrences(rule, payments)
    }

    /** The first payment is created with the repetition. */
    constructor (rule: Rule)
      requires RuleFits(rule) && RefusedToStart(rule) == None
      ensures Valid() && this.rule == rule && active && payments == [Payment(1, rule.first)]
    {
      FirstOccurrence(rule.first, rule.unit, rule.every);
      this.rule, active, created, payments := rule, true, 1, [Payment(1, rule.first)];
    }

    /** `waiting` tells that an occurrence is still scheduled, `payees` that somebody is left to pay; without them it ends early. */
    method CreateNext(waiting: bool, payees: bool)
      requires Valid()
      modifies this
      ensures Valid()
      ensures !old(active) || waiting ==> active == old(active) && payments == old(payments)
      ensures old(active) && !waiting ==> (
        if payees && Within(rule, old(created) + 1)
        then active && payments == old(payments) + [Payment(old(created) + 1, OccurrenceDate(rule.first, rule.unit, rule.every, old(created) + 1))]
        else !active && payments == old(payments))
    {
      if !active || waiting { return; }
      var n := created + 1;
      var date := OccurrenceDate(rule.first, rule.unit, rule.every, n);
      var ended := !payees || (rule.most.Some? && n > rule.most.value) || (rule.endsOn.Some? && Earlier(rule.endsOn.value, date));
      if ended {
        active := false;
        return;
      }
      payments := payments + [Payment(n, date)];
      created := n;
    }

    /**
     Any ticks. While it is active each look that found nothing waiting created one payment, so one
     that ends on a date or after a number of payments ends within as many looks as it has occurrences
     left and one more; if somebody was always left to pay, its payments are all the occurrences.
     */
    method RunTicks(ticks: seq<Tick>)
      requires Valid()
      modifies this
      ensures Valid() && old(created) <= created <= old(created) + Looks(ticks) && payments[..old(created)] == old(payments)
      ensures active ==> old(active) && created == old(created) + Looks(ticks)
      ensures (rule.endsOn.Some? || rule.most.Some?) && old(created) + Looks(ticks) > Bound(rule) ==> !active
      ensures old(active) && !active && (forall t :: t in ticks ==> t.payees) ==> Exhausted(rule, created)
    {
      for n := 0 to |ticks|
        invariant Valid() && old(created) <= created <= old(created) + Looks(ticks[..n]) && payments[..old(created)] == old(payments)
        invariant active ==> old(active) && created == old(created) + Looks(ticks[..n])
        invariant old(active) && !active && (forall t :: t in ticks ==> t.payees) ==> !Within(rule, created + 1)
      {
        assert ticks[..n + 1][..n] == ticks[..n] && ticks[n] in ticks;
        CreateNext(ticks[n].waiting, ticks[n].payees);
      }
      assert ticks[..|ticks|] == ticks;
      if active && created > 0 && (rule.endsOn.Some? || rule.most.Some?) {
        assert Within(rule, payments[created - 1].occurrence);
        WithinBound(rule, created);
      }
      if !Within(rule, created + 1) { AllWithin(rule, payments); }
    }
  }

  /** What a tick of the scheduler finds. */
  datatype Tick = Tick(waiting: bool, payees: bool)

  /** Ticks that found no occurrence waiting. */
  function Looks(ticks: seq<Tick>): nat {
    if ticks == [] then 0 else Looks(ticks[..|ticks| - 1]) + (if ticks[|ticks| - 1].waiting then 0 else 1)
  }

  /** The occurrences of the repetition are exactly the first `n`. */
  ghost predicate Exhausted(r: Rule, n: nat)
    requires RuleFits(r)
  {
    forall k: nat {:trigger Within(r, k)} :: k >= 1 ==> (Within(r, k) <==> k <= n)
  }

  /** Once the next one is not within, the payments are all the occurrences there are. */
  lemma {:induction false} AllWithin(r: Rule, payments: seq<Payment>)
    requires RuleFits(r) && AreOccurrences(r, payments) && !Within(r, |payments| + 1)
    ensures Exhausted(r, |payments|)
  {
    forall n: nat | n >= 1 ensures Within(r, n) <==> n <= |payments| {
      if n <= |payments| { assert Within(r, payments[n - 1].occurrence); }
      else if n > |payments| + 1 && Within(r, n) { WithinIsPrefix(r, |payments| + 1, n); }
    }
  }
}
