/**
 Editing the schedule of a rule row by row: no two rows may ever share order and channel, and a
 step that was sent keeps its day and channel.
 */
module RuleSchedule {
  import opened Common
  import opened Sorting
  import CollectionModel

  type StepId = nat
  type Channel = CollectionModel.Channel

  const MAX_STEPS := 20
  const MAX_ORDER := 50
  const MIN_DELAY := -30
  const MAX_DELAY := 365
  const RETIRED_FROM := -1001

  /** `attempts` counts the invoices that got the step. */
  datatype Row = Row(order: int, channel: Channel, delay: int, active: bool, attempts: nat)

  type Rows = map<StepId, Row>

  datatype Incoming = Incoming(id: Option<StepId>, order: int, channel: Channel, delay: int)

  datatype Refusal = DelayOutOfRange | DuplicatedSlot | UsedStepMoved

  // ---- rows ------------------------------------------------------------------------------

  predicate SlotsDiffer(rows: Rows, i: StepId, j: StepId) {
    i in rows && j in rows && rows[i].order == rows[j].order && rows[i].channel == rows[j].channel ==> i == j
  }

  ghost predicate Unique(rows: Rows) {
    forall i, j {:trigger SlotsDiffer(rows, i, j)} :: SlotsDiffer(rows, i, j)
  }

  predicate RowFits(rows: Rows, i: StepId) {
    i in rows ==> if rows[i].active then 0 <= rows[i].order <= MAX_ORDER else rows[i].order <= RETIRED_FROM
  }

  /** Retired steps keep clear of the orders in use. */
  ghost predicate Valid(rows: Rows) {
    Unique(rows) && forall i {:trigger RowFits(rows, i)} :: RowFits(rows, i)
  }

  predicate NoRepeats<T(==)>(s: seq<T>) { forall a, b :: 0 <= a < b < |s| ==> s[a] != s[b] }

  predicate OrdersRise(rows: Rows, s: seq<StepId>) {
    forall a, b :: 0 <= a < b < |s| && s[a] in rows && s[b] in rows ==> rows[s[a]].order <= rows[s[b]].order
  }

  predicate IsActive(rows: Rows, i: StepId) { i in rows && rows[i].active }

  /** The active steps in the order the rule takes them. */
  ghost predicate Listing(rows: Rows, s: seq<StepId>) {
    && NoRepeats(s) && OrdersRise(rows, s)
    && (forall k :: 0 <= k < |s| ==> s[k] in rows)
    && (forall i {:trigger IsActive(rows, i)} :: IsActive(rows, i) <==> i in s)
  }

  /** Day of the step at position k, counted from the due date. */
  function DayAt(rows: Rows, s: seq<StepId>, k: nat): int
    requires k < |s|
  {
    (if k == 0 then 0 else DayAt(rows, s, k - 1)) + (if s[k] in rows then rows[s[k]].delay else 0)
  }

  function IncomingDay(steps: seq<Incoming>, k: nat): int
    requires k < |steps|
  {
    (if k == 0 then 0 else IncomingDay(steps, k - 1)) + steps[k].delay
  }

  // ---- what a save asks for ------------------------------------------------------------------

  predicate InBounds(steps: seq<Incoming>) {
    |steps| <= MAX_STEPS && forall k :: 0 <= k < |steps| ==> 0 <= steps[k].order <= MAX_ORDER
  }

  predicate DelaysFit(steps: seq<Incoming>) {
    forall k :: 0 <= k < |steps| ==> MIN_DELAY <= steps[k].delay <= MAX_DELAY
  }

  /** The first delay out of bounds. */
  predicate WrongDelay(steps: seq<Incoming>, k: nat)
    requires k < |steps|
  {
    DelaysFit(steps[..k]) && !(MIN_DELAY <= steps[k].delay <= MAX_DELAY)
  }

  predicate ClashAt(steps: seq<Incoming>, a: nat, b: nat)
    requires a < |steps| && b < |steps|
  {
    steps[a].order == steps[b].order && steps[a].channel == steps[b].channel
  }

  predicate SlotsApart(steps: seq<Incoming>) {
    forall a: nat, b: nat :: a < b < |steps| ==> !ClashAt(steps, a, b)
  }

  predicate Names(rows: Rows, step: Incoming) { step.id.Some? && IsActive(rows, step.id.value) }

  /** A step already sent would change its day or its channel. */
  predicate Moves(rows: Rows, listing: seq<StepId>, steps: seq<Incoming>, k: nat, n: nat)
    requires k < |steps| && n < |listing|
  {
    && Names(rows, steps[k]) && listing[n] == steps[k].id.value && rows[listing[n]].attempts > 0
    && (rows[listing[n]].channel != steps[k].channel || DayAt(rows, listing, n) != IncomingDay(steps, k))
  }

  predicate MovesUsed(rows: Rows, listing: seq<StepId>, steps: seq<Incoming>) {
    exists k: nat, n: nat :: k < |steps| && n < |listing| && Moves(rows, listing, steps, k, n)
  }

  // ---- what a save leaves ----------------------------------------------------------------------

  /** Row of the step written from an incoming one; a step sent back keeps its history. */
  function WrittenRow(was: Rows, i: StepId, step: Incoming): Row {
    Row(step.order, step.channel, step.delay, true, if i in was then was[i].attempts else 0)
  }

  predicate KeptOrRetired(was: Rows, now: Rows, ids: seq<StepId>, i: StepId) {
    && (i in was && !was[i].active ==> i in now && now[i] == was[i])
    && (IsActive(was, i) && i !in ids ==>
         if was[i].attempts > 0
         then i in now && now[i] == was[i].(active := false, order := now[i].order) && now[i].order <= RETIRED_FROM
         else i !in now)
    && (i in now && i !in was ==> i in ids)
  }

  predicate WrittenAt(was: Rows, now: Rows, steps: seq<Incoming>, ids: seq<StepId>, k: nat)
    requires k < |steps| == |ids|
  {
    && ids[k] in now && now[ids[k]] == WrittenRow(was, ids[k], steps[k])
    && (ids[k] in was ==> steps[k].id == Some(ids[k]) && was[ids[k]].active)
  }

  /** Step k became row ids[k]; nothing else is active, and what left is retired with its history. */
  ghost predicate Saved(was: Rows, now: Rows, steps: seq<Incoming>, ids: seq<StepId>) {
    && Valid(now) && |ids| == |steps| && NoRepeats(ids)
    && (forall k: nat {:trigger WrittenAt(was, now, steps, ids, k)} :: k < |steps| ==> WrittenAt(was, now, steps, ids, k))
    && (forall i {:trigger KeptOrRetired(was, now, ids, i)} :: KeptOrRetired(was, now, ids, i))
    && (forall k: nat {:trigger steps[k]} :: k < |steps| && Names(was, steps[k]) ==> steps[k].id.value in ids)
  }

  predicate OrdersAscend(steps: seq<Incoming>) {
    forall a, b :: 0 <= a < b < |steps| ==> steps[a].order <= steps[b].order
  }

  predicate SentFrom(input: seq<Incoming>, steps: seq<Incoming>, from: seq<nat>) {
    && Rearranges(input, steps, from)
    && forall a, b :: 0 <= a < b < |steps| && steps[a].order == steps[b].order ==> from[a] < from[b]
  }

  /** Steps of one order are taken as they were sent. */
  ghost predicate InOrderSent(input: seq<Incoming>, steps: seq<Incoming>) { exists from :: SentFrom(input, steps, from) }

  /** The new rows list the incoming steps, so their days are the incoming days. */
  lemma {:induction false} SavedListing(was: Rows, now: Rows, steps: seq<Incoming>, ids: seq<StepId>)
    requires Saved(was, now, steps, ids) && OrdersAscend(steps)
    ensures Listing(now, ids)
    ensures forall n: nat :: n < |ids| ==> DayAt(now, ids, n) == IncomingDay(steps, n)
  {
    forall a, b | 0 <= a < b < |ids| && ids[a] in now && ids[b] in now ensures now[ids[a]].order <= now[ids[b]].order {
      assert WrittenAt(was, now, steps, ids, a) && WrittenAt(was, now, steps, ids, b);
    }
    forall k | 0 <= k < |ids| ensures ids[k] in now { assert WrittenAt(was, now, steps, ids, k); }
    forall i ensures IsActive(now, i) <==> i in ids {
      assert KeptOrRetired(was, now, ids, i);
      if i in ids { var k :| 0 <= k < |ids| && ids[k] == i; assert WrittenAt(was, now, steps, ids, k); }
    }
    forall n: nat | n < |ids| ensures DayAt(now, ids, n) == IncomingDay(steps, n) { SavedDay(was, now, steps, ids, n); }
  }

  lemma {:induction false} SavedDay(was: Rows, now: Rows, steps: seq<Incoming>, ids: seq<StepId>, n: nat)
    requires Saved(was, now, steps, ids) && n < |ids|
    ensures DayAt(now, ids, n) == IncomingDay(steps, n)
  {
    if n > 0 { SavedDay(was, now, steps, ids, n - 1); }
    assert WrittenAt(was, now, steps, ids, n);
  }

  predicate OrdersApart(rows: Rows, s: seq<StepId>) {
    forall a, b :: 0 <= a < b < |s| && s[a] in rows && s[b] in rows ==> rows[s[a]].order != rows[s[b]].order
  }

  /** With orders that differ the listing, and so the day of every step, is the only one. */
  lemma {:induction false} ListingUnique(rows: Rows, s: seq<StepId>, t: seq<StepId>)
    requires Listing(rows, s) && Listing(rows, t) && OrdersApart(rows, s)
    ensures s == t
  {
    forall n | 0 <= n < |s| ensures n < |t| && s[n] == t[n] { SameListed(rows, s, t, n); }
    if |s| > 0 { SameListed(rows, s, t, |s| - 1); }
    if |t| > 0 { NoneExtra(rows, s, t, |t| - 1); }
  }

  lemma {:induction false} NoneExtra(rows: Rows, s: seq<StepId>, t: seq<StepId>, k: nat)
    requires Listing(rows, s) && Listing(rows, t) && k < |t|
    requires forall n :: 0 <= n < |s| ==> n < |t| && s[n] == t[n]
    ensures k < |s|
  {
    assert IsActive(rows, t[k]);
    var j :| 0 <= j < |s| && s[j] == t[k];
    assert t[j] == t[k];
  }

  lemma {:induction false} SameListed(rows: Rows, s: seq<StepId>, t: seq<StepId>, n: nat)
    requires Listing(rows, s) && Listing(rows, t) && OrdersApart(rows, s) && n < |s|
    ensures n < |t| && s[n] == t[n]
  {
    forall m | 0 <= m < n ensures m < |t| && s[m] == t[m] { SameListed(rows, s, t, m); }
    if n > 0 { SameListed(rows, s, t, n - 1); }
    assert IsActive(rows, s[n]);
    var k :| 0 <= k < |t| && t[k] == s[n];
    assert n <= k;
    assert IsActive(rows, t[n]);
    var j :| 0 <= j < |s| && s[j] == t[n];
    assert n <= j;
    assert rows[s[n]].order <= rows[s[j]].order;
    assert rows[t[n]].order <= rows[t[k]].order;
  }

  /**
   After a save a step some invoice got is either retired with its history, or still active
   under the same id and channel on the same day of any listing of the new schedule.
   */
  lemma {:induction false} UsedStepsStay(was: Rows, listing: seq<StepId>, now: Rows, steps: seq<Incoming>, ids: seq<StepId>,
                                         s: seq<StepId>, n: nat, m: nat)
    requires Listing(was, listing) && Saved(was, now, steps, ids) && OrdersAscend(steps) && !MovesUsed(was, listing, steps)
    requires Listing(now, s) && OrdersApart(now, s)
    requires n < |listing| && was[listing[n]].attempts > 0
    requires m < |s| && s[m] == listing[n]
    ensures now[s[m]].channel == was[listing[n]].channel && DayAt(now, s, m) == DayAt(was, listing, n)
  {
    SavedListing(was, now, steps, ids);
    ListingUnique(now, s, ids);
    assert IsActive(was, listing[n]);
    assert WrittenAt(was, now, steps, ids, m);
    assert !Moves(was, listing, steps, m, n);
  }

  lemma {:induction false} UsedStepsRetire(was: Rows, listing: seq<StepId>, now: Rows, steps: seq<Incoming>, ids: seq<StepId>, i: StepId)
    requires Listing(was, listing) && Saved(was, now, steps, ids) && i in was && was[i].attempts > 0
    ensures i in now && now[i].attempts == was[i].attempts
    ensures !now[i].active ==> now[i] == was[i].(active := false, order := now[i].order)
  {
    assert KeptOrRetired(was, now, ids, i);
    if i in ids { var k :| 0 <= k < |ids| && ids[k] == i; assert WrittenAt(was, now, steps, ids, k); }
  }

  // ---- moving to the standard schedule ---------------------------------------------------------

  datatype StandardStep = StandardStep(day: int, channel: Channel)

  /** A step already on the day and channel of a standard one lends it its id. */
  predicate Lends(rows: Rows, listing: seq<StepId>, i: StepId, standard: StandardStep) {
    exists n: nat :: n < |listing| && listing[n] == i && i in rows
      && rows[i].channel == standard.channel && DayAt(rows, listing, n) == standard.day
  }

  /** Save that turns the schedule into the standard one. */
  ghost predicate SyncInput(rows: Rows, listing: seq<StepId>, standard: seq<StandardStep>, steps: seq<Incoming>) {
    && |steps| == |standard|
    && forall k: nat {:trigger SyncStep(rows, listing, standard, steps, k)} :: SyncStep(rows, listing, standard, steps, k)
  }

  predicate SyncStep(rows: Rows, listing: seq<StepId>, standard: seq<StandardStep>, steps: seq<Incoming>, k: nat) {
    k < |steps| && k < |standard| ==>
      && steps[k].order == k && steps[k].channel == standard[k].channel
      && steps[k].delay == standard[k].day - (if k > 0 then standard[k - 1].day else 0)
      && (steps[k].id.Some? ==> Lends(rows, listing, steps[k].id.value, standard[k]))
  }

  /** Such a save is never refused for moving a step or repeating a slot, whatever was sent. */
  lemma {:induction false} SyncNeverRefused(rows: Rows, listing: seq<StepId>, standard: seq<StandardStep>, steps: seq<Incoming>)
    requires Listing(rows, listing) && SyncInput(rows, listing, standard, steps)
    ensures !MovesUsed(rows, listing, steps) && SlotsApart(steps) && OrdersAscend(steps)
    ensures forall k: nat :: k < |steps| ==> IncomingDay(steps, k) == standard[k].day
  {
    forall k: nat | k < |steps| ensures IncomingDay(steps, k) == standard[k].day {
      StandardDay(rows, listing, standard, steps, k);
    }
    forall k: nat, n: nat | k < |steps| && n < |listing| ensures !Moves(rows, listing, steps, k, n) {
      LentStays(rows, listing, standard, steps, k, n);
    }
    forall k | 0 <= k < |steps| ensures steps[k].order == k { assert SyncStep(rows, listing, standard, steps, k); }
  }

  lemma {:induction false} LentStays(rows: Rows, listing: seq<StepId>, standard: seq<StandardStep>, steps: seq<Incoming>, k: nat, n: nat)
    requires Listing(rows, listing) && SyncInput(rows, listing, standard, steps) && k < |steps| && n < |listing|
    ensures !Moves(rows, listing, steps, k, n)
  {
    StandardDay(rows, listing, standard, steps, k);
    assert SyncStep(rows, listing, standard, steps, k);
    if steps[k].id == Some(listing[n]) {
      assert Lends(rows, listing, listing[n], standard[k]);
      var m: nat :| m < |listing| && listing[m] == listing[n] && DayAt(rows, listing, m) == standard[k].day;
      assert m == n;
    }
  }

  lemma {:induction false} StandardDay(rows: Rows, listing: seq<StepId>, standard: seq<StandardStep>, steps: seq<Incoming>, k: nat)
    requires SyncInput(rows, listing, standard, steps) && k < |steps|
    ensures IncomingDay(steps, k) == standard[k].day
  {
    assert SyncStep(rows, listing, standard, steps, k);
    if k > 0 { StandardDay(rows, listing, standard, steps, k - 1); }
  }

  // ---- saving ----------------------------------------------------------------------------

  class ScheduleStore {
    var rows: Rows

    constructor (rows: Rows)
      ensures this.rows == rows
    {
      this.rows := rows;
    }

    /** One write; the database refuses a second row with its order and channel. */
    method Write(i: StepId, row: Row)
      requires Unique(rows)
      requires forall j :: j in rows && j != i ==> rows[j].order != row.order || rows[j].channel != row.channel
      modifies this
      ensures rows == old(rows)[i := row] && Unique(rows)
    {
      ghost var was := rows;
      rows := rows[i := row];
      forall a, b ensures SlotsDiffer(rows, a, b) { assert SlotsDiffer(was, a, b); }
    }

    method Delete(i: StepId)
      requires Unique(rows)
      modifies this
      ensures rows == old(rows) - {i} && Unique(rows)
    {
      ghost var was := rows;
      rows := rows - {i};
      forall a, b ensures SlotsDiffer(rows, a, b) { assert SlotsDiffer(was, a, b); }
    }

    method ActiveInOrder() returns (listing: seq<StepId>)
      ensures Listing(rows, listing)
    {
      var todo := set i | i in rows && rows[i].active;
      var found: seq<StepId> := [];
      while todo != {}
        invariant NoRepeats(found) && forall i :: i in found ==> i !in todo
        invariant forall i :: IsActive(rows, i) <==> i in found || i in todo
        decreases |todo|
      {
        var i :| i in todo;
        found := found + [i];
        todo := todo - {i};
      }
      var known := rows;
      ghost var from;
      listing, from := SortBy(found, (i: StepId) => if i in known then known[i].order else 0);
      ListedInOrder(rows, found, listing, from, (i: StepId) => if i in known then known[i].order else 0);
    }

    /** Validation, then the guard on steps already sent, then the writes. */
    method SetSteps(input: seq<Incoming>, newIds: seq<StepId>)
      returns (refused: Option<Refusal>, ghost listing: seq<StepId>, ghost steps: seq<Incoming>, ghost ids: seq<StepId>)
      requires Valid(rows) && InBounds(input)
      requires |newIds| == |input| && NoRepeats(newIds) && forall k :: 0 <= k < |newIds| ==> newIds[k] !in rows
      modifies this
      ensures Listing(old(rows), listing) && OrdersAscend(steps) && multiset(steps) == multiset(input) && InOrderSent(input, steps)
      ensures refused == None <==> DelaysFit(input) && SlotsApart(input) && !MovesUsed(old(rows), listing, steps)
      ensures refused == Some(UsedStepMoved) <==> DelaysFit(input) && SlotsApart(input) && MovesUsed(old(rows), listing, steps)
      ensures refused.Some? ==> rows == old(rows)
      ensures refused.None? ==> Saved(old(rows), rows, steps, ids)
    {
      ghost var was := rows;
      var active := ActiveInOrder();
      listing, ids := active, [];
      var sorted, from := SortBy(input, (x: Incoming) => x.order);
      steps := sorted;
      SortedSteps(input, sorted, from);
      refused := ValidateSteps(input);
      if refused.Some? { return; }
      SortedSlots(input, sorted, from);
      var moved := FindMoved(active, sorted);
      if moved { return Some(UsedStepMoved), listing, steps, ids; }
      var kept := KeptIds(sorted);
      var lowest := LowestOrder();
      RetireRemoved(active, kept, lowest);
      ghost var left := rows;
      RetiredLeaves(was, left, active, kept);
      Park(kept);
      ghost var parked := rows;
      ParkedLeaves(was, left, parked, active, kept);
      ids := Fill(was, sorted, kept, newIds);
      SavedAll(was, left, parked, rows, active, kept, sorted, ids);
    }

    method FindMoved(listing: seq<StepId>, steps: seq<Incoming>) returns (moved: bool)
      requires Listing(rows, listing)
      ensures moved <==> MovesUsed(rows, listing, steps)
    {
      var usedDay := UsedDays(listing);
      var day := 0;
      for k := 0 to |steps|
        invariant day == if k == 0 then 0 else IncomingDay(steps, k - 1)
        invariant forall j: nat, n: nat :: j < k && n < |listing| ==> !Moves(rows, listing, steps, j, n)
      {
        day := day + steps[k].delay;
        if steps[k].id.Some? && IsActive(rows, steps[k].id.value) && steps[k].id.value in usedDay {
          var i := steps[k].id.value;
          if rows[i].channel != steps[k].channel || usedDay[i] != day {
            ghost var n :| 0 <= n < |listing| && listing[n] == i;
            assert Moves(rows, listing, steps, k, n);
            return true;
          }
        }
      }
      return false;
    }

    /** Cumulative day of every active step some invoice got. */
    method UsedDays(listing: seq<StepId>) returns (days: map<StepId, int>)
      requires Listing(rows, listing)
      ensures forall n: nat :: n < |listing| ==> (listing[n] in days <==> rows[listing[n]].attempts > 0)
      ensures forall n: nat :: n < |listing| && listing[n] in days ==> days[listing[n]] == DayAt(rows, listing, n)
    {
      days := map[];
      var day := 0;
      for k := 0 to |listing|
        invariant day == if k == 0 then 0 else DayAt(rows, listing, k - 1)
        invariant forall i :: i in days ==> i in listing[..k]
        invariant forall n: nat :: n < k ==> (listing[n] in days <==> rows[listing[n]].attempts > 0)
        invariant forall n: nat :: n < k && listing[n] in days ==> days[listing[n]] == DayAt(rows, listing, n)
      {
        assert IsActive(rows, listing[k]);
        day := day + rows[listing[k]].delay;
        if rows[listing[k]].attempts > 0 { days := days[listing[k] := day]; }
      }
    }

    /** The ids among the incoming steps, in their order and without repeats. */
    method KeptIds(steps: seq<Incoming>) returns (kept: seq<StepId>)
      ensures NoRepeats(kept) && |kept| <= |steps|
      ensures forall i :: i in kept <==> IsActive(rows, i) && exists k :: 0 <= k < |steps| && steps[k].id == Some(i)
    {
      kept := [];
      for k := 0 to |steps|
        invariant NoRepeats(kept) && |kept| <= k
        invariant forall i :: i in kept <==> IsActive(rows, i) && exists j :: 0 <= j < k && steps[j].id == Some(i)
      {
        if steps[k].id.Some? && IsActive(rows, steps[k].id.value) && steps[k].id.value !in kept {
          kept := kept + [steps[k].id.value];
        }
      }
    }

    method LowestOrder() returns (lowest: int)
      ensures lowest <= RETIRED_FROM + 1 && forall i :: i in rows ==> lowest <= rows[i].order
    {
      lowest := RETIRED_FROM + 1;
      var todo := rows.Keys;
      while todo != {}
        invariant todo <= rows.Keys && lowest <= RETIRED_FROM + 1
        invariant forall i :: i in rows && i !in todo ==> lowest <= rows[i].order
        decreases |todo|
      {
        var i :| i in todo;
        if rows[i].order < lowest { lowest := rows[i].order; }
        todo := todo - {i};
      }
    }

    /** Removed steps: retired below every order if they were sent, deleted otherwise. */
    method RetireRemoved(listing: seq<StepId>, kept: seq<StepId>, lowest: int)
      requires Unique(rows) && Listing(rows, listing) && lowest <= RETIRED_FROM + 1
      requires forall i :: i in rows ==> lowest <= rows[i].order
      modifies this
      ensures Unique(rows)
      ensures forall i {:trigger Removed(old(rows), rows, listing, kept, i)} :: Removed(old(rows), rows, listing, kept, i)
    {
      ghost var was := rows;
      var retired := lowest;
      for n := 0 to |listing|
        invariant Unique(rows) && retired <= lowest
        invariant forall i :: i in rows ==> retired <= rows[i].order
        invariant forall i {:trigger Removed(was, rows, listing[..n], kept, i)} :: Removed(was, rows, listing[..n], kept, i)
      {
        ghost var before := rows;
        var i := listing[n];
        assert IsActive(was, i) && Removed(was, rows, listing[..n], kept, i);
        NotListedYet(listing, n);
        if i !in kept {
          if rows[i].attempts > 0 {
            retired := retired - 1;
            Write(i, rows[i].(active := false, order := retired));
          } else {
            Delete(i);
          }
        }
        ghost var done := listing[..n + 1];
        assert done == listing[..n] + [i];
        forall j ensures Removed(was, rows, done, kept, j) { assert Removed(was, before, listing[..n], kept, j); }
      }
      assert listing[..|listing|] == listing;
    }

    /** Temporary orders, clear of those in use and of those to come. */
    method Park(kept: seq<StepId>)
      requires Unique(rows) && NoRepeats(kept) && |kept| <= MAX_STEPS
      requires forall i :: i in kept ==> IsActive(rows, i)
      requires forall i :: i in rows ==> if i in kept then rows[i].order >= 0 else rows[i].order <= RETIRED_FROM
      modifies this
      ensures Unique(rows)
      ensures forall i {:trigger Parked(old(rows), rows, kept, i)} :: Parked(old(rows), rows, kept, i)
    {
      ghost var was := rows;
      forall k | 0 <= k < |kept| ensures kept[k] in was { assert IsActive(was, kept[k]); }
      for n := 0 to |kept|
        invariant Unique(rows) && rows.Keys == was.Keys
        invariant forall k :: 0 <= k < n ==> rows[kept[k]] == was[kept[k]].(order := -1 - k)
        invariant forall i :: i in rows && i !in kept[..n] ==> rows[i] == was[i]
      {
        ghost var before := rows;
        forall j | j in rows && j != kept[n] ensures rows[j].order != -1 - n {
          if j in kept[..n] { var k :| 0 <= k < n && kept[k] == j; }
        }
        Write(kept[n], rows[kept[n]].(order := -1 - n));
        assert kept[..n + 1] == kept[..n] + [kept[n]];
      }
      forall i ensures Parked(was, rows, kept, i) {
        if i in kept { var k :| 0 <= k < |kept| && kept[k] == i; }
      }
    }

    method Fill(ghost was: Rows, steps: seq<Incoming>, kept: seq<StepId>, newIds: seq<StepId>) returns (ids: seq<StepId>)
      requires Unique(rows) && SlotsApart(steps) && InBounds(steps) && |newIds| == |steps| && NoRepeats(newIds)
      requires forall k :: 0 <= k < |newIds| ==> newIds[k] !in was && newIds[k] !in rows
      requires forall i :: i in rows ==> rows[i].order < 0 && i in was && rows[i].attempts == was[i].attempts
      requires forall i :: i in kept ==> i in rows
      modifies this
      ensures Unique(rows) && |ids| == |steps| && NoRepeats(ids)
      ensures forall k: nat {:trigger ids[k]} :: k < |steps| ==>
        && ids[k] in rows && rows[ids[k]] == WrittenRow(was, ids[k], steps[k])
        && (ids[k] in was ==> ids[k] in kept && steps[k].id == Some(ids[k]))
      ensures forall i :: i in rows && i !in ids ==> i in old(rows) && rows[i] == old(rows)[i]
      ensures forall i :: i in old(rows) ==> i in rows
      ensures forall k: nat {:trigger steps[k]} :: k < |steps| && steps[k].id.Some? && steps[k].id.value in kept ==> steps[k].id.value in ids
    {
      ghost var parked := rows;
      ids := [];
      var used: set<StepId> := {};
      for k := 0 to |steps|
        invariant Unique(rows) && |ids| == k
        invariant forall j: nat {:trigger Filled(was, rows, steps, kept, newIds, ids, j)} :: j < k ==>
          Filled(was, rows, steps, kept, newIds, ids, j)
        invariant forall i :: i in used <==> i in kept && i in ids
        invariant NoRepeats(ids) && forall i :: i in rows && i !in ids ==> i in parked && rows[i] == parked[i]
        invariant forall i :: i in parked ==> i in rows
        invariant forall j: nat {:trigger steps[j]} :: j < k && steps[j].id.Some? && steps[j].id.value in kept ==> steps[j].id.value in used
      {
        ghost var before, idsBefore := rows, ids;
        var i := if steps[k].id.Some? && steps[k].id.value in kept && steps[k].id.value !in used
          then steps[k].id.value else newIds[k];
        NewIdIsFree(was, rows, steps, kept, newIds, ids, used, k, i);
        SlotIsFree(was, parked, rows, steps, kept, newIds, ids, k, i);
        if i in kept { used := used + {i}; }
        var row := Row(steps[k].order, steps[k].channel, steps[k].delay, true, if i in rows then rows[i].attempts else 0);
        Write(i, row);
        ids := ids + [i];
        FilledMore(was, before, rows, steps, kept, newIds, idsBefore, ids, k, i);
      }
      forall k: nat | k < |steps| ensures ids[k] in rows && rows[ids[k]] == WrittenRow(was, ids[k], steps[k])
        && (ids[k] in was ==> ids[k] in kept && steps[k].id == Some(ids[k]))
      {
        assert Filled(was, rows, steps, kept, newIds, ids, k);
      }
    }
  }

  method ValidateSteps(steps: seq<Incoming>) returns (refused: Option<Refusal>)
    ensures refused == None <==> DelaysFit(steps) && SlotsApart(steps)
    ensures refused != Some(UsedStepMoved)
    ensures refused == Some(DelayOutOfRange) <==> exists k: nat :: k < |steps| && SlotsApart(steps[..k]) && WrongDelay(steps, k)
  {
    var seen: set<(int, Channel)> := {};
    for k := 0 to |steps|
      invariant forall j :: 0 <= j < k ==> MIN_DELAY <= steps[j].delay <= MAX_DELAY
      invariant forall a: nat, b: nat :: a < b < k ==> !ClashAt(steps, a, b)
      invariant forall slot :: slot in seen <==> exists j: nat :: j < k && slot == (steps[j].order, steps[j].channel)
    {
      if steps[k].delay < MIN_DELAY || steps[k].delay > MAX_DELAY {
        FirstWrong(steps, k);
        return Some(DelayOutOfRange);
      }
      if (steps[k].order, steps[k].channel) in seen {
        ghost var j: nat :| j < k && (steps[k].order, steps[k].channel) == (steps[j].order, steps[j].channel);
        ClashFirst(steps, j, k);
        return Some(DuplicatedSlot);
      }
      seen := seen + {(steps[k].order, steps[k].channel)};
    }
    return None;
  }

  lemma {:induction false} FirstWrong(steps: seq<Incoming>, k: nat)
    requires k < |steps| && (steps[k].delay < MIN_DELAY || steps[k].delay > MAX_DELAY)
    requires forall j :: 0 <= j < k ==> MIN_DELAY <= steps[j].delay <= MAX_DELAY
    requires forall a: nat, b: nat :: a < b < k ==> !ClashAt(steps, a, b)
    ensures SlotsApart(steps[..k]) && WrongDelay(steps, k)
  {
    forall a: nat, b: nat | a < b < k ensures !ClashAt(steps[..k], a, b) { assert !ClashAt(steps, a, b); }
  }

  lemma {:induction false} ClashFirst(steps: seq<Incoming>, j: nat, k: nat)
    requires j < k < |steps| && ClashAt(steps, j, k) && forall n :: 0 <= n <= k ==> MIN_DELAY <= steps[n].delay <= MAX_DELAY
    ensures !SlotsApart(steps) && forall n: nat :: n < |steps| && WrongDelay(steps, n) ==> !SlotsApart(steps[..n])
  {
    forall n: nat | n < |steps| && WrongDelay(steps, n) ensures !SlotsApart(steps[..n]) { assert ClashAt(steps[..n], j, k); }
  }

  // ---- steps of the loops ------------------------------------------------------------------

  predicate Removed(was: Rows, now: Rows, listing: seq<StepId>, kept: seq<StepId>, i: StepId) {
    if i in was && i in listing && i !in kept then
      if was[i].attempts > 0
      then i in now && now[i] == was[i].(active := false, order := now[i].order) && now[i].order <= RETIRED_FROM
      else i !in now
    else (i in now <==> i in was) && (i in now ==> now[i] == was[i])
  }

  predicate Parked(was: Rows, now: Rows, kept: seq<StepId>, i: StepId) {
    && (i in now <==> i in was)
    && (i in now ==> if i in kept then -MAX_STEPS <= now[i].order < 0 && now[i] == was[i].(order := now[i].order) else now[i] == was[i])
  }

  predicate Filled(was: Rows, now: Rows, steps: seq<Incoming>, kept: seq<StepId>, newIds: seq<StepId>, ids: seq<StepId>, k: nat) {
    k < |ids| && k < |steps| && k < |newIds| ==>
      && ids[k] in now && now[ids[k]] == WrittenRow(was, ids[k], steps[k])
      && (ids[k] == newIds[k] || (ids[k] in kept && steps[k].id == Some(ids[k])))
  }

  lemma {:induction false} NotListedYet(listing: seq<StepId>, n: nat)
    requires NoRepeats(listing) && n < |listing|
    ensures listing[n] !in listing[..n]
  {}

  lemma {:induction false} ListedInOrder(rows: Rows, found: seq<StepId>, listing: seq<StepId>, from: seq<nat>, key: StepId -> int)
    requires NoRepeats(found) && (forall i :: IsActive(rows, i) <==> i in found)
    requires Rearranges(found, listing, from) && SortedBy(listing, key) && multiset(listing) == multiset(found)
    requires forall i :: i in rows ==> key(i) == rows[i].order
    ensures Listing(rows, listing)
  {
    forall i ensures IsActive(rows, i) <==> i in listing {
      assert i in listing <==> i in multiset(listing);
      assert i in found <==> i in multiset(found);
    }
    forall k | 0 <= k < |listing| ensures listing[k] in rows { assert IsActive(rows, listing[k]); }
    forall a, b | 0 <= a < b < |listing| ensures listing[a] != listing[b] { assert from[a] != from[b]; }
    forall a, b | 0 <= a < b < |listing| && listing[a] in rows && listing[b] in rows
      ensures rows[listing[a]].order <= rows[listing[b]].order
    {
      assert key(listing[a]) <= key(listing[b]);
    }
  }

  lemma {:induction false} SortedSteps(input: seq<Incoming>, sorted: seq<Incoming>, from: seq<nat>)
    requires Rearranges(input, sorted, from) && SortedBy(sorted, (x: Incoming) => x.order) && InBounds(input)
    requires Stable(sorted, from, (x: Incoming) => x.order)
    ensures OrdersAscend(sorted) && InBounds(sorted) && InOrderSent(input, sorted)
  {
    forall a, b | 0 <= a < b < |sorted| && sorted[a].order == sorted[b].order ensures from[a] < from[b] {
      var key := (x: Incoming) => x.order;
      assert key(sorted[a]) == key(sorted[b]);
    }
    assert SentFrom(input, sorted, from);
    forall a, b | 0 <= a < b < |sorted| ensures sorted[a].order <= sorted[b].order {
      assert ((x: Incoming) => x.order)(sorted[a]) <= ((x: Incoming) => x.order)(sorted[b]);
    }
  }

  lemma {:induction false} SortedSlots(input: seq<Incoming>, sorted: seq<Incoming>, from: seq<nat>)
    requires Rearranges(input, sorted, from) && SlotsApart(input)
    ensures SlotsApart(sorted)
  {
    forall a: nat, b: nat | a < b < |sorted| ensures !ClashAt(sorted, a, b) {
      if from[a] < from[b] { assert !ClashAt(input, from[a], from[b]); } else { assert !ClashAt(input, from[b], from[a]); }
    }
  }

  lemma {:induction false} NewIdIsFree(was: Rows, rows: Rows, steps: seq<Incoming>, kept: seq<StepId>, newIds: seq<StepId>, ids: seq<StepId>,
                                       used: set<StepId>, k: nat, i: StepId)
    requires k < |steps| == |newIds| && NoRepeats(newIds) && |ids| == k
    requires forall j :: 0 <= j < |newIds| ==> newIds[j] !in was
    requires forall j :: j in kept ==> j in was
    requires forall j: nat {:trigger Filled(was, rows, steps, kept, newIds, ids, j)} :: j < k ==> Filled(was, rows, steps, kept, newIds, ids, j)
    requires forall j :: j in used <==> j in kept && j in ids
    requires i == newIds[k] || (i in kept && i !in used)
    ensures i !in ids
  {
    forall j | 0 <= j < |ids| ensures ids[j] != i { assert Filled(was, rows, steps, kept, newIds, ids, j); }
  }

  lemma {:induction false} SlotIsFree(was: Rows, parked: Rows, rows: Rows, steps: seq<Incoming>, kept: seq<StepId>, newIds: seq<StepId>, ids: seq<StepId>,
                                      k: nat, i: StepId)
    requires k < |steps| == |newIds| && |ids| == k && SlotsApart(steps) && InBounds(steps)
    requires forall j: nat {:trigger Filled(was, rows, steps, kept, newIds, ids, j)} :: j < k ==> Filled(was, rows, steps, kept, newIds, ids, j)
    requires forall j :: j in parked ==> parked[j].order < 0
    requires forall j :: j in rows && j !in ids ==> j in parked && rows[j] == parked[j]
    ensures forall j :: j in rows && j != i ==> rows[j].order != steps[k].order || rows[j].channel != steps[k].channel
  {
    forall j | j in rows && j != i ensures rows[j].order != steps[k].order || rows[j].channel != steps[k].channel {
      if j in ids {
        var n: nat :| n < |ids| && ids[n] == j;
        assert Filled(was, rows, steps, kept, newIds, ids, n) && !ClashAt(steps, n, k);
      }
    }
  }

  lemma {:induction false} FilledMore(was: Rows, before: Rows, now: Rows, steps: seq<Incoming>, kept: seq<StepId>, newIds: seq<StepId>,
                                      ids: seq<StepId>, more: seq<StepId>, k: nat, i: StepId)
    requires k < |steps| == |newIds| && |ids| == k && more == ids + [i] && i !in ids
    requires now == before[i := WrittenRow(was, i, steps[k])]
    requires i == newIds[k] || (i in kept && steps[k].id == Some(i))
    requires forall j: nat {:trigger Filled(was, before, steps, kept, newIds, ids, j)} :: j < k ==> Filled(was, before, steps, kept, newIds, ids, j)
    ensures forall j: nat {:trigger Filled(was, now, steps, kept, newIds, more, j)} :: j < k + 1 ==> Filled(was, now, steps, kept, newIds, more, j)
  {
    forall j: nat | j < k + 1 ensures Filled(was, now, steps, kept, newIds, more, j) {
      if j < k { assert Filled(was, before, steps, kept, newIds, ids, j) && ids[j] != i; }
    }
  }

  lemma {:induction false} RetiredLeaves(was: Rows, left: Rows, listing: seq<StepId>, kept: seq<StepId>)
    requires Valid(was) && Listing(was, listing)
    requires forall i :: i in kept ==> IsActive(was, i)
    requires forall i {:trigger Removed(was, left, listing, kept, i)} :: Removed(was, left, listing, kept, i)
    ensures forall i :: i in kept ==> IsActive(left, i)
    ensures forall i :: i in left ==> if i in kept then left[i].order >= 0 else left[i].order <= RETIRED_FROM
  {
    forall i | i in kept ensures IsActive(left, i) { assert Removed(was, left, listing, kept, i); }
    forall i | i in left ensures if i in kept then left[i].order >= 0 else left[i].order <= RETIRED_FROM {
      assert Removed(was, left, listing, kept, i) && RowFits(was, i);
      assert IsActive(was, i) <==> i in listing;
    }
  }

  lemma {:induction false} ParkedLeaves(was: Rows, left: Rows, parked: Rows, listing: seq<StepId>, kept: seq<StepId>)
    requires forall i :: i in left ==> if i in kept then left[i].order >= 0 else left[i].order <= RETIRED_FROM
    requires forall i :: i in kept ==> IsActive(left, i)
    requires forall i {:trigger Removed(was, left, listing, kept, i)} :: Removed(was, left, listing, kept, i)
    requires forall i {:trigger Parked(left, parked, kept, i)} :: Parked(left, parked, kept, i)
    ensures forall i :: i in parked ==> parked[i].order < 0 && i in was && parked[i].attempts == was[i].attempts
    ensures forall i :: i in kept ==> i in parked
  {
    forall i | i in parked ensures parked[i].order < 0 && i in was && parked[i].attempts == was[i].attempts {
      assert Parked(left, parked, kept, i) && Removed(was, left, listing, kept, i);
    }
    forall i | i in kept ensures i in parked { assert Parked(left, parked, kept, i); }
  }

  lemma {:induction false} SavedAll(was: Rows, left: Rows, parked: Rows, now: Rows, listing: seq<StepId>, kept: seq<StepId>, steps: seq<Incoming>,
                                    ids: seq<StepId>)
    requires Valid(was) && Listing(was, listing) && Unique(now) && InBounds(steps)
    requires forall i :: i in kept <==> IsActive(was, i) && exists k :: 0 <= k < |steps| && steps[k].id == Some(i)
    requires forall i {:trigger Removed(was, left, listing, kept, i)} :: Removed(was, left, listing, kept, i)
    requires forall i {:trigger Parked(left, parked, kept, i)} :: Parked(left, parked, kept, i)
    requires |ids| == |steps| && NoRepeats(ids)
    requires forall k: nat {:trigger ids[k]} :: k < |steps| ==>
      && ids[k] in now && now[ids[k]] == WrittenRow(was, ids[k], steps[k])
      && (ids[k] in was ==> ids[k] in kept && steps[k].id == Some(ids[k]))
    requires forall i :: i in now && i !in ids ==> i in parked && now[i] == parked[i]
    requires forall i :: i in parked ==> i in now
    requires forall k: nat {:trigger steps[k]} :: k < |steps| && steps[k].id.Some? && steps[k].id.value in kept ==> steps[k].id.value in ids
    ensures Saved(was, now, steps, ids)
  {
    forall k: nat | k < |steps| ensures WrittenAt(was, now, steps, ids, k) {}
    forall i | i in ids ensures i in was ==> i in kept { var k :| 0 <= k < |ids| && ids[k] == i; }
    forall i | i in kept ensures i in ids {
      var k: nat :| k < |steps| && steps[k].id == Some(i);
    }
    forall i ensures KeptOrRetired(was, now, ids, i) {
      assert Removed(was, left, listing, kept, i) && Parked(left, parked, kept, i);
      assert IsActive(was, i) <==> i in listing;
    }
    forall i ensures RowFits(now, i) {
      if i in ids { var k :| 0 <= k < |ids| && ids[k] == i; }
      else { assert KeptOrRetired(was, now, ids, i) && RowFits(was, i); }
    }
  }
}
