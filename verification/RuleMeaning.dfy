/** What the editor of a schedule refuses, writes and leaves alone, row by row. */
module RuleMeaning {
  import opened Common
  import opened RuleSchedule

  /** Delays lie from thirty days before to a year after, and no order is used twice on one channel. */
  lemma {:induction false} InputMeans(steps: seq<Incoming>)
    ensures DelaysFit(steps) <==> forall k :: 0 <= k < |steps| ==> -30 <= steps[k].delay <= 365
    ensures SlotsApart(steps) <==>
      forall a: nat, b: nat :: a < |steps| && b < |steps| && a != b ==> (steps[a].order, steps[a].channel) != (steps[b].order, steps[b].channel)
  {
    if SlotsApart(steps) {
      forall a: nat, b: nat | a < |steps| && b < |steps| && a != b
        ensures (steps[a].order, steps[a].channel) != (steps[b].order, steps[b].channel)
      {
        assert !ClashAt(steps, if a < b then a else b, if a < b then b else a);
      }
    }
  }

  /** Delays add up from the first step on, in the schedule as in what is sent for it. */
  lemma {:induction false} DaysMean(rows: Rows, s: seq<StepId>, steps: seq<Incoming>, k: nat)
    requires forall n :: 0 <= n < |s| ==> s[n] in rows
    ensures s != [] ==> DayAt(rows, s, 0) == rows[s[0]].delay
    ensures k + 1 < |s| ==> DayAt(rows, s, k + 1) == DayAt(rows, s, k) + rows[s[k + 1]].delay
    ensures steps != [] ==> IncomingDay(steps, 0) == steps[0].delay
    ensures k + 1 < |steps| ==> IncomingDay(steps, k + 1) == IncomingDay(steps, k) + steps[k + 1].delay
  {
  }

  /** A save moves a sent step if it names an active one that some invoice got, on another channel or another day. */
  lemma {:induction false} MovedMeans(rows: Rows, listing: seq<StepId>, steps: seq<Incoming>)
    requires Listing(rows, listing)
    ensures MovesUsed(rows, listing, steps) <==> exists k: nat, n: nat ::
      && k < |steps| && n < |listing| && steps[k].id == Some(listing[n]) && rows[listing[n]].attempts >= 1
      && (rows[listing[n]].channel != steps[k].channel || DayAt(rows, listing, n) != IncomingDay(steps, k))
  {
    forall n: nat | n < |listing| ensures IsActive(rows, listing[n]) {}
    forall k: nat, n: nat | k < |steps| && n < |listing| && steps[k].id == Some(listing[n]) && rows[listing[n]].attempts >= 1
      ensures Moves(rows, listing, steps, k, n) <==>
        rows[listing[n]].channel != steps[k].channel || DayAt(rows, listing, n) != IncomingDay(steps, k)
    {
    }
  }

  /** Each step sent has its row: its order, channel and delay, active, and with the attempts of the row it names or none. */
  lemma {:induction false} SavedMeans(was: Rows, now: Rows, steps: seq<Incoming>, ids: seq<StepId>, k: nat)
    requires Saved(was, now, steps, ids) && k < |steps|
    ensures ids[k] in now && (forall j :: 0 <= j < |ids| && ids[j] == ids[k] ==> j == k)
    ensures var row := now[ids[k]];
      && row.order == steps[k].order && row.channel == steps[k].channel && row.delay == steps[k].delay && row.active
      && row.attempts == if ids[k] in was then was[ids[k]].attempts else 0
    ensures ids[k] in was ==> steps[k].id == Some(ids[k]) && was[ids[k]].active
    ensures steps[k].id.Some? && IsActive(was, steps[k].id.value) && NamedOnce(steps, k) ==> ids[k] == steps[k].id.value
  {
    assert WrittenAt(was, now, steps, ids, k);
    if Names(was, steps[k]) && NamedOnce(steps, k) {
      var j: nat :| j < |ids| && ids[j] == steps[k].id.value;
      assert WrittenAt(was, now, steps, ids, j);
    }
  }

  predicate NamedOnce(steps: seq<Incoming>, k: nat)
    requires k < |steps|
  {
    forall j :: 0 <= j < |steps| && steps[j].id == steps[k].id ==> j == k
  }

  /** Of the rows without a step: retired ones stay, active ones are deleted if nobody got them and retired otherwise. */
  lemma {:induction false} OthersMean(was: Rows, now: Rows, steps: seq<Incoming>, ids: seq<StepId>, i: StepId)
    requires Saved(was, now, steps, ids) && i !in ids
    ensures i !in was ==> i !in now
    ensures i in was && !was[i].active ==> i in now && now[i] == was[i]
    ensures i in was && was[i].active && was[i].attempts == 0 ==> i !in now
    ensures i in was && was[i].active && was[i].attempts >= 1 ==> (
      && i in now && !now[i].active && now[i].order <= -1001
      && now[i].channel == was[i].channel && now[i].delay == was[i].delay && now[i].attempts == was[i].attempts)
  {
    assert KeptOrRetired(was, now, ids, i);
  }

  /** At no time do two rows share order and channel. */
  lemma {:induction false} SlotsMean(rows: Rows)
    ensures Unique(rows) <==>
      forall i, j :: i in rows && j in rows && i != j ==> (rows[i].order, rows[i].channel) != (rows[j].order, rows[j].channel)
  {
    if Unique(rows) {
      forall i, j | i in rows && j in rows && i != j ensures (rows[i].order, rows[i].channel) != (rows[j].order, rows[j].channel) {
        assert SlotsDiffer(rows, i, j);
      }
    }
  }

  /** A saved schedule keeps it so, with active steps at orders in use and retired ones below them. */
  lemma {:induction false} SavedSlots(was: Rows, now: Rows, steps: seq<Incoming>, ids: seq<StepId>)
    requires Saved(was, now, steps, ids)
    ensures forall i, j :: i in now && j in now && i != j ==> (now[i].order, now[i].channel) != (now[j].order, now[j].channel)
    ensures forall i :: i in now ==> if now[i].active then 0 <= now[i].order <= 50 else now[i].order <= -1001
  {
    SlotsMean(now);
    forall i | i in now ensures if now[i].active then 0 <= now[i].order <= 50 else now[i].order <= -1001 { assert RowFits(now, i); }
  }
}
