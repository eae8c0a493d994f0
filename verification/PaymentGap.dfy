/**
 Ending a repetition as it runs: its scheduled batches are read first and canceled one by one
 later, each under its own lock but without a second look at its status.
 */
module PaymentGap {
  import opened Common
  import opened PaymentModel
  import opened PaymentInvariant
  import opened PaymentWorld
  import opened PaymentSending
  import opened PaymentEffects
  import opened PaymentTheorems
  import opened PaymentSwitch
  import opened PaymentRuns

  /** Everything else, and the batches that were read to be canceled. */
  datatype Gap = Gap(w: World, todo: set<BatchId>)

  datatype GapEvent =
    | Step(e: Event)
    | EndRead(company: CompanyId, s: ScheduleId, version: nat)
    | EndCancel(b: BatchId)

  ghost predicate CanStep(g: Gap, e: GapEvent) {
    match e
    case Step(step) => Enabled(g.w, step)
    case EndRead(company, s, version) =>
      s in g.w.db.schedules && g.w.db.schedules[s].company == company && g.w.db.schedules[s].version == version && g.w.db.schedules[s].active
    case EndCancel(b) => b in g.todo
  }

  ghost function Stepped(g: Gap, e: GapEvent): Gap
    requires CanStep(g, e)
  {
    match e
    case Step(step) => g.(w := Next(g.w, step))
    case EndRead(company, s, version) =>
      Gap(g.w.(db := g.w.db.(schedules := g.w.db.schedules[s := Ended(g.w.db.schedules[s])])), g.todo + Upcoming(g.w.db, company, s))
    case EndCancel(b) => Gap(g.w.(db := CancelUnrequested(g.w.db, {b})), g.todo - {b})
  }

  ghost predicate CanRun(g: Gap, es: seq<GapEvent>)
    decreases |es|
  {
    es == [] || (CanStep(g, es[0]) && CanRun(Stepped(g, es[0]), es[1..]))
  }

  ghost function Ran(g: Gap, es: seq<GapEvent>): Gap
    requires CanRun(g, es)
    decreases |es|
  {
    if es == [] then g else Ran(Stepped(g, es[0]), es[1..])
  }

  // ---- when it is sound --------------------------------------------------------------------

  ghost predicate GapInv(g: Gap) { WorldInv(g.w) && g.todo <= g.w.db.batches.Keys }

  /** A dead batch was never approved and nothing of it was ever sent. */
  ghost predicate DeadIsUnsent(w: World, b: BatchId) {
    b in w.db.batches && Dead(w.db.batches[b].status) ==>
      && !HasApproval(w.db, b)
      && (forall k {:trigger w.sends[k]} :: 0 <= k < |w.sends| && w.sends[k].item in w.db.items ==> w.db.items[w.sends[k].item].batch != b)
  }

  ghost predicate AllDeadUnsent(w: World) { forall b {:trigger DeadIsUnsent(w, b)} :: DeadIsUnsent(w, b) }

  ghost predicate UnsentThroughout(g: Gap, es: seq<GapEvent>)
    requires CanRun(g, es)
    decreases |es|
  {
    AllDeadUnsent(g.w) && (es == [] || UnsentThroughout(Stepped(g, es[0]), es[1..]))
  }

  /** The batch is not paying when it is canceled. */
  predicate CleanCancel(g: Gap, e: GapEvent) {
    e.EndCancel? && e.b in g.w.db.batches ==> !Paying(g.w.db.batches[e.b].status)
  }

  ghost predicate CleanRun(g: Gap, es: seq<GapEvent>)
    requires CanRun(g, es)
    decreases |es|
  {
    es == [] || (CleanCancel(g, es[0]) && CleanRun(Stepped(g, es[0]), es[1..]))
  }

  lemma {:induction false} SoundIsUnsent(w: World)
    requires WorldInv(w)
    ensures AllDeadUnsent(w)
  {
    forall b ensures DeadIsUnsent(w, b) {
      if b in w.db.batches && Dead(w.db.batches[b].status) {
        forall a | a in w.db.approvals && w.db.approvals[a].batch == b ensures w.db.approvals[a].state != Approved {
          assert ApprovalSound(w.db, a);
        }
        forall k: nat | k < |w.sends| && w.sends[k].item in w.db.items ensures w.db.items[w.sends[k].item].batch != b {
          assert SendStands(w, k);
        }
      }
    }
  }

  lemma {:induction false} LateCancelServed(db: Db, b: BatchId)
    requires Inv(db) && b in db.batches && !Paying(db.batches[b].status)
    ensures Served(db, CancelUnrequested(db, {b}))
  {
    if Unrequested(db.batches[b].status) {
      CancelServed(db, {b});
    } else {
      OnlyItsRow(db, b);
      MoveServed(db, b, CanceledBatch);
    }
  }

  lemma {:induction false} BatchesStay(w: World, e: Event, b: BatchId)
    requires Enabled(w, e) && b in w.db.batches
    ensures b in Next(w, e).db.batches
  {
    if e.Service? { CompanyStays(w.db, e.call, b); } else { BatchOfItemStays(w, e, 0); }
  }

  lemma {:induction false} CleanStepKeeps(g: Gap, e: GapEvent)
    requires GapInv(g) && CanStep(g, e) && CleanCancel(g, e)
    ensures GapInv(Stepped(g, e))
  {
    match e
    case Step(step) =>
      NextKeeps(g.w, step);
      forall b | b in g.todo ensures b in Stepped(g, e).w.db.batches { BatchesStay(g.w, step, b); }
    case EndRead(company, s, version) =>
      var schedules := g.w.db.schedules[s := Ended(g.w.db.schedules[s])];
      SchedulesOnly(g.w.db, schedules);
      ServedKeeps(g.w, g.w.db.(schedules := schedules));
    case EndCancel(b) =>
      LateCancelSound(g.w.db, b);
      LateCancelServed(g.w.db, b);
      ServedKeeps(g.w, CancelUnrequested(g.w.db, {b}));
  }

  /** A paying batch canceled is dead under a standing approval. */
  lemma {:induction false} DirtyCancelShows(g: Gap, e: GapEvent)
    requires GapInv(g) && CanStep(g, e) && !CleanCancel(g, e)
    ensures !AllDeadUnsent(Stepped(g, e).w)
  {
    LateCancelSound(g.w.db, e.b);
    assert !DeadIsUnsent(Stepped(g, e).w, e.b);
  }

  /**
   Dead batches stay unapproved and unsent all through a run exactly when no cancellation of it
   met a paying batch; then everything the other theorems rest on holds at its end.
   */
  lemma {:induction false} UnsentIffClean(g: Gap, es: seq<GapEvent>)
    requires GapInv(g) && CanRun(g, es)
    ensures UnsentThroughout(g, es) <==> CleanRun(g, es)
    ensures CleanRun(g, es) ==> WorldInv(Ran(g, es).w)
    decreases |es|
  {
    SoundIsUnsent(g.w);
    if es != [] {
      if CleanCancel(g, es[0]) {
        CleanStepKeeps(g, es[0]);
        UnsentIffClean(Stepped(g, es[0]), es[1..]);
      } else {
        DirtyCancelShows(g, es[0]);
      }
    }
  }

  const FIRST := Gap(START, {})

  lemma {:induction false} FirstHolds()
    ensures GapInv(FIRST)
  {
    StartHolds();
  }

  /** The same from the empty database on. */
  lemma {:induction false} DeadUnsentIffClean(es: seq<GapEvent>)
    requires CanRun(FIRST, es)
    ensures UnsentThroughout(FIRST, es) <==> CleanRun(FIRST, es)
  {
    FirstHolds();
    UnsentIffClean(FIRST, es);
  }

  // ---- a batch approved and sent in the gap -----------------------------------------------------

  function Steps(es: seq<Event>): seq<GapEvent> { seq(|es|, n requires 0 <= n < |es| => Step(es[n])) }

  lemma {:induction false} PlainSteps(g: Gap, es: seq<Event>)
    requires Possible(g.w, es)
    ensures CanRun(g, Steps(es)) && Ran(g, Steps(es)) == Gap(After(g.w, es), g.todo)
    decreases |es|
  {
    if es != [] {
      assert Steps(es)[1..] == Steps(es[1..]);
      PlainSteps(Stepped(g, Step(es[0])), es[1..]);
    }
  }

  lemma {:induction false} RunOn(g: Gap, es: seq<GapEvent>, more: seq<GapEvent>)
    requires CanRun(g, es) && CanRun(Ran(g, es), more)
    ensures CanRun(g, es + more) && Ran(g, es + more) == Ran(Ran(g, es), more)
    decreases |es|
  {
    if es == [] {
      assert es + more == more;
    } else {
      assert (es + more)[1..] == es[1..] + more;
      RunOn(Stepped(g, es[0]), es[1..], more);
    }
  }

  const SCHEDULED := [
    Service(SaveRecipient(0, SOMEBODY)), Service(ConfigureFeature(1, true, "5", 0)),
    Service(SaveSchedule(0, Repetition(1, true, 1))), Service(AddOccurrence(1, 0, "May", [Line(0, 0, 100)], 0))]

  const APPROVING := [Service(AskApproval(1, 0, None, 9, 0)), Service(DecideRequest(0, true))]

  const WAITING := Batch(1, "May", Scheduled, 1, None, None, 0, None, Some(0))

  /** One occurrence of a repetition, waiting for its date. */
  predicate OccurrenceWaits(w: World) {
    && w.workers == map[] && w.sends == [] && w.db.approvals == map[]
    && w.db.recipients == map[0 := SOMEBODY] && w.db.settings == map[1 := Settings(1, true, "5")]
    && w.db.batches == map[0 := WAITING] && w.db.items == map[0 := Item(0, 0, "Ana", DESTINATION, 100, Pending, None)]
  }

  lemma {:induction false} OccurrenceAdded(db: Db)
    requires db == Db(map[0 := SOMEBODY], map[], map[], map[], map[1 := Settings(1, true, "5")], map[0 := Repetition(1, true, 1)])
    ensures Allowed(db, SCHEDULED[3].call)
    ensures Apply(db, SCHEDULED[3].call) == db.(batches := map[0 := WAITING], items := map[0 := Item(0, 0, "Ana", DESTINATION, 100, Pending, None)])
  {
    var lines := [Line(0, 0, 100)];
    assert lines[..0] == [];
    assert ItemsOf(db, 0, lines) == map[0 := Item(0, 0, "Ana", DESTINATION, 100, Pending, None)];
  }

  lemma {:induction false} ReachScheduled()
    ensures Possible(START, SCHEDULED) && OccurrenceWaits(After(START, SCHEDULED))
    ensures After(START, SCHEDULED).db.schedules == map[0 := Repetition(1, true, 1)]
  {
    var one := Next(START, SCHEDULED[0]);
    var two := Next(one, SCHEDULED[1]);
    assert two.db == Db(map[0 := SOMEBODY], map[], map[], map[], map[1 := Settings(1, true, "5")], map[]);
    var three := Next(two, SCHEDULED[2]);
    assert three.db.schedules == map[0 := Repetition(1, true, 1)];
    OccurrenceAdded(three.db);
    var rest := [SCHEDULED[1]] + ([SCHEDULED[2]] + ([SCHEDULED[3]] + []));
    FirstStep(three, SCHEDULED[3], []);
    FirstStep(two, SCHEDULED[2], [SCHEDULED[3]] + []);
    FirstStep(one, SCHEDULED[1], [SCHEDULED[2]] + ([SCHEDULED[3]] + []));
    FirstStep(START, SCHEDULED[0], rest);
    assert SCHEDULED == [SCHEDULED[0]] + rest;
  }

  lemma {:induction false} AskedMeanwhile(w: World)
    requires OccurrenceWaits(w)
    ensures Enabled(w, APPROVING[0]) && RequestAwaits(Next(w, APPROVING[0]))
  {}

  lemma {:induction false} ApprovedThen(w: World)
    requires WorldInv(w) && RequestAwaits(w)
    ensures Possible(w, [APPROVING[1]] + [])
    ensures var end := After(w, [APPROVING[1]] + []); end.workers == map[] && Left(end.db, 1, 0) && end.db.items[0].batch == 0
  {
    TapApproves(w);
    CallServed(w.db, APPROVING[1].call);
    TapDecides(w.db, 0, true);
    FirstStep(w, APPROVING[1], []);
  }

  /** The request of its date goes out and is approved. */
  lemma {:induction false} ApprovedMeanwhile(w: World)
    requires WorldInv(w) && OccurrenceWaits(w)
    ensures Possible(w, APPROVING) && WorldInv(After(w, APPROVING))
    ensures After(w, APPROVING).workers == map[] && Left(After(w, APPROVING).db, 1, 0) && After(w, APPROVING).db.items[0].batch == 0
  {
    AskedMeanwhile(w);
    NextKeeps(w, APPROVING[0]);
    ApprovedThen(Next(w, APPROVING[0]));
    FirstStep(w, APPROVING[0], [APPROVING[1]] + []);
    assert APPROVING == [APPROVING[0]] + ([APPROVING[1]] + []);
    RunKeeps(w, APPROVING);
  }

  lemma {:induction false} SentMeanwhile(w: World) returns (es: seq<Event>)
    requires WorldInv(w) && OccurrenceWaits(w)
    ensures Possible(w, es) && WorldInv(After(w, es))
    ensures var sent := After(w, es);
      && |sent.sends| == 1 && sent.sends[0].verdict == None && sent.sends[0].item == 0
      && 0 in sent.db.items && sent.db.items[0].batch == 0 && 0 in sent.db.batches && sent.db.batches[0].status == Processing
  {
    ApprovedMeanwhile(w);
    var approved := After(w, APPROVING);
    Sent(approved, 1, 0, 0);
    Joined(w, APPROVING, SendOne(approved, 0, 0));
    es := APPROVING + SendOne(approved, 0, 0);
    RunKeeps(w, es);
  }

  lemma {:induction false} FromRead(g: Gap) returns (es: seq<GapEvent>)
    requires GapInv(g) && OccurrenceWaits(g.w) && g.w.db.schedules == map[0 := Repetition(1, true, 1)]
    ensures CanRun(g, es)
    ensures var w := Ran(g, es).w;
      |w.sends| == 1 && w.sends[0].verdict == None && w.sends[0].item == 0 && 0 in w.db.items
      && w.db.items[0].batch == 0 && 0 in w.db.batches && Dead(w.db.batches[0].status)
  {
    var read := EndRead(1, 0, 1);
    var during := Stepped(g, read);
    CleanStepKeeps(g, read);
    assert 0 in during.todo;
    var steps := SentMeanwhile(during.w);
    PlainSteps(during, steps);
    var sent := Ran(during, Steps(steps));
    FirstGapStep(sent, EndCancel(0), []);
    RunOn(during, Steps(steps), [EndCancel(0)] + []);
    FirstGapStep(g, read, Steps(steps) + ([EndCancel(0)] + []));
    es := [read] + (Steps(steps) + ([EndCancel(0)] + []));
  }

  lemma {:induction false} FirstGapStep(g: Gap, e: GapEvent, es: seq<GapEvent>)
    requires CanStep(g, e) && CanRun(Stepped(g, e), es)
    ensures CanRun(g, [e] + es) && Ran(g, [e] + es) == Ran(Stepped(g, e), es)
  {
    assert ([e] + es)[1..] == es;
  }

  lemma {:induction false} ThroughoutAtEnd(g: Gap, es: seq<GapEvent>)
    requires CanRun(g, es)
    ensures UnsentThroughout(g, es) ==> AllDeadUnsent(Ran(g, es).w)
    decreases |es|
  {
    if es != [] { ThroughoutAtEnd(Stepped(g, es[0]), es[1..]); }
  }

  /** The repetition is ended; before its batch is canceled, that is requested, approved and sent. */
  lemma {:induction false} CanceledAfterSending() returns (es: seq<GapEvent>)
    ensures CanRun(FIRST, es) && !CleanRun(FIRST, es)
    ensures var w := Ran(FIRST, es).w;
      |w.sends| == 1 && w.sends[0].verdict == None && w.sends[0].item in w.db.items
      && w.db.items[w.sends[0].item].batch in w.db.batches && Dead(w.db.batches[w.db.items[w.sends[0].item].batch].status)
  {
    ReachScheduled();
    PlainSteps(FIRST, SCHEDULED);
    StartHolds();
    RunKeeps(START, SCHEDULED);
    es := FromRead(Gap(After(START, SCHEDULED), {}));
    RunOn(FIRST, Steps(SCHEDULED), es);
    es := Steps(SCHEDULED) + es;
    DeadUnsentIffClean(es);
    var w := Ran(FIRST, es).w;
    assert !DeadIsUnsent(w, 0);
    ThroughoutAtEnd(FIRST, es);
  }
}
