/**
 The card service as it runs: every request, notice and tick reads first and writes later, and
 the clock never goes back.
 */
module CardWorld {
  import opened Common
  import opened CardModel

  type Worker = nat

  datatype Closing = Closing(order: OrderId, declined: bool)

  /** What processes remember from their readings: a retry let in, a paid charge to confirm, an overdue order. */
  datatype World = World(db: Db, clock: int, pays: map<Worker, OrderId>, checks: map<Worker, AttemptId>, closes: map<Worker, Closing>)

  const START := World(Db(map[], map[]), 0, map[], map[], map[])

  datatype Event =
    | CreateOrder(o: OrderId, a: AttemptId, total: nat, installments: nat, now: int, at: int)
    | PayRead(w: Worker, o: OrderId, now: int, at: int)
    | PayReserve(w: Worker, a: AttemptId, total: nat, installments: nat, at: int)
    | Read(a: AttemptId, seen: Attempt, d: Detail, at: int)
    | PaidCheck(w: Worker, a: AttemptId, seen: Attempt, d: Detail, at: int)
    | Confirm(w: Worker, at: int)
    | AnswerLost(a: AttemptId, at: int)
    | NeverFound(a: AttemptId, now: int, at: int)
    | CloseRead(w: Worker, o: OrderId, at: int)
    | CloseCommit(w: Worker, at: int)
    | GiveBack(o: OrderId, to: OrderStatus, at: int)

  /** `now` is the instant a request came in, never after what it then does. */
  predicate Enabled(w: World, e: Event) {
    && w.clock <= e.at
    && match e
       case CreateOrder(o, a, total, installments, now, at) => now <= at && o !in w.db.orders && a !in w.db.attempts
       case PayRead(p, o, now, at) => now <= at && MayPay(w.db, o, now)
       case PayReserve(p, a, total, installments, at) => p in w.pays && a !in w.db.attempts
       case Read(a, seen, d, at) => a in w.db.attempts && SeenAs(w.db.attempts[a], seen) && !ReadsPaid(seen, d)
       case PaidCheck(p, a, seen, d, at) => a in w.db.attempts && SeenAs(w.db.attempts[a], seen) && ReadsPaid(seen, d)
       case Confirm(p, at) => p in w.checks
       case AnswerLost(a, at) => true
       case NeverFound(a, now, at) => now <= at
       case CloseRead(p, o, at) => Overdue(w.db, o, at)
       case CloseCommit(p, at) => p in w.closes
       case GiveBack(o, to, at) => o in w.db.orders && w.db.orders[o].status in {Paid, Refunded} && to in {Refunded, Chargeback}
  }

  function Effect(w: World, e: Event): World
    requires Enabled(w, e)
  {
    match e
    case CreateOrder(o, a, total, installments, now, at) =>
      w.(db := Db(w.db.orders[o := Order(Pending, now + ORDER_VALIDITY_MS, 0)],
                  w.db.attempts[a := Attempt(o, Submitting, None, total, installments, at)]))
    case PayRead(p, o, now, at) => w.(pays := w.pays[p := o])
    case PayReserve(p, a, total, installments, at) =>
      var reserved := Reserve(w.db, w.pays[p], a, total, installments, at);
      w.(db := if reserved.Some? then reserved.value else w.db, pays := w.pays - {p})
    case Read(a, seen, d, at) => w.(db := Apply(w.db, a, seen, d))
    case PaidCheck(p, a, seen, d, at) =>
      var noted := NoteCharge(w.db, a, d.charge);
      w.(db := noted, checks := if PaidTwice(noted, a) then w.checks - {p} else w.checks[p := a])
    case Confirm(p, at) => w.(db := ConfirmCard(w.db, w.checks[p]), checks := w.checks - {p})
    case AnswerLost(a, at) => w.(db := LoseAnswer(w.db, a))
    case NeverFound(a, now, at) => w.(db := NotFound(w.db, a, now))
    case CloseRead(p, o, at) => w.(closes := w.closes[p := Closing(o, AnyRefused(w.db, o))])
    case CloseCommit(p, at) => w.(db := Close(w.db, w.closes[p].order, w.closes[p].declined), closes := w.closes - {p})
    case GiveBack(o, to, at) => w.(db := w.db.(orders := w.db.orders[o := w.db.orders[o].(status := to)]))
  }

  function Next(w: World, e: Event): World
    requires Enabled(w, e)
  {
    Effect(w, e).(clock := e.at)
  }

  predicate Possible(w: World, es: seq<Event>)
    decreases |es|
  {
    es == [] || (Enabled(w, es[0]) && Possible(Next(w, es[0]), es[1..]))
  }

  function After(w: World, es: seq<Event>): World
    requires Possible(w, es)
    decreases |es|
  {
    if es == [] then w else After(Next(w, es[0]), es[1..])
  }

  // ---- what every run keeps -----------------------------------------------------------------

  /** An order was overdue when it was read to be closed; if it had a declined attempt, it has one or was paid. */
  predicate ClosingHolds(w: World, p: Worker) {
    p in w.closes ==>
      var c := w.closes[p];
      && c.order in w.db.orders
      && w.db.orders[c.order].expires < w.clock - OVERDUE_AFTER_MS
      && (c.declined ==> AnyRefused(w.db, c.order) || w.db.orders[c.order].status in PAID_FOR)
  }

  predicate Closed(db: Db, o: OrderId) { o in db.orders && db.orders[o].status in {Declined, Expired} }

  predicate ClosedInTime(w: World, o: OrderId) { Closed(w.db, o) ==> w.db.orders[o].expires < w.clock - OVERDUE_AFTER_MS }

  ghost predicate WorldInv(w: World) {
    && Inv(w.db)
    && (forall p {:trigger ClosingHolds(w, p)} :: ClosingHolds(w, p))
    && (forall o {:trigger ClosedInTime(w, o)} :: ClosedInTime(w, o))
  }

  lemma {:induction false} GiveBackQuiet(db: Db, o: OrderId, to: OrderStatus)
    requires o in db.orders && db.orders[o].status in {Paid, Refunded} && to in {Refunded, Chargeback}
    ensures Quiet(db, db.(orders := db.orders[o := db.orders[o].(status := to)]))
  {
    var after := db.(orders := db.orders[o := db.orders[o].(status := to)]);
    forall x ensures AttemptKept(db, after, x) {}
    forall p ensures OrderKept(db, after, p) {}
  }

  lemma {:induction false} AttemptMoves(w: World, e: Event, a: AttemptId)
    requires Enabled(w, e)
    ensures AttemptKept(w.db, Next(w, e).db, a)
  {}

  lemma {:induction false} OrderMoves(w: World, e: Event, o: OrderId)
    requires Enabled(w, e)
    ensures OrderKept(w.db, Next(w, e).db, o)
  {}

  lemma {:induction false} StepMoves(w: World, e: Event, a: AttemptId, o: OrderId)
    requires Enabled(w, e)
    ensures AttemptKept(w.db, Next(w, e).db, a)
    ensures OrderKept(w.db, Next(w, e).db, o)
  {
    AttemptMoves(w, e, a);
    OrderMoves(w, e, o);
  }

  lemma {:induction false} DbKeeps(w: World, e: Event)
    requires WorldInv(w) && Enabled(w, e)
    ensures Inv(Next(w, e).db)
  {
    match e
    case CreateOrder(o, a, total, installments, now, at) =>
      NonePaid(w.db, o);
      AddKeeps(w.db, Next(w, e).db, o, a);
    case PayReserve(p, a, total, installments, at) => ReserveKeeps(w.db, w.pays[p], a, total, installments, at);
    case Read(a, seen, d, at) => ApplyKeeps(w.db, a, seen, d);
    case PaidCheck(p, a, seen, d, at) => NoteQuiet(w.db, a, d.charge); QuietKeeps(w.db, NoteCharge(w.db, a, d.charge));
    case Confirm(p, at) => ConfirmKeeps(w.db, w.checks[p]);
    case AnswerLost(a, at) => LoseKeeps(w.db, a);
    case NeverFound(a, now, at) => NotFoundKeeps(w.db, a, now);
    case CloseCommit(p, at) => assert ClosingHolds(w, p); CloseKeeps(w.db, w.closes[p].order, w.closes[p].declined);
    case GiveBack(o, to, at) => GiveBackQuiet(w.db, o, to); QuietKeeps(w.db, Next(w, e).db);
    case _ =>
  }

  /** A declined attempt stays declined unless it is paid, and then its order is. */
  lemma {:induction false} RefusedStays(w: World, e: Event, o: OrderId)
    requires WorldInv(w) && Enabled(w, e) && AnyRefused(w.db, o)
    ensures AnyRefused(Next(w, e).db, o) || (o in Next(w, e).db.orders && Next(w, e).db.orders[o].status in PAID_FOR)
  {
    var a :| a in w.db.attempts && w.db.attempts[a].order == o && w.db.attempts[a].status == Refused;
    StepMoves(w, e, a, o);
    DbKeeps(w, e);
    assert Placed(Next(w, e).db, a);
  }

  lemma {:induction false} ClosingKeeps(w: World, e: Event, p: Worker)
    requires WorldInv(w) && Enabled(w, e)
    ensures ClosingHolds(Next(w, e), p)
  {
    assert ClosingHolds(w, p);
    if p in w.closes && p in Next(w, e).closes && w.closes[p] == Next(w, e).closes[p] {
      StepMoves(w, e, 0, w.closes[p].order);
      if AnyRefused(w.db, w.closes[p].order) { RefusedStays(w, e, w.closes[p].order); }
    }
  }

  lemma {:induction false} InTimeKeeps(w: World, e: Event, o: OrderId)
    requires WorldInv(w) && Enabled(w, e)
    ensures ClosedInTime(Next(w, e), o)
  {
    assert ClosedInTime(w, o);
    if e.CloseCommit? { assert ClosingHolds(w, e.w); }
  }

  lemma {:induction false} StepKeeps(w: World, e: Event)
    requires WorldInv(w) && Enabled(w, e)
    ensures WorldInv(Next(w, e))
  {
    DbKeeps(w, e);
    forall p ensures ClosingHolds(Next(w, e), p) { ClosingKeeps(w, e, p); }
    forall o ensures ClosedInTime(Next(w, e), o) { InTimeKeeps(w, e, o); }
  }

  lemma {:induction false} RunKeeps(w: World, es: seq<Event>)
    requires WorldInv(w) && Possible(w, es)
    ensures WorldInv(After(w, es))
    decreases |es|
  {
    if es != [] {
      StepKeeps(w, es[0]);
      RunKeeps(Next(w, es[0]), es[1..]);
    }
  }

  lemma {:induction false} StartHolds()
    ensures WorldInv(START)
  {}

  /** However retries, notices and reconciliations race, one attempt is in progress at most, three are ever made. */
  lemma {:induction false} OneAttemptInProgress(es: seq<Event>, o: OrderId, a: AttemptId, b: AttemptId)
    requires Possible(START, es)
    ensures |Of(After(START, es).db, o)| <= CARD_ATTEMPTS_PER_ORDER
    ensures OneBusy(After(START, es).db, a, b)
  {
    StartHolds();
    RunKeeps(START, es);
    assert OneBusy(After(START, es).db, a, b) && FewAttempts(After(START, es).db, o);
  }

  /** Over any run PAID stays, an approval is never undone, and a declined or canceled attempt can only be paid. */
  lemma {:induction false} AttemptsOnlyGoForward(w: World, es: seq<Event>, a: AttemptId)
    requires Possible(w, es) && a in w.db.attempts
    ensures var was := w.db.attempts[a]; var db := After(w, es).db;
      && a in db.attempts && SeenAs(was, db.attempts[a])
      && (was.status == PaidUp ==> db.attempts[a].status == PaidUp)
      && (was.status in {Refused, Canceled} ==> db.attempts[a].status in {was.status, PaidUp})
      && (was.status == Approved ==> db.attempts[a].status in {Approved, PaidUp, Refused, Canceled})
      && (db.attempts[a].status == Submitting ==> was.status == Submitting)
    decreases |es|
  {
    if es != [] {
      StepMoves(w, es[0], a, 0);
      AttemptsOnlyGoForward(Next(w, es[0]), es[1..], a);
    }
  }

  // ---- settlements ----------------------------------------------------------------------------

  /** In every run an order is settled as often as attempts of it were paid, and once settled it stays paid for. */
  lemma {:induction false} SettledPerPayment(es: seq<Event>, o: OrderId)
    requires Possible(START, es)
    ensures var db := After(START, es).db;
      o in db.orders ==>
        && db.orders[o].settled == |PaidOf(db, o)| <= CARD_ATTEMPTS_PER_ORDER
        && (db.orders[o].settled > 0 ==> db.orders[o].status in PAID_FOR)
  {
    StartHolds();
    RunKeeps(START, es);
    var db := After(START, es).db;
    assert Counted(db, o) && FewAttempts(db, o);
    Within(PaidOf(db, o), Of(db, o));
    if o in db.orders && db.orders[o].settled > 0 {
      var a :| a in PaidOf(db, o);
      assert Placed(db, a);
    }
  }

  lemma {:induction false} Within(s: set<AttemptId>, t: set<AttemptId>)
    requires s <= t
    ensures |s| <= |t|
  {
    assert t == s + (t - s);
  }

  predicate Once(db: Db, o: OrderId) { o in db.orders ==> db.orders[o].settled <= 1 }

  ghost predicate AllOnce(db: Db) { forall o {:trigger Once(db, o)} :: Once(db, o) }

  /** The confirmation finds no other paid attempt of its order, or its own already paid. */
  predicate CleanStep(w: World, e: Event) {
    e.Confirm? && e.w in w.checks && w.checks[e.w] in w.db.attempts ==>
      var a := w.checks[e.w];
      w.db.attempts[a].status == PaidUp || !OtherPaid(w.db, a, w.db.attempts[a].order)
  }

  predicate Clean(w: World, es: seq<Event>)
    requires Possible(w, es)
    decreases |es|
  {
    es == [] || (CleanStep(w, es[0]) && Clean(Next(w, es[0]), es[1..]))
  }

  /** Confirming an attempt that was not paid leaves its order settled once exactly when no other attempt is paid. */
  lemma {:induction false} ConfirmSettlesOnce(db: Db, a: AttemptId)
    requires Inv(db) && a in db.attempts && db.attempts[a].status != PaidUp
    ensures Once(ConfirmCard(db, a), db.attempts[a].order) <==> !OtherPaid(db, a, db.attempts[a].order)
  {
    var o := db.attempts[a].order;
    assert Placed(db, a) && Counted(db, o);
    assert a !in PaidOf(db, o);
    if OtherPaid(db, a, o) {
      var b :| b in db.attempts && b != a && db.attempts[b].order == o && db.attempts[b].status == PaidUp;
      assert b in PaidOf(db, o);
    } else {
      assert PaidOf(db, o) == {};
    }
  }

  lemma {:induction false} OnceStep(w: World, e: Event)
    requires WorldInv(w) && Enabled(w, e) && AllOnce(w.db)
    ensures AllOnce(Next(w, e).db) <==> CleanStep(w, e)
  {
    var after := Next(w, e).db;
    if e.Confirm? && w.checks[e.w] in w.db.attempts && w.db.attempts[w.checks[e.w]].status != PaidUp {
      var a := w.checks[e.w];
      ConfirmSettlesOnce(w.db, a);
      assert Placed(w.db, a);
      forall o | o != w.db.attempts[a].order ensures Once(after, o) { assert Once(w.db, o); }
      if AllOnce(after) { assert Once(after, w.db.attempts[a].order); }
    } else {
      forall o ensures Once(after, o) { assert Once(w.db, o); }
    }
  }

  lemma {:induction false} TwiceStays(w: World, es: seq<Event>, o: OrderId)
    requires Possible(w, es) && !Once(w.db, o)
    ensures !Once(After(w, es).db, o)
    decreases |es|
  {
    if es != [] {
      StepMoves(w, es[0], 0, o);
      TwiceStays(Next(w, es[0]), es[1..], o);
    }
  }

  lemma {:induction false} OnceAlong(w: World, es: seq<Event>)
    requires WorldInv(w) && Possible(w, es) && AllOnce(w.db)
    ensures AllOnce(After(w, es).db) <==> Clean(w, es)
    decreases |es|
  {
    if es != [] {
      OnceStep(w, es[0]);
      StepKeeps(w, es[0]);
      var next := Next(w, es[0]);
      if AllOnce(next.db) {
        OnceAlong(next, es[1..]);
      } else {
        var o :| !Once(next.db, o);
        TwiceStays(next, es[1..], o);
        assert !Once(After(w, es).db, o);
      }
    }
  }

  /** In a run no order is settled twice exactly when every confirmation found no other paid attempt of its order. */
  lemma {:induction false} SettledOnceIffClean(es: seq<Event>)
    requires Possible(START, es)
    ensures AllOnce(After(START, es).db) <==> Clean(START, es)
  {
    StartHolds();
    OnceAlong(START, es);
  }

  /** Every confirmation follows its own check at once. */
  predicate Prompt(w: World, es: seq<Event>)
    requires Possible(w, es)
    decreases |es|
  {
    es == [] || (!es[0].Confirm? && PromptFrom(Next(w, es[0]), es[0], es[1..]))
  }

  predicate PromptFrom(w: World, last: Event, es: seq<Event>)
    requires Possible(w, es)
    decreases |es|
  {
    es == [] || ((es[0].Confirm? ==> last.PaidCheck? && last.w == es[0].w) && PromptFrom(Next(w, es[0]), es[0], es[1..]))
  }

  lemma {:induction false} CheckedIsClean(w: World, last: Event, e: Event)
    requires WorldInv(w) && Enabled(w, last) && Enabled(Next(w, last), e)
    requires e.Confirm? ==> last.PaidCheck? && last.w == e.w
    ensures CleanStep(Next(w, last), e)
  {
    if e.Confirm? {
      var db := Next(w, last).db;
      StepKeeps(w, last);
      var a := last.a;
      OtherPaidIsSeen(db, a);
    }
  }

  /** The check for a second payment sees every other paid attempt: its order is not pending any more. */
  lemma {:induction false} OtherPaidIsSeen(db: Db, a: AttemptId)
    requires Inv(db) && a in db.attempts
    ensures OtherPaid(db, a, db.attempts[a].order) <==> PaidTwice(db, a)
  {
    assert Placed(db, a);
    if OtherPaid(db, a, db.attempts[a].order) {
      var b :| b in db.attempts && b != a && db.attempts[b].order == db.attempts[a].order && db.attempts[b].status == PaidUp;
      assert Placed(db, b);
    }
  }

  lemma {:induction false} PromptFromIsClean(w: World, last: Event, es: seq<Event>)
    requires WorldInv(w) && Enabled(w, last) && Possible(Next(w, last), es) && PromptFrom(Next(w, last), last, es)
    ensures Clean(Next(w, last), es)
    decreases |es|
  {
    if es != [] {
      CheckedIsClean(w, last, es[0]);
      StepKeeps(w, last);
      PromptFromIsClean(Next(w, last), es[0], es[1..]);
    }
  }

  /** With every check and its confirmation uninterrupted, no order is settled twice. */
  lemma {:induction false} PromptSettlesOnce(es: seq<Event>, o: OrderId)
    requires Possible(START, es) && Prompt(START, es)
    ensures Once(After(START, es).db, o)
  {
    StartHolds();
    if es != [] { PromptFromIsClean(START, es[0], es[1..]); }
    SettledOnceIffClean(es);
    assert Once(After(START, es).db, o);
  }

  /** A reading with nothing in between is a check and, unless another attempt was paid, its confirmation. */
  lemma {:induction false} ObserveIsCheckAndConfirm(w: World, p: Worker, a: AttemptId, seen: Attempt, d: Detail, at: int)
    requires Enabled(w, PaidCheck(p, a, seen, d, at))
    ensures var checked := Next(w, PaidCheck(p, a, seen, d, at));
      && (p in checked.checks <==> !PaidTwice(checked.db, a))
      && Observe(w.db, a, seen, d) == if p in checked.checks then Next(checked, Confirm(p, at)).db else checked.db
  {}

  // ---- closed orders ---------------------------------------------------------------------

  predicate ClosedIdle(db: Db, o: OrderId) { Closed(db, o) ==> !AnyBusy(db, o) }

  ghost predicate AllIdle(db: Db) { forall o {:trigger ClosedIdle(db, o)} :: ClosedIdle(db, o) }

  ghost predicate IdleThroughout(w: World, es: seq<Event>)
    requires Possible(w, es)
    decreases |es|
  {
    AllIdle(w.db) && (es == [] || IdleThroughout(Next(w, es[0]), es[1..]))
  }

  /** A reservation that goes through finds its order not closed. */
  predicate OpenStep(w: World, e: Event) {
    e.PayReserve? && e.w in w.pays && Reserve(w.db, w.pays[e.w], e.a, e.total, e.installments, e.at).Some? ==> !Closed(w.db, w.pays[e.w])
  }

  predicate OpenReserves(w: World, es: seq<Event>)
    requires Possible(w, es)
    decreases |es|
  {
    es == [] || (OpenStep(w, es[0]) && OpenReserves(Next(w, es[0]), es[1..]))
  }

  /** A closed order with nothing in progress stays so through a reservation exactly when its attempts are used up. */
  lemma {:induction false} ReserveOnClosed(db: Db, o: OrderId, a: AttemptId, total: nat, installments: nat, now: int)
    requires Inv(db) && Closed(db, o) && !AnyBusy(db, o) && a !in db.attempts
    ensures var reserved := Reserve(db, o, a, total, installments, now);
      ClosedIdle(if reserved.Some? then reserved.value else db, o) <==> |Of(db, o)| == CARD_ATTEMPTS_PER_ORDER
  {
    assert FewAttempts(db, o);
    var reserved := Reserve(db, o, a, total, installments, now);
    if reserved.Some? {
      var after := reserved.value;
      assert a in after.attempts && after.attempts[a].order == o && Busy(after.attempts[a].status);
    }
  }

  lemma {:induction false} IdleMove(db: Db, after: Db, o: OrderId)
    requires after.attempts.Keys == db.attempts.Keys && ClosedIdle(db, o)
    requires forall a {:trigger AttemptKept(db, after, a)} :: AttemptKept(db, after, a)
    requires Closed(after, o) && !Closed(db, o) ==> !AnyBusy(db, o)
    ensures ClosedIdle(after, o)
  {
    if Closed(after, o) {
      forall a | a in after.attempts && after.attempts[a].order == o ensures !Busy(after.attempts[a].status) {
        assert AttemptKept(db, after, a);
      }
    }
  }

  lemma {:induction false} IdleUnlessReserved(w: World, e: Event, o: OrderId)
    requires WorldInv(w) && Enabled(w, e) && ClosedIdle(w.db, o) && !e.PayReserve?
    ensures ClosedIdle(Next(w, e).db, o)
  {
    var after := Next(w, e).db;
    if !e.CreateOrder? {
      forall a ensures AttemptKept(w.db, after, a) { StepMoves(w, e, a, o); }
      IdleMove(w.db, after, o);
    }
  }

  lemma {:induction false} IdleReserve(w: World, e: Event)
    requires WorldInv(w) && Enabled(w, e) && AllIdle(w.db) && e.PayReserve?
    ensures AllIdle(Next(w, e).db) <==> OpenStep(w, e)
  {
    var o := w.pays[e.w];
    var after := Next(w, e).db;
    if Reserve(w.db, o, e.a, e.total, e.installments, e.at).Some? {
      assert e.a in after.attempts && after.attempts[e.a].order == o && Busy(after.attempts[e.a].status);
      assert AnyBusy(after, o);
      if Closed(w.db, o) { assert !ClosedIdle(after, o); }
      forall p | p != o ensures ClosedIdle(after, p) {
        assert ClosedIdle(w.db, p);
      }
    }
  }

  lemma {:induction false} IdleStep(w: World, e: Event)
    requires WorldInv(w) && Enabled(w, e) && AllIdle(w.db)
    ensures AllIdle(Next(w, e).db) <==> OpenStep(w, e)
  {
    if e.PayReserve? {
      IdleReserve(w, e);
    } else {
      forall o ensures ClosedIdle(Next(w, e).db, o) { assert ClosedIdle(w.db, o); IdleUnlessReserved(w, e, o); }
    }
  }

  lemma {:induction false} IdleAlong(w: World, es: seq<Event>)
    requires WorldInv(w) && Possible(w, es) && AllIdle(w.db)
    ensures IdleThroughout(w, es) <==> OpenReserves(w, es)
    decreases |es|
  {
    if es != [] {
      IdleStep(w, es[0]);
      StepKeeps(w, es[0]);
      var next := Next(w, es[0]);
      if AllIdle(next.db) { IdleAlong(next, es[1..]); }
    }
  }

  /** Closed orders have nothing in progress all through a run exactly when no reservation of it met a closed order. */
  lemma {:induction false} ClosedIdleIffOpenReserves(es: seq<Event>)
    requires Possible(START, es)
    ensures IdleThroughout(START, es) <==> OpenReserves(START, es)
  {
    StartHolds();
    IdleAlong(START, es);
  }

  /** A closed order was closed more than ten minutes past its expiry and never settled, and a declined one has a declined card. */
  lemma {:induction false} ClosedLateAndForReason(es: seq<Event>, o: OrderId)
    requires Possible(START, es) && Closed(After(START, es).db, o)
    ensures var w := After(START, es);
      && w.db.orders[o].expires < w.clock - OVERDUE_AFTER_MS
      && w.db.orders[o].settled == 0
      && (w.db.orders[o].status == Declined ==> AnyRefused(w.db, o))
  {
    StartHolds();
    RunKeeps(START, es);
    var w := After(START, es);
    assert ClosedInTime(w, o) && DeclinedForReason(w.db, o) && Counted(w.db, o);
    forall a | a in w.db.attempts && w.db.attempts[a].order == o ensures w.db.attempts[a].status != PaidUp { assert Placed(w.db, a); }
    assert PaidOf(w.db, o) == {};
  }

  /** Whatever closes an order closes it with every attempt ended. */
  lemma {:induction false} ClosingFindsAllEnded(es: seq<Event>, e: Event, o: OrderId)
    requires Possible(START, es) && Enabled(After(START, es), e)
    requires !Closed(After(START, es).db, o) && Closed(Next(After(START, es), e).db, o)
    ensures forall a :: a in Next(After(START, es), e).db.attempts && Next(After(START, es), e).db.attempts[a].order == o ==>
      Next(After(START, es), e).db.attempts[a].status in {Refused, Canceled}
  {
    StartHolds();
    RunKeeps(START, es);
    var w := After(START, es);
    StepKeeps(w, e);
    forall a | a in w.db.attempts && w.db.attempts[a].order == o ensures w.db.attempts[a].status in {Refused, Canceled} {
      assert Placed(w.db, a);
    }
  }
}
