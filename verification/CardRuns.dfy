/** Runs in which a reading that was true when it was made is not when it is used. */
module CardRuns {
  import opened Common
  import opened CardModel
  import opened CardWorld

  const MINUTE := 60000
  const UNPAID := Detail(7, "unpaid", Some(100), Some(1))
  const CREATE := CreateOrder(0, 0, 100, 1, 0, 0)
  const DECLINE := Read(0, Row(Submitting), UNPAID, MINUTE)

  function Row(status: AttemptStatus): Attempt { Attempt(0, status, None, 100, 1, 0) }

  function Sale(status: OrderStatus, settled: nat): map<OrderId, Order> { map[0 := Order(status, ORDER_VALIDITY_MS, settled)] }

  /** The first card of the order was declined after a minute. */
  const DECLINED := World(Db(Sale(Pending, 0), map[0 := Row(Refused).(charge := Some(7))]), MINUTE, map[], map[], map[])

  lemma {:induction false} FirstStep(w: World, e: Event, es: seq<Event>)
    requires Enabled(w, e) && Possible(Next(w, e), es)
    ensures Possible(w, [e] + es) && After(w, [e] + es) == After(Next(w, e), es)
  {
    assert ([e] + es)[1..] == es;
  }

  lemma {:induction false} ReachDeclined(es: seq<Event>)
    requires Possible(DECLINED, es)
    ensures Possible(START, [CREATE] + ([DECLINE] + es)) && After(START, [CREATE] + ([DECLINE] + es)) == After(DECLINED, es)
  {
    var w := Next(START, CREATE);
    assert w.db.attempts == map[0 := Row(Submitting)];
    assert Enabled(w, DECLINE);
    assert Next(w, DECLINE).db.attempts == DECLINED.db.attempts;
    FirstStep(w, DECLINE, es);
    FirstStep(START, CREATE, [DECLINE] + es);
  }

  lemma {:induction false} DeclinedFacts(db: Db)
    requires db.attempts == DECLINED.db.attempts
    ensures !AnyBusy(db, 0) && AnyRefused(db, 0) && |Of(db, 0)| == 1
  {
    assert Of(db, 0) == {0};
    assert db.attempts[0].status == Refused;
  }

  /** A retry asked for in the last instant is reserved ten minutes later, on the order just closed. */
  lemma {:induction false} StalePayReservesClosedOrder() returns (es: seq<Event>)
    ensures Possible(START, es) && !OpenReserves(START, es)
    ensures var w := After(START, es); Closed(w.db, 0) && AnyBusy(w.db, 0)
  {
    var late := ORDER_VALIDITY_MS + OVERDUE_AFTER_MS + 1;
    var ask := PayRead(1, 0, ORDER_VALIDITY_MS, ORDER_VALIDITY_MS);
    var look, close := CloseRead(2, 0, late), CloseCommit(2, late);
    var retry := PayReserve(1, 1, 100, 1, late);
    DeclinedFacts(DECLINED.db);
    var asked := Next(DECLINED, ask);
    var looked := Next(asked, look);
    var closed := Next(looked, close);
    assert closed.db.orders[0].status == Declined;
    DeclinedFacts(closed.db);
    var end := Next(closed, retry);
    assert 1 in end.db.attempts && Busy(end.db.attempts[1].status);
    FirstStep(closed, retry, []);
    FirstStep(looked, close, [retry] + []);
    FirstStep(asked, look, [close] + ([retry] + []));
    FirstStep(DECLINED, ask, [look] + ([close] + ([retry] + [])));
    es := [ask] + ([look] + ([close] + ([retry] + [])));
    ReachDeclined(es);
    es := [CREATE] + ([DECLINE] + es);
    StartHolds();
    ClosedIdleIffOpenReserves(es);
    if OpenReserves(START, es) { IdleAtEnd(START, es, 0); }
  }

  lemma {:induction false} IdleAtEnd(w: World, es: seq<Event>, o: OrderId)
    requires Possible(w, es) && IdleThroughout(w, es)
    ensures ClosedIdle(After(w, es).db, o)
    decreases |es|
  {
    assert ClosedIdle(w.db, o);
    if es != [] { IdleAtEnd(Next(w, es[0]), es[1..], o); }
  }

  function Paying(charge: Charge): Detail { Detail(charge, "paid", Some(100), Some(1)) }

  /** The declined charge and its retry are both read paid, and both checks come before either confirmation. */
  lemma {:induction false} BothChecksFirstSettleTwice() returns (es: seq<Event>)
    ensures Possible(START, es) && !Clean(START, es)
    ensures var w := After(START, es); 0 in w.db.orders && w.db.orders[0].settled == 2
  {
    var t := 2 * MINUTE;
    var ask, retry := PayRead(1, 0, t, t), PayReserve(1, 1, 100, 1, t);
    DeclinedFacts(DECLINED.db);
    var asked := Next(DECLINED, ask);
    var retried := Next(asked, retry);
    var first, second := Row(Refused).(charge := Some(7)), Attempt(0, Submitting, None, 100, 1, t);
    assert retried == World(Db(Sale(Pending, 0), map[0 := first, 1 := second]), t, map[], map[], map[]);
    var check0, check1 := PaidCheck(1, 0, first, Paying(7), t), PaidCheck(2, 1, second, Paying(8), t);
    var one := Next(retried, check0);
    assert one == World(Db(Sale(Pending, 0), map[0 := first, 1 := second]), t, map[], map[1 := 0], map[]);
    var two := Next(one, check1);
    assert two == World(Db(Sale(Pending, 0), map[0 := first, 1 := second.(charge := Some(8))]), t, map[], map[1 := 0, 2 := 1], map[]);
    var end := ConfirmBoth(two, t);
    es := [Confirm(1, t)] + ([Confirm(2, t)] + []);
    FirstStep(one, check1, es);
    FirstStep(retried, check0, [check1] + es);
    FirstStep(asked, retry, [check0] + ([check1] + es));
    FirstStep(DECLINED, ask, [retry] + ([check0] + ([check1] + es)));
    es := [ask] + ([retry] + ([check0] + ([check1] + es)));
    ReachDeclined(es);
    es := [CREATE] + ([DECLINE] + es);
    SettledOnceIffClean(es);
    assert !Once(After(START, es).db, 0);
  }

  lemma {:induction false} ConfirmBoth(w: World, t: int) returns (end: World)
    requires w.clock <= t && w.checks == map[1 := 0, 2 := 1] && 0 in w.db.attempts && 1 in w.db.attempts
    requires w.db.attempts[0].order == 0 && w.db.attempts[0].status != PaidUp
    requires w.db.attempts[1].order == 0 && w.db.attempts[1].status != PaidUp
    requires 0 in w.db.orders && w.db.orders[0].settled == 0
    ensures var es := [Confirm(1, t)] + ([Confirm(2, t)] + []); Possible(w, es) && After(w, es) == end
    ensures 0 in end.db.orders && end.db.orders[0].settled == 2
  {
    var once := Next(w, Confirm(1, t));
    end := Next(once, Confirm(2, t));
    FirstStep(once, Confirm(2, t), []);
    FirstStep(w, Confirm(1, t), [Confirm(2, t)] + []);
  }
}
