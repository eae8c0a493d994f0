/** What each reading, request and tick does to card attempts and orders, word by word. */
module CardMeaning {
  import opened Common
  import opened CardModel
  import opened CardWorld

  /** The charge is for the total, the installments and the charge the attempt knows. */
  predicate Agrees(seen: Attempt, d: Detail) {
    && d.total == Some(seen.total)
    && (d.installments.Some? ==> d.installments.value == seen.installments)
    && (seen.charge.Some? ==> d.charge == seen.charge.value)
  }

  /** One attempt gets a status and the charge that was read, if it is in one of these states; nothing else changes. */
  predicate Moved(db: Db, after: Db, a: AttemptId, from: set<AttemptStatus>, to: AttemptStatus, charge: Charge) {
    if a in db.attempts && db.attempts[a].status in from
    then after == db.(attempts := db.attempts[a := db.attempts[a].(status := to, charge := Some(charge))])
    else after == db
  }

  /** A reading that disagrees settles nothing: a submitting attempt becomes uncertain with the charge it knew, or else the one read. */
  lemma {:induction false} DisagreementMeans(db: Db, a: AttemptId, seen: Attempt, d: Detail)
    requires !Agrees(seen, d)
    ensures Moved(db, Observe(db, a, seen, d), a, {Submitting}, Uncertain, if seen.charge.Some? then seen.charge.value else d.charge)
  {}

  /** What each word of the provider moves. */
  lemma {:induction false} WordMeans(db: Db, a: AttemptId, seen: Attempt, d: Detail)
    requires Agrees(seen, d)
    ensures var after := Observe(db, a, seen, d);
      && (d.status in {"approved", "waiting", "identified"} ==> Moved(db, after, a, {Submitting, Uncertain}, Approved, d.charge))
      && (d.status == "unpaid" ==> Moved(db, after, a, {Submitting, Uncertain, Approved}, Refused, d.charge))
      && (d.status in {"canceled", "expired"} ==> Moved(db, after, a, {Submitting, Uncertain, Approved}, Canceled, d.charge))
      && (d.status !in {"paid", "approved", "waiting", "identified", "unpaid", "canceled", "expired"} ==> after == db)
  {}

  /** Another attempt of the order was paid, and the order is not waiting for a payment. */
  predicate PaidElsewhere(db: Db, a: AttemptId) {
    && a in db.attempts && db.attempts[a].order in db.orders && db.orders[db.attempts[a].order].status != Pending
    && exists b :: b in db.attempts && b != a && db.attempts[b].order == db.attempts[a].order && db.attempts[b].status == PaidUp
  }

  /** A paid charge is noted; it settles its order once, unless another attempt did. */
  lemma {:induction false} PaidMeans(db: Db, a: AttemptId, seen: Attempt, d: Detail)
    requires Agrees(seen, d) && d.status == "paid" && a in db.attempts && db.attempts[a].order in db.orders
    ensures var after := Observe(db, a, seen, d); var x, o := db.attempts[a], db.attempts[a].order;
      if x.status == PaidUp || PaidElsewhere(db, a) then after == db.(attempts := db.attempts[a := x.(charge := Some(d.charge))])
      else after == Db(db.orders[o := db.orders[o].(status := Paid, settled := db.orders[o].settled + 1)],
                       db.attempts[a := x.(charge := Some(d.charge), status := PaidUp)])
  {
    var noted := NoteCharge(db, a, d.charge);
    assert PaidTwice(noted, a) <==> PaidElsewhere(db, a) by {
      if PaidElsewhere(db, a) {
        var b :| b in db.attempts && b != a && db.attempts[b].order == db.attempts[a].order && db.attempts[b].status == PaidUp;
        assert noted.attempts[b] == db.attempts[b];
      }
      if PaidTwice(noted, a) {
        var b :| b in noted.attempts && b != a && noted.attempts[b].order == noted.attempts[a].order && noted.attempts[b].status == PaidUp;
        assert noted.attempts[b] == db.attempts[b];
      }
    }
    assert noted.attempts[a := noted.attempts[a].(status := PaidUp)] == db.attempts[a := db.attempts[a].(charge := Some(d.charge), status := PaidUp)];
  }

  /** No order is settled but by a reading of its attempt as paid for exactly what the attempt was for. */
  lemma {:induction false} SettlesOnlyAgreed(db: Db, a: AttemptId, seen: Attempt, d: Detail, o: OrderId)
    requires o in db.orders
    ensures var after := Observe(db, a, seen, d);
      && o in after.orders
      && (after.orders[o] != db.orders[o] ==> Agrees(seen, d) && d.status == "paid" && a in db.attempts && db.attempts[a].order == o)
  {
    if !Agrees(seen, d) { DisagreementMeans(db, a, seen, d); }
  }

  // ---- requests and ticks ----------------------------------------------------------------------------

  /** Nothing of the order is being submitted, approved or in doubt. */
  predicate Still(db: Db, o: OrderId) {
    forall a :: a in db.attempts && db.attempts[a].order == o ==> db.attempts[a].status !in {Submitting, Approved, Uncertain}
  }

  /** However they ended. */
  function Attempts(db: Db, o: OrderId): set<AttemptId> { set a | a in db.attempts.Keys && db.attempts[a].order == o }

  /** A retry asked for in time on an open order, with nothing in progress and fewer than three attempts made. */
  lemma {:induction false} AskMeans(db: Db, o: OrderId, now: int)
    ensures MayPay(db, o, now) <==> (
      && o in db.orders && db.orders[o].status == Pending && now <= db.orders[o].expires && Still(db, o)
      && |Attempts(db, o)| < 3)
  {
    assert AnyBusy(db, o) <==> !Still(db, o);
    assert Attempts(db, o) == Of(db, o);
  }

  /** The reservation looks again at everything but the order's status and time. */
  lemma {:induction false} ReserveMeans(db: Db, o: OrderId, a: AttemptId, total: nat, installments: nat, now: int)
    ensures var r := Reserve(db, o, a, total, installments, now);
      && (r.Some? <==> o in db.orders && Still(db, o) && |Attempts(db, o)| < 3)
      && (r.Some? ==> r.value == db.(attempts := db.attempts[a := Attempt(o, Submitting, None, total, installments, now)]))
  {
    assert AnyBusy(db, o) <==> !Still(db, o);
    assert Attempts(db, o) == Of(db, o);
  }

  /** A lost answer leaves a submission in doubt; half an hour without a charge at the provider ends it. */
  lemma {:induction false} SilenceMeans(db: Db, a: AttemptId, now: int)
    ensures LoseAnswer(db, a) == if a in db.attempts && db.attempts[a].status == Submitting
      then db.(attempts := db.attempts[a := db.attempts[a].(status := Uncertain)]) else db
    ensures NotFound(db, a, now) == if a in db.attempts && db.attempts[a].status in {Submitting, Uncertain} && now > db.attempts[a].created + 1800000
      then db.(attempts := db.attempts[a := db.attempts[a].(status := Canceled)]) else db
  {}

  /** Ten minutes past its expiry an open order with nothing in progress is due, and it closes if that is still so. */
  lemma {:induction false} CloseMeans(db: Db, o: OrderId, declined: bool, now: int)
    ensures Overdue(db, o, now) <==> o in db.orders && db.orders[o].status == Pending && db.orders[o].expires + 600000 < now && Still(db, o)
    ensures Close(db, o, declined) == if o in db.orders && db.orders[o].status == Pending && Still(db, o)
      then db.(orders := db.orders[o := db.orders[o].(status := if declined then Declined else Expired)]) else db
    ensures AnyRefused(db, o) <==> exists a :: a in db.attempts && db.attempts[a].order == o && db.attempts[a].status == Refused
  {
    assert AnyBusy(db, o) <==> !Still(db, o);
  }

  /** An order is open for half an hour from its request and starts with one attempt. */
  lemma {:induction false} CreateMeans(w: World, o: OrderId, a: AttemptId, total: nat, installments: nat, now: int, at: int)
    requires Enabled(w, CreateOrder(o, a, total, installments, now, at))
    ensures var after := Next(w, CreateOrder(o, a, total, installments, now, at)).db;
      && after.orders == w.db.orders[o := Order(Pending, now + 1800000, 0)]
      && after.attempts == w.db.attempts[a := Attempt(o, Submitting, None, total, installments, at)]
  {}

  // ---- readings over runs --------------------------------------------------------------------------

  /** Some process read the attempt as paid, for this total. */
  predicate ReadPaid(es: seq<Event>, a: AttemptId, total: nat) {
    exists n :: 0 <= n < |es| && es[n].PaidCheck? && es[n].a == a && es[n].d.total == Some(total) && es[n].d.status == "paid"
  }

  predicate AboutToConfirm(w: World, a: AttemptId) { exists p :: p in w.checks && w.checks[p] == a }

  /** Only attempts there are are about to be confirmed. */
  predicate ChecksStand(w: World) { forall p :: p in w.checks ==> w.checks[p] in w.db.attempts }

  lemma {:induction false} ChecksKept(w: World, e: Event)
    requires Enabled(w, e) && ChecksStand(w)
    ensures ChecksStand(Next(w, e))
  {
    forall p | p in Next(w, e).checks ensures Next(w, e).checks[p] in Next(w, e).db.attempts {
      if p in w.checks { AttemptMoves(w, e, w.checks[p]); }
    }
  }

  lemma {:induction false} CheckReads(w: World, e: Event, a: AttemptId)
    requires Enabled(w, e) && a in Next(w, e).db.attempts
    ensures Next(w, e).db.attempts[a].status == PaidUp ==>
      (a in w.db.attempts && w.db.attempts[a].status == PaidUp) || AboutToConfirm(w, a)
    ensures AboutToConfirm(Next(w, e), a) ==>
      AboutToConfirm(w, a) || (e.PaidCheck? && e.a == a && e.d.total == Some(Next(w, e).db.attempts[a].total) && e.d.status == "paid")
  {
    if AboutToConfirm(Next(w, e), a) {
      var p :| p in Next(w, e).checks && Next(w, e).checks[p] == a;
      if p in w.checks && w.checks[p] == a { assert AboutToConfirm(w, a); }
    }
  }

  lemma {:induction false} PaidWasRead(w: World, es: seq<Event>, a: AttemptId)
    requires Possible(w, es) && a in After(w, es).db.attempts && ChecksStand(w)
    requires After(w, es).db.attempts[a].status == PaidUp || AboutToConfirm(After(w, es), a)
    ensures (a in w.db.attempts && w.db.attempts[a].status == PaidUp) || AboutToConfirm(w, a) || ReadPaid(es, a, After(w, es).db.attempts[a].total)
    decreases |es|
  {
    if es != [] {
      var next := Next(w, es[0]);
      ChecksKept(w, es[0]);
      PaidWasRead(next, es[1..], a);
      if ReadPaid(es[1..], a, After(w, es).db.attempts[a].total) {
        var n :| 0 <= n < |es[1..]| && es[1..][n].PaidCheck? && es[1..][n].a == a
          && es[1..][n].d.total == Some(After(w, es).db.attempts[a].total) && es[1..][n].d.status == "paid";
        assert es[n + 1] == es[1..][n];
      } else {
        CheckReads(w, es[0], a);
        AttemptsOnlyGoForward(next, es[1..], a);
        assert es[0] == es[0];
      }
    }
  }

  /** In every run each paid attempt, and each about to be confirmed, was read as paid for its own total. */
  lemma {:induction false} PaidForItsTotal(es: seq<Event>, a: AttemptId)
    requires Possible(START, es) && a in After(START, es).db.attempts
    requires After(START, es).db.attempts[a].status == PaidUp || AboutToConfirm(After(START, es), a)
    ensures ReadPaid(es, a, After(START, es).db.attempts[a].total)
  {
    PaidWasRead(START, es, a);
  }

  /** What a request or a check has read is used once. */
  lemma {:induction false} UsedOnce(w: World, p: Worker, a: AttemptId, total: nat, installments: nat, at: int)
    requires w.clock <= at
    ensures p in w.checks ==> Next(w, Confirm(p, at)).checks == w.checks - {p}
    ensures p in w.closes ==> Next(w, CloseCommit(p, at)).closes == w.closes - {p}
    ensures p in w.pays && a !in w.db.attempts ==> Next(w, PayReserve(p, a, total, installments, at)).pays == w.pays - {p}
  {
  }
}
