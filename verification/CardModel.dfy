/**
 Card attempts of an order: reserved one at a time, moved by what the card provider says, and
 settled. Requests, notices, reconciliations and the closing of overdue orders interleave
 freely; whatever a process read before its transaction may be out of date by then.
 */
module CardModel {
  import opened Common

  type OrderId = nat
  type AttemptId = nat
  type Charge = nat

  const CARD_ATTEMPTS_PER_ORDER := 3
  const NOT_FOUND_AFTER_MS := 30 * 60000
  const OVERDUE_AFTER_MS := 10 * 60000
  const ORDER_VALIDITY_MS := 30 * 60000

  datatype OrderStatus = Pending | Paid | Expired | Failed | Refunded | Chargeback | Declined

  datatype AttemptStatus = Submitting | Approved | PaidUp | Refused | Canceled | Uncertain

  /** `settled` counts the settlements of the order: sale, access and coupon use. */
  datatype Order = Order(status: OrderStatus, expires: int, settled: nat)

  datatype Attempt = Attempt(order: OrderId, status: AttemptStatus, charge: Option<Charge>, total: nat, installments: nat, created: int)

  datatype Db = Db(orders: map<OrderId, Order>, attempts: map<AttemptId, Attempt>)

  predicate Busy(s: AttemptStatus) { s == Submitting || s == Approved || s == Uncertain }

  function Of(db: Db, o: OrderId): set<AttemptId> { set a | a in db.attempts && db.attempts[a].order == o }

  predicate AnyBusy(db: Db, o: OrderId) { exists a :: a in db.attempts && db.attempts[a].order == o && Busy(db.attempts[a].status) }

  /** Status words of the provider; any other is left to the admin. */
  function MapStatus(status: string): Option<AttemptStatus> {
    if status == "paid" then Some(PaidUp)
    else if status in {"approved", "waiting", "identified"} then Some(Approved)
    else if status == "unpaid" then Some(Refused)
    else if status in {"canceled", "expired"} then Some(Canceled)
    else None
  }

  /** What was read of a charge: its id, status, amounts. */
  datatype Detail = Detail(charge: Charge, status: string, total: Option<nat>, installments: Option<nat>)

  predicate Mismatch(seen: Attempt, d: Detail) {
    || d.total != Some(seen.total)
    || (d.installments.Some? && d.installments.value != seen.installments)
    || (seen.charge.Some? && seen.charge.value != d.charge)
  }

  function Move(db: Db, a: AttemptId, from: set<AttemptStatus>, to: AttemptStatus, charge: Option<Charge>): Db {
    if a in db.attempts && db.attempts[a].status in from
    then db.(attempts := db.attempts[a := db.attempts[a].(status := to, charge := charge)])
    else db
  }

  function ChargeOf(db: Db, a: AttemptId): Option<Charge> { if a in db.attempts then db.attempts[a].charge else None }

  // ---- transactions ----------------------------------------------------------------------

  /** A retry: nothing of the order in progress and attempts left, checked under the order's lock. */
  function Reserve(db: Db, o: OrderId, a: AttemptId, total: nat, installments: nat, now: int): Option<Db> {
    if o !in db.orders || AnyBusy(db, o) || |Of(db, o)| >= CARD_ATTEMPTS_PER_ORDER then None
    else Some(db.(attempts := db.attempts[a := Attempt(o, Submitting, None, total, installments, now)]))
  }

  /** What a retry is let in by, read before its transaction. */
  predicate MayPay(db: Db, o: OrderId, now: int) {
    && o in db.orders && db.orders[o].status == Pending && now <= db.orders[o].expires
    && !AnyBusy(db, o) && |Of(db, o)| < CARD_ATTEMPTS_PER_ORDER
  }

  predicate OtherPaid(db: Db, a: AttemptId, o: OrderId) {
    exists b :: b in db.attempts && b != a && db.attempts[b].order == o && db.attempts[b].status == PaidUp
  }

  /** Whatever became of the order in the meantime, a charge that was not paid before settles it. */
  function ConfirmCard(db: Db, a: AttemptId): Db {
    if a !in db.attempts || db.attempts[a].status == PaidUp || db.attempts[a].order !in db.orders then db else
    var o := db.attempts[a].order;
    Db(db.orders[o := db.orders[o].(status := Paid, settled := db.orders[o].settled + 1)],
       db.attempts[a := db.attempts[a].(status := PaidUp)])
  }

  predicate PaidTwice(db: Db, a: AttemptId) {
    a in db.attempts && db.attempts[a].order in db.orders && db.orders[db.attempts[a].order].status != Pending
    && OtherPaid(db, a, db.attempts[a].order)
  }

  function NoteCharge(db: Db, a: AttemptId, charge: Charge): Db {
    if a in db.attempts then db.(attempts := db.attempts[a := db.attempts[a].(charge := Some(charge))]) else db
  }

  predicate ReadsPaid(seen: Attempt, d: Detail) { !Mismatch(seen, d) && MapStatus(d.status) == Some(PaidUp) }

  /** Applies what was read of a charge, unless it is paid, to its attempt. */
  function Apply(db: Db, a: AttemptId, seen: Attempt, d: Detail): Db {
    if Mismatch(seen, d) then Move(db, a, {Submitting}, Uncertain, if seen.charge.Some? then seen.charge else Some(d.charge))
    else match MapStatus(d.status)
      case None => db
      case Some(Approved) => Move(db, a, {Submitting, Uncertain}, Approved, Some(d.charge))
      case Some(Refused) => Move(db, a, {Submitting, Uncertain, Approved}, Refused, Some(d.charge))
      case Some(Canceled) => Move(db, a, {Submitting, Uncertain, Approved}, Canceled, Some(d.charge))
      case _ => db
  }

  /** The whole reading with nothing in between: a paid charge is checked and confirmed. */
  function Observe(db: Db, a: AttemptId, seen: Attempt, d: Detail): Db {
    if !ReadsPaid(seen, d) then Apply(db, a, seen, d) else
    var noted := NoteCharge(db, a, d.charge);
    if PaidTwice(noted, a) then noted else ConfirmCard(noted, a)
  }

  /** The answer to the submission was lost. */
  function LoseAnswer(db: Db, a: AttemptId): Db { Move(db, a, {Submitting}, Uncertain, ChargeOf(db, a)) }

  /** The provider shows no charge although its time for that has passed, so none was made. */
  function NotFound(db: Db, a: AttemptId, now: int): Db {
    if a in db.attempts && now - db.attempts[a].created > NOT_FOUND_AFTER_MS
    then Move(db, a, {Submitting, Uncertain}, Canceled, ChargeOf(db, a)) else db
  }

  predicate AnyRefused(db: Db, o: OrderId) { exists a :: a in db.attempts && db.attempts[a].order == o && db.attempts[a].status == Refused }

  predicate Overdue(db: Db, o: OrderId, now: int) {
    o in db.orders && db.orders[o].status == Pending && db.orders[o].expires < now - OVERDUE_AFTER_MS && !AnyBusy(db, o)
  }

  /** `declined` was read with the overdue orders; the order is looked at again here. */
  function Close(db: Db, o: OrderId, declined: bool): Db {
    if o in db.orders && db.orders[o].status == Pending && !AnyBusy(db, o)
    then db.(orders := db.orders[o := db.orders[o].(status := if declined then Declined else Expired)])
    else db
  }

  // ---- what every transaction keeps ---------------------------------------------------------

  const PAID_FOR := {Paid, Refunded, Chargeback}

  function PaidOf(db: Db, o: OrderId): set<AttemptId> {
    set a | a in db.attempts && db.attempts[a].order == o && db.attempts[a].status == PaidUp
  }

  predicate OneBusy(db: Db, a: AttemptId, b: AttemptId) {
    (a in db.attempts && b in db.attempts && db.attempts[a].order == db.attempts[b].order
     && Busy(db.attempts[a].status) && Busy(db.attempts[b].status)) ==> a == b
  }

  predicate FewAttempts(db: Db, o: OrderId) { |Of(db, o)| <= CARD_ATTEMPTS_PER_ORDER }

  predicate Placed(db: Db, a: AttemptId) {
    a in db.attempts ==>
      && db.attempts[a].order in db.orders
      && (db.attempts[a].status == PaidUp ==> db.orders[db.attempts[a].order].status in PAID_FOR)
  }

  /** An order is settled once for every attempt that was paid. */
  predicate Counted(db: Db, o: OrderId) { o in db.orders ==> db.orders[o].settled == |PaidOf(db, o)| }

  predicate DeclinedForReason(db: Db, o: OrderId) { o in db.orders && db.orders[o].status == Declined ==> AnyRefused(db, o) }

  ghost predicate Inv(db: Db) {
    && (forall a, b {:trigger OneBusy(db, a, b)} :: OneBusy(db, a, b))
    && (forall o {:trigger FewAttempts(db, o)} :: FewAttempts(db, o))
    && (forall a {:trigger Placed(db, a)} :: Placed(db, a))
    && (forall o {:trigger Counted(db, o)} :: Counted(db, o))
    && (forall o {:trigger DeclinedForReason(db, o)} :: DeclinedForReason(db, o))
  }

  /** How an attempt may change: busy ones only among themselves or to an end, PAID never. */
  predicate AttemptGoes(before: AttemptStatus, after: AttemptStatus) {
    || before == after || after == PaidUp
    || (before == Submitting && after in {Approved, Uncertain, Refused, Canceled})
    || (before == Uncertain && after in {Approved, Refused, Canceled})
    || (before == Approved && after in {Refused, Canceled})
  }

  predicate SeenAs(row: Attempt, seen: Attempt) { seen.(status := row.status, charge := row.charge) == row }

  predicate AttemptKept(db: Db, after: Db, a: AttemptId) {
    a in db.attempts ==>
      && a in after.attempts && SeenAs(db.attempts[a], after.attempts[a])
      && AttemptGoes(db.attempts[a].status, after.attempts[a].status)
      && (db.attempts[a].status == PaidUp ==> after.attempts[a].status == PaidUp)
  }

  /** An order keeps its settlements, and what was paid for is not for sale again. */
  predicate OrderKept(db: Db, after: Db, o: OrderId) {
    o in db.orders ==>
      && o in after.orders && after.orders[o].expires == db.orders[o].expires && after.orders[o].settled >= db.orders[o].settled
      && (db.orders[o].status in PAID_FOR ==> after.orders[o].status in PAID_FOR)
  }

  /** No attempt made or paid. */
  ghost predicate Quiet(db: Db, after: Db) {
    && after.attempts.Keys == db.attempts.Keys && after.orders.Keys == db.orders.Keys
    && (forall a {:trigger AttemptKept(db, after, a)} :: AttemptKept(db, after, a))
    && (forall a :: a in db.attempts && after.attempts[a].status == PaidUp ==> db.attempts[a].status == PaidUp)
    && (forall o {:trigger OrderKept(db, after, o)} :: OrderKept(db, after, o))
    && (forall o :: o in db.orders ==> after.orders[o].settled == db.orders[o].settled)
  }

  lemma {:induction false} QuietSets(db: Db, after: Db, o: OrderId)
    requires Quiet(db, after)
    ensures Of(after, o) == Of(db, o) && PaidOf(after, o) == PaidOf(db, o)
    ensures AnyBusy(after, o) ==> AnyBusy(db, o)
    ensures AnyRefused(db, o) ==> AnyRefused(after, o)
  {
    forall a | a in db.attempts
      ensures after.attempts[a].order == db.attempts[a].order
      ensures after.attempts[a].status == PaidUp <==> db.attempts[a].status == PaidUp
    {
      assert AttemptKept(db, after, a);
    }
    if AnyBusy(after, o) {
      var a :| a in after.attempts && after.attempts[a].order == o && Busy(after.attempts[a].status);
      assert AttemptKept(db, after, a);
    }
    if AnyRefused(db, o) {
      var a :| a in db.attempts && db.attempts[a].order == o && db.attempts[a].status == Refused;
      assert AttemptKept(db, after, a);
    }
  }

  lemma {:induction false} QuietKeeps(db: Db, after: Db)
    requires Inv(db) && Quiet(db, after)
    requires forall o :: o in after.orders && after.orders[o].status == Declined && db.orders[o].status != Declined ==> AnyRefused(after, o)
    ensures Inv(after)
  {
    forall a, b ensures OneBusy(after, a, b) { assert OneBusy(db, a, b) && AttemptKept(db, after, a) && AttemptKept(db, after, b); }
    forall o ensures FewAttempts(after, o) { assert FewAttempts(db, o); QuietSets(db, after, o); }
    forall a ensures Placed(after, a) {
      assert Placed(db, a) && AttemptKept(db, after, a);
      if a in db.attempts { assert OrderKept(db, after, db.attempts[a].order); }
    }
    forall o ensures Counted(after, o) { assert Counted(db, o); QuietSets(db, after, o); }
    forall o ensures DeclinedForReason(after, o) { assert DeclinedForReason(db, o); QuietSets(db, after, o); }
  }

  lemma {:induction false} MoveQuiet(db: Db, a: AttemptId, from: set<AttemptStatus>, to: AttemptStatus, charge: Option<Charge>)
    requires to != PaidUp && PaidUp !in from && forall s :: s in from ==> AttemptGoes(s, to)
    ensures Quiet(db, Move(db, a, from, to, charge))
  {
    var after := Move(db, a, from, to, charge);
    forall x ensures AttemptKept(db, after, x) {}
    forall o ensures OrderKept(db, after, o) {}
  }

  lemma {:induction false} ApplyQuiet(db: Db, a: AttemptId, seen: Attempt, d: Detail)
    ensures Quiet(db, Apply(db, a, seen, d))
  {
    if Mismatch(seen, d) {
      MoveQuiet(db, a, {Submitting}, Uncertain, if seen.charge.Some? then seen.charge else Some(d.charge));
    } else {
      match MapStatus(d.status)
      case Some(Approved) => MoveQuiet(db, a, {Submitting, Uncertain}, Approved, Some(d.charge));
      case Some(Refused) => MoveQuiet(db, a, {Submitting, Uncertain, Approved}, Refused, Some(d.charge));
      case Some(Canceled) => MoveQuiet(db, a, {Submitting, Uncertain, Approved}, Canceled, Some(d.charge));
      case _ => StillQuiet(db);
    }
  }

  lemma {:induction false} StillQuiet(db: Db)
    ensures Quiet(db, db)
  {
    forall x ensures AttemptKept(db, db, x) {}
    forall o ensures OrderKept(db, db, o) {}
  }

  lemma {:induction false} NoteQuiet(db: Db, a: AttemptId, charge: Charge)
    ensures Quiet(db, NoteCharge(db, a, charge))
  {
    var after := NoteCharge(db, a, charge);
    forall x ensures AttemptKept(db, after, x) {}
    forall o ensures OrderKept(db, after, o) {}
  }

  lemma {:induction false} CloseQuiet(db: Db, o: OrderId, declined: bool)
    ensures Quiet(db, Close(db, o, declined))
  {
    var after := Close(db, o, declined);
    forall x ensures AttemptKept(db, after, x) {}
    forall p ensures OrderKept(db, after, p) {}
  }

  lemma {:induction false} ApplyKeeps(db: Db, a: AttemptId, seen: Attempt, d: Detail)
    requires Inv(db)
    ensures Inv(Apply(db, a, seen, d))
  {
    ApplyQuiet(db, a, seen, d);
    QuietKeeps(db, Apply(db, a, seen, d));
  }

  lemma {:induction false} LoseKeeps(db: Db, a: AttemptId)
    requires Inv(db)
    ensures Inv(LoseAnswer(db, a))
  {
    MoveQuiet(db, a, {Submitting}, Uncertain, ChargeOf(db, a));
    QuietKeeps(db, LoseAnswer(db, a));
  }

  lemma {:induction false} NotFoundQuiet(db: Db, a: AttemptId, now: int)
    ensures Quiet(db, NotFound(db, a, now))
  {
    StillQuiet(db);
    MoveQuiet(db, a, {Submitting, Uncertain}, Canceled, ChargeOf(db, a));
  }

  lemma {:induction false} NotFoundKeeps(db: Db, a: AttemptId, now: int)
    requires Inv(db)
    ensures Inv(NotFound(db, a, now))
  {
    NotFoundQuiet(db, a, now);
    QuietKeeps(db, NotFound(db, a, now));
  }

  lemma {:induction false} CloseKeeps(db: Db, o: OrderId, declined: bool)
    requires Inv(db) && (declined && o in db.orders && db.orders[o].status == Pending ==> AnyRefused(db, o))
    ensures Inv(Close(db, o, declined))
  {
    CloseQuiet(db, o, declined);
    forall p ensures AnyRefused(db, p) ==> AnyRefused(Close(db, o, declined), p) { QuietSets(db, Close(db, o, declined), p); }
    QuietKeeps(db, Close(db, o, declined));
  }

  lemma {:induction false} OfAdded(db: Db, after: Db, o: OrderId, a: AttemptId, p: OrderId)
    requires a !in db.attempts && a in after.attempts && after.attempts[a].order == o && after.attempts[a].status == Submitting
    requires after.attempts == db.attempts[a := after.attempts[a]]
    ensures |Of(after, p)| == |Of(db, p)| + (if p == o then 1 else 0)
    ensures PaidOf(after, p) == PaidOf(db, p)
    ensures AnyRefused(db, p) ==> AnyRefused(after, p)
  {
    assert Of(after, p) == if p == o then Of(db, p) + {a} else Of(db, p);
    if AnyRefused(db, p) {
      var x :| x in db.attempts && db.attempts[x].order == p && db.attempts[x].status == Refused;
      assert x in after.attempts && after.attempts[x].status == Refused;
    }
  }

  /** A new attempt, of an order that is there or one that is new. */
  lemma {:induction false} AddKeeps(db: Db, after: Db, o: OrderId, a: AttemptId)
    requires Inv(db) && a !in db.attempts && !AnyBusy(db, o) && |Of(db, o)| < CARD_ATTEMPTS_PER_ORDER
    requires a in after.attempts && after.attempts[a].order == o && after.attempts[a].status == Submitting
    requires after.attempts == db.attempts[a := after.attempts[a]]
    requires o in after.orders
    requires after.orders == db.orders || (o !in db.orders && after.orders == db.orders[o := after.orders[o]] && after.orders[o].status == Pending && after.orders[o].settled == 0)
    ensures Inv(after)
  {
    forall x, y ensures OneBusy(after, x, y) { assert OneBusy(db, x, y); }
    forall p ensures FewAttempts(after, p) { assert FewAttempts(db, p); OfAdded(db, after, o, a, p); }
    forall x ensures Placed(after, x) { assert Placed(db, x); }
    forall p ensures Counted(after, p) {
      assert Counted(db, p);
      OfAdded(db, after, o, a, p);
      if p !in db.orders { NonePaid(db, p); }
    }
    forall p ensures DeclinedForReason(after, p) { assert DeclinedForReason(db, p); OfAdded(db, after, o, a, p); }
  }

  lemma {:induction false} NonePaid(db: Db, o: OrderId)
    requires Inv(db) && o !in db.orders
    ensures Of(db, o) == {} && PaidOf(db, o) == {} && !AnyBusy(db, o)
  {
    forall a | a in db.attempts ensures db.attempts[a].order != o { assert Placed(db, a); }
  }

  lemma {:induction false} ReserveKeeps(db: Db, o: OrderId, a: AttemptId, total: nat, installments: nat, now: int)
    requires Inv(db) && a !in db.attempts
    ensures var reserved := Reserve(db, o, a, total, installments, now); reserved.Some? ==> Inv(reserved.value)
  {
    if Reserve(db, o, a, total, installments, now).Some? { AddKeeps(db, Reserve(db, o, a, total, installments, now).value, o, a); }
  }

  lemma {:induction false} ConfirmedSets(db: Db, a: AttemptId, p: OrderId)
    requires a in db.attempts && db.attempts[a].status != PaidUp && db.attempts[a].order in db.orders
    ensures var after := ConfirmCard(db, a);
      && Of(after, p) == Of(db, p)
      && PaidOf(after, p) == PaidOf(db, p) + (if p == db.attempts[a].order then {a} else {})
      && (p != db.attempts[a].order && AnyRefused(db, p) ==> AnyRefused(after, p))
  {
    var after := ConfirmCard(db, a);
    if p != db.attempts[a].order && AnyRefused(db, p) {
      var x :| x in db.attempts && db.attempts[x].order == p && db.attempts[x].status == Refused;
      assert x in after.attempts && after.attempts[x].status == Refused;
    }
  }

  lemma {:induction false} ConfirmKeeps(db: Db, a: AttemptId)
    requires Inv(db)
    ensures Inv(ConfirmCard(db, a))
  {
    var after := ConfirmCard(db, a);
    if after != db {
      forall x, y ensures OneBusy(after, x, y) { assert OneBusy(db, x, y); }
      forall p ensures FewAttempts(after, p) { assert FewAttempts(db, p); ConfirmedSets(db, a, p); }
      forall x ensures Placed(after, x) { assert Placed(db, x); }
      forall p ensures Counted(after, p) {
        assert Counted(db, p);
        ConfirmedSets(db, a, p);
        assert a !in PaidOf(db, p);
      }
      forall p ensures DeclinedForReason(after, p) { assert DeclinedForReason(db, p); ConfirmedSets(db, a, p); }
    }
  }

  lemma {:induction false} ObserveKeeps(db: Db, a: AttemptId, seen: Attempt, d: Detail)
    requires Inv(db)
    ensures Inv(Observe(db, a, seen, d))
  {
    if ReadsPaid(seen, d) {
      NoteQuiet(db, a, d.charge);
      QuietKeeps(db, NoteCharge(db, a, d.charge));
      ConfirmKeeps(NoteCharge(db, a, d.charge), a);
    } else {
      ApplyKeeps(db, a, seen, d);
    }
  }
}
