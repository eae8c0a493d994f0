/** The card service as it runs: attempts reserved, moved and settled in place. */
module CardService {
  import opened Common
  import opened CardModel

  const PAGE := 50

  class CardDesk {
    var orders: map<OrderId, Order>
    var attempts: map<AttemptId, Attempt>

    constructor ()
      ensures Rows() == Db(map[], map[]) && Inv(Rows())
    {
      orders, attempts := map[], map[];
    }

    function Rows(): Db
      reads this
    {
      Db(orders, attempts)
    }

    /** Attempts of the order, and whether one is in progress or declined. */
    method Look(o: OrderId) returns (count: nat, busy: bool, refused: bool)
      ensures count == |Of(Rows(), o)| && busy == AnyBusy(Rows(), o) && refused == AnyRefused(Rows(), o)
    {
      busy, refused := false, false;
      var todo := attempts.Keys;
      var found: set<AttemptId> := {};
      while todo != {}
        invariant todo <= attempts.Keys && found == Of(Rows(), o) - todo
        invariant busy ==> AnyBusy(Rows(), o)
        invariant refused ==> AnyRefused(Rows(), o)
        invariant forall a :: a in found ==> (Busy(attempts[a].status) ==> busy) && (attempts[a].status == Refused ==> refused)
        decreases |todo|
      {
        var a :| a in todo;
        if attempts[a].order == o {
          found := found + {a};
          busy := busy || Busy(attempts[a].status);
          refused := refused || attempts[a].status == Refused;
        }
        todo := todo - {a};
      }
      assert found == Of(Rows(), o);
      count := |found|;
      forall a | a in attempts && attempts[a].order == o ensures a in found {}
    }

    /** Whether a retry asked for at `now` is let in; its transaction comes later. */
    method AskToPay(o: OrderId, now: int) returns (letIn: bool)
      ensures letIn <==> MayPay(Rows(), o, now)
    {
      if o !in orders || orders[o].status != Pending || now > orders[o].expires { return false; }
      var count, busy, refused := Look(o);
      return !busy && count < CARD_ATTEMPTS_PER_ORDER;
    }

    method ReserveAttempt(o: OrderId, a: AttemptId, total: nat, installments: nat, now: int) returns (reserved: bool)
      requires a !in attempts
      modifies this`attempts
      ensures reserved <==> Reserve(old(Rows()), o, a, total, installments, now).Some?
      ensures Rows() == if reserved then Reserve(old(Rows()), o, a, total, installments, now).value else old(Rows())
      ensures Inv(old(Rows())) ==> Inv(Rows())
    {
      if Inv(Rows()) { ReserveKeeps(Rows(), o, a, total, installments, now); }
      if o !in orders { return false; }
      var count, busy, refused := Look(o);
      if busy || count >= CARD_ATTEMPTS_PER_ORDER { return false; }
      attempts := attempts[a := Attempt(o, Submitting, None, total, installments, now)];
      return true;
    }

    method MoveAttempt(a: AttemptId, from: set<AttemptStatus>, to: AttemptStatus, charge: Option<Charge>)
      modifies this`attempts
      ensures Rows() == Move(old(Rows()), a, from, to, charge)
    {
      if a in attempts && attempts[a].status in from { attempts := attempts[a := attempts[a].(status := to, charge := charge)]; }
    }

    method Confirm(a: AttemptId) returns (settled: bool)
      modifies this
      ensures Rows() == ConfirmCard(old(Rows()), a) && (settled <==> Rows() != old(Rows()))
      ensures Inv(old(Rows())) ==> Inv(Rows())
    {
      if Inv(Rows()) { ConfirmKeeps(Rows(), a); }
      if a !in attempts || attempts[a].status == PaidUp || attempts[a].order !in orders { return false; }
      var o := attempts[a].order;
      attempts := attempts[a := attempts[a].(status := PaidUp)];
      orders := orders[o := orders[o].(status := Paid, settled := orders[o].settled + 1)];
      assert attempts[a].status != old(attempts)[a].status;
      return true;
    }

    /** Notes the charge that was read paid; another paid attempt of the order leaves the rest to the admin. */
    method CheckPaid(a: AttemptId, charge: Charge) returns (twice: bool)
      modifies this`attempts
      ensures Rows() == NoteCharge(old(Rows()), a, charge) && twice == PaidTwice(Rows(), a)
    {
      if a in attempts { attempts := attempts[a := attempts[a].(charge := Some(charge))]; }
      if a !in attempts || attempts[a].order !in orders || orders[attempts[a].order].status == Pending { return false; }
      var o := attempts[a].order;
      var todo := attempts.Keys - {a};
      while todo != {}
        invariant todo <= attempts.Keys - {a}
        invariant forall b :: b in attempts && b != a && attempts[b].order == o && attempts[b].status == PaidUp ==> b in todo
        decreases |todo|
      {
        var b :| b in todo;
        if attempts[b].order == o && attempts[b].status == PaidUp { return true; }
        todo := todo - {b};
      }
      return false;
    }

    method ObserveCharge(a: AttemptId, seen: Attempt, d: Detail)
      modifies this
      ensures Rows() == Observe(old(Rows()), a, seen, d)
      ensures Inv(old(Rows())) ==> Inv(Rows())
    {
      if Inv(Rows()) { ObserveKeeps(Rows(), a, seen, d); }
      if d.total != Some(seen.total) || (d.installments.Some? && d.installments.value != seen.installments)
        || (seen.charge.Some? && seen.charge.value != d.charge)
      {
        MoveAttempt(a, {Submitting}, Uncertain, if seen.charge.Some? then seen.charge else Some(d.charge));
        return;
      }
      var mapped := MapStatus(d.status);
      if mapped.None? { return; }
      if mapped.value == PaidUp {
        var twice := CheckPaid(a, d.charge);
        if !twice { var settled := Confirm(a); }
        return;
      }
      var from := if mapped.value == Approved then {Submitting, Uncertain} else {Submitting, Uncertain, Approved};
      MoveAttempt(a, from, mapped.value, Some(d.charge));
    }

    /** A page of the overdue orders, each with whether a card of it was declined. */
    method FindOverdue(now: int) returns (found: map<OrderId, bool>)
      ensures forall o :: o in found ==> Overdue(Rows(), o, now) && found[o] == AnyRefused(Rows(), o)
      ensures |found| <= PAGE && (|found| < PAGE ==> forall o :: Overdue(Rows(), o, now) ==> o in found)
    {
      found := map[];
      var todo := orders.Keys;
      while todo != {} && |found| < PAGE
        invariant todo <= orders.Keys && found.Keys !! todo && |found| <= PAGE
        invariant forall o :: o in found ==> Overdue(Rows(), o, now) && found[o] == AnyRefused(Rows(), o)
        invariant forall o :: Overdue(Rows(), o, now) ==> o in found || o in todo
        decreases |todo|
      {
        var o :| o in todo;
        todo := todo - {o};
        var count, busy, refused := Look(o);
        if orders[o].status == Pending && orders[o].expires < now - OVERDUE_AFTER_MS && !busy { found := found[o := refused]; }
      }
    }

    method CloseOne(o: OrderId, declined: bool)
      modifies this`orders
      ensures Rows() == Close(old(Rows()), o, declined)
    {
      var count, busy, refused := Look(o);
      if o in orders && orders[o].status == Pending && !busy {
        orders := orders[o := orders[o].(status := if declined then Declined else Expired)];
      }
    }

    /** Every order that was found overdue is looked at again before it closes. */
    method CloseOverdue(now: int) returns (closed: set<OrderId>)
      modifies this`orders
      ensures |closed| <= PAGE && forall o :: o in closed ==> Overdue(old(Rows()), o, now)
      ensures |closed| < PAGE ==> forall o :: Overdue(old(Rows()), o, now) ==> o in closed
      ensures ClosedExactly(old(Rows()), Rows(), closed)
      ensures Inv(old(Rows())) ==> Inv(Rows())
    {
      ghost var before := Rows();
      var found := FindOverdue(now);
      var todo := found.Keys;
      closed := {};
      while todo != {}
        invariant closed + todo == found.Keys && closed !! todo
        invariant ClosedExactly(before, Rows(), closed)
        decreases |todo|
      {
        var o :| o in todo;
        CloseExactly(before, Rows(), closed, o);
        CloseOne(o, found[o]);
        todo, closed := todo - {o}, closed + {o};
      }
      ClosedKeeps(before, Rows(), closed);
    }
  }

  predicate ClosedRow(before: Db, after: Db, closed: set<OrderId>, o: OrderId) {
    o in before.orders ==> o in after.orders && after.orders[o] == before.orders[o].(status :=
      if o !in closed then before.orders[o].status else if AnyRefused(before, o) then Declined else Expired)
  }

  /** These orders are closed for their reason, and nothing else changed. */
  predicate ClosedExactly(before: Db, after: Db, closed: set<OrderId>) {
    && after.attempts == before.attempts && after.orders.Keys == before.orders.Keys
    && (forall o {:trigger ClosedRow(before, after, closed, o)} :: o in before.orders ==> ClosedRow(before, after, closed, o))
  }

  lemma {:induction false} CloseExactly(before: Db, db: Db, closed: set<OrderId>, o: OrderId)
    requires ClosedExactly(before, db, closed) && o !in closed && o in before.orders && before.orders[o].status == Pending && !AnyBusy(before, o)
    ensures AnyRefused(db, o) == AnyRefused(before, o)
    ensures ClosedExactly(before, Close(db, o, AnyRefused(before, o)), closed + {o})
  {
    assert ClosedRow(before, db, closed, o);
    assert !AnyBusy(db, o);
    var after := Close(db, o, AnyRefused(before, o));
    forall p | p in before.orders ensures ClosedRow(before, after, closed + {o}, p) { assert ClosedRow(before, db, closed, p); }
  }

  lemma {:induction false} ClosedKeeps(before: Db, after: Db, closed: set<OrderId>)
    requires ClosedExactly(before, after, closed)
    requires forall o :: o in closed ==> o in before.orders && before.orders[o].status == Pending
    ensures Inv(before) ==> Inv(after)
  {
    if Inv(before) {
      forall a ensures AttemptKept(before, after, a) {}
      forall o ensures OrderKept(before, after, o) { assert ClosedRow(before, after, closed, o); }
      forall o | o in before.orders ensures after.orders[o].settled == before.orders[o].settled { assert ClosedRow(before, after, closed, o); }
      forall o | o in after.orders && after.orders[o].status == Declined && before.orders[o].status != Declined ensures AnyRefused(after, o) {
        assert ClosedRow(before, after, closed, o);
      }
      QuietKeeps(before, after);
    }
  }
}
