/**
 When exactly the contacts of a payer stay apart and in the order of their days: claims keep
 both, and only a revival or an e-mail that stands in for a rejected message can break them.
 */
module CollectionSpacing {
  import opened CollectionModel
  import opened CollectionWorld

  predicate CountedContact(db: Db, s: Slot) { IsContact(db, s) && Counted(db.attempts[s].status) }

  /** Counted contacts of different claims. */
  predicate Distinct(db: Db, s: Slot, t: Slot) {
    CountedContact(db, s) && CountedContact(db, t) && ClaimOf(db.attempts[s].origin) != ClaimOf(db.attempts[t].origin)
  }

  predicate Far(a: Instant, b: Instant) { a - b >= MIN_CONTACT_INTERVAL_MS || b - a >= MIN_CONTACT_INTERVAL_MS }

  predicate Apart(db: Db, s: Slot, t: Slot) {
    Distinct(db, s, t) && SameScope(db, s.invoice, t.invoice) ==> Far(db.attempts[s].created, db.attempts[t].created)
  }

  /** Any two counted contacts of one scope from different claims are an interval apart. */
  ghost predicate AllApart(db: Db) { forall s, t {:trigger Apart(db, s, t)} :: Apart(db, s, t) }

  /** Nothing of another claim of the scope counts within the interval around that time. */
  predicate ClearAround(db: Db, i: InvoiceId, claim: nat, time: Instant) {
    forall t :: t in db.attempts && CountedContact(db, t) && SameScope(db, i, t.invoice) && ClaimOf(db.attempts[t].origin) != claim ==>
      Far(db.attempts[t].created, time)
  }

  lemma {:induction false} ScopeBothWays(db: Db, i: InvoiceId, j: InvoiceId)
    ensures SameScope(db, i, j) <==> SameScope(db, j, i)
  {}

  /** What an event checks, or could check, before it makes an attempt count again. */
  predicate KeepsApart(w: World, e: Event)
    requires Enabled(w, e)
  {
    match e
    case Revive(s, status, at) => ClearAround(w.db, s.invoice, ClaimOf(w.db.attempts[s].origin), w.db.attempts[s].created)
    case Fallback(s, at) => EmailOf(s) in w.db.attempts || ClearAround(w.db, s.invoice, w.db.attempts[s].origin.stamp, at)
    case _ => true
  }

  /** One attempt that starts to count keeps the contacts apart exactly if it is clear of all others. */
  lemma {:induction false} OneMoreApart(db: Db, after: Db, s: Slot)
    requires AllApart(db) && CountedContact(after, s) && s.invoice in db.invoices && !CountedContact(db, s)
    requires after.invoices == db.invoices && after.attempts == db.attempts[s := after.attempts[s]]
    requires s in db.attempts ==> db.attempts[s].origin == after.attempts[s].origin
    ensures AllApart(after) <==> ClearAround(db, s.invoice, ClaimOf(after.attempts[s].origin), after.attempts[s].created)
  {
    var claim, time := ClaimOf(after.attempts[s].origin), after.attempts[s].created;
    if AllApart(after) {
      forall t | t in db.attempts && CountedContact(db, t) && SameScope(db, s.invoice, t.invoice) && ClaimOf(db.attempts[t].origin) != claim
        ensures Far(db.attempts[t].created, time)
      {
        assert Apart(after, s, t);
      }
    }
    if ClearAround(db, s.invoice, claim, time) {
      forall x, y ensures Apart(after, x, y) {
        assert Apart(db, x, y);
        ScopeBothWays(db, x.invoice, y.invoice);
      }
    }
  }

  lemma {:induction false} ReviveApart(w: World, e: Event)
    requires WorldInv(w) && AllApart(w.db) && Enabled(w, e) && e.Revive?
    ensures AllApart(Next(w, e).db) <==> KeepsApart(w, e)
  {
    assert AttemptSound(w, e.s);
    OneMoreApart(w.db, Next(w, e).db, e.s);
  }

  lemma {:induction false} FallbackApart(w: World, e: Event)
    requires WorldInv(w) && AllApart(w.db) && Enabled(w, e) && e.Fallback?
    ensures AllApart(Next(w, e).db) <==> KeepsApart(w, e)
  {
    assert AttemptSound(w, e.s);
    if EmailOf(e.s) in w.db.attempts {
      forall s, t ensures Apart(Next(w, e).db, s, t) { assert Apart(w.db, s, t); }
    } else {
      OneMoreApart(w.db, Next(w, e).db, EmailOf(e.s));
    }
  }

  /** A claim is dated an interval after everything of its scope that counts. */
  lemma {:induction false} ClaimApart(w: World, e: Event)
    requires WorldInv(w) && AllApart(w.db) && Enabled(w, e) && e.ClaimContact?
    ensures AllApart(Next(w, e).db)
  {
    var v := Next(w, e);
    var p := w.plans[e.w];
    var origin := Claimed(w.stamp, p.stamp, p.chosen.value.day, p.now, e.now);
    if MayClaim(w.db, p.invoice, e.claims, e.now) {
      ClaimIsNew(w.db, p.invoice, e.claims, e.now);
      ClaimRows(w.db.attempts, p.invoice, e.claims, e.at, origin);
      forall t | t in w.db.attempts && CountedContact(w.db, t) && SameScope(w.db, p.invoice, t.invoice)
        ensures e.at - w.db.attempts[t].created >= MIN_CONTACT_INTERVAL_MS
      {
        assert CountedAttempt(w.db, p.invoice, t);
      }
    }
    forall s, t ensures Apart(v.db, s, t) {
      assert Apart(w.db, s, t);
      ScopeBothWays(w.db, s.invoice, t.invoice);
    }
  }

  lemma {:induction false} OtherApart(w: World, e: Event)
    requires WorldInv(w) && AllApart(w.db) && Enabled(w, e) && !e.ClaimContact? && !e.Revive? && !e.Fallback?
    ensures AllApart(Next(w, e).db)
  {
    var v := Next(w, e);
    forall s, t ensures Apart(v.db, s, t) { assert Apart(w.db, s, t) && AttemptSound(w, s) && AttemptSound(w, t); }
  }

  lemma {:induction false} NextApart(w: World, e: Event)
    requires WorldInv(w) && AllApart(w.db) && Enabled(w, e)
    ensures AllApart(Next(w, e).db) <==> KeepsApart(w, e)
  {
    if e.Revive? { ReviveApart(w, e); }
    else if e.Fallback? { FallbackApart(w, e); }
    else if e.ClaimContact? { ClaimApart(w, e); }
    else { OtherApart(w, e); }
  }

  // ---- whole runs ------------------------------------------------------------------------

  ghost predicate ApartThroughout(w: World, es: seq<Event>)
    requires Possible(w, es)
    decreases |es|
  {
    AllApart(w.db) && (es == [] || ApartThroughout(Next(w, es[0]), es[1..]))
  }

  /** Every revival and every e-mail in the run is clear of the other contacts when it happens. */
  ghost predicate ClearRun(w: World, es: seq<Event>)
    requires Possible(w, es)
    decreases |es|
  {
    es == [] || (KeepsApart(w, es[0]) && ClearRun(Next(w, es[0]), es[1..]))
  }

  /** Contacts stay apart at every moment of a run exactly when its revivals and e-mails are clear. */
  lemma {:induction false} ApartIffClear(w: World, es: seq<Event>)
    requires WorldInv(w) && AllApart(w.db) && Possible(w, es)
    ensures ApartThroughout(w, es) <==> ClearRun(w, es)
    ensures ClearRun(w, es) ==> AllApart(After(w, es).db)
    decreases |es|
  {
    if es != [] {
      var v := Next(w, es[0]);
      NextKeeps(w, es[0]);
      NextApart(w, es[0]);
      if AllApart(v.db) { ApartIffClear(v, es[1..]); }
    }
  }

  /** Neither a revival nor an e-mail standing in. */
  predicate Plain(es: seq<Event>) { forall n :: 0 <= n < |es| ==> !es[n].Revive? && !es[n].Fallback? }

  lemma {:induction false} PlainIsClear(w: World, es: seq<Event>)
    requires Possible(w, es) && Plain(es)
    ensures ClearRun(w, es)
    decreases |es|
  {
    if es != [] {
      assert Plain(es[1..]);
      PlainIsClear(Next(w, es[0]), es[1..]);
    }
  }

  /** In a plain run any two counted contacts of different claims of one scope are 23 h apart. */
  lemma {:induction false} PlainRunsStayApart(clock: Instant, es: seq<Event>, s: Slot, t: Slot)
    requires Possible(Start(clock), es) && Plain(es)
    requires var db := After(Start(clock), es).db; Distinct(db, s, t) && SameScope(db, s.invoice, t.invoice)
    ensures var db := After(Start(clock), es).db; Far(db.attempts[s].created, db.attempts[t].created)
  {
    PlainIsClear(Start(clock), es);
    ApartIffClear(Start(clock), es);
    assert Apart(After(Start(clock), es).db, s, t);
  }

  // ---- the order of days -------------------------------------------------------------------

  predicate InOrder(db: Db, s: Slot, t: Slot) {
    Distinct(db, s, t) && s.invoice == t.invoice && db.attempts[s].created < db.attempts[t].created ==>
      db.attempts[s].origin.day < db.attempts[t].origin.day
  }

  /** The days of an invoice's counted contacts rise with time. */
  ghost predicate AllInOrder(db: Db) { forall s, t {:trigger InOrder(db, s, t)} :: InOrder(db, s, t) }

  /** A contact of that time and day falls in line with the invoice's others. */
  predicate FallsInLine(db: Db, i: InvoiceId, claim: nat, time: Instant, day: int) {
    forall t :: t in db.attempts && CountedContact(db, t) && t.invoice == i && ClaimOf(db.attempts[t].origin) != claim ==>
      && (db.attempts[t].created < time ==> db.attempts[t].origin.day < day)
      && (time < db.attempts[t].created ==> day < db.attempts[t].origin.day)
  }

  /** The event writes a new contact that counts. */
  ghost predicate AddsCounted(w: World, e: Event)
    requires Enabled(w, e)
  {
    exists s :: s in Next(w, e).db.attempts && s !in w.db.attempts && CountedContact(Next(w, e).db, s)
  }

  ghost predicate KeepsOrder(w: World, e: Event)
    requires Enabled(w, e)
  {
    match e
    case Revive(s, status, at) =>
      FallsInLine(w.db, s.invoice, ClaimOf(w.db.attempts[s].origin), w.db.attempts[s].created, w.db.attempts[s].origin.day)
    case Fallback(s, at) =>
      EmailOf(s) in w.db.attempts || FallsInLine(w.db, s.invoice, w.db.attempts[s].origin.stamp, at, w.db.attempts[s].origin.day)
    case ClaimContact(x, claims, now, at) =>
      var p := w.plans[x];
      AddsCounted(w, e) ==> FallsInLine(w.db, p.invoice, w.stamp, at, p.chosen.value.day)
    case _ => true
  }

  /** Attempts that start to count together keep the order exactly if they fall in line. */
  lemma {:induction false} OneMoreInOrder(db: Db, after: Db, s: Slot)
    requires AllInOrder(db) && CountedContact(after, s) && !CountedContact(db, s)
    requires after.attempts == db.attempts[s := after.attempts[s]]
    ensures AllInOrder(after) <==>
      FallsInLine(db, s.invoice, ClaimOf(after.attempts[s].origin), after.attempts[s].created, after.attempts[s].origin.day)
  {
    var a := after.attempts[s];
    if AllInOrder(after) {
      forall t | t in db.attempts && CountedContact(db, t) && t.invoice == s.invoice && ClaimOf(db.attempts[t].origin) != ClaimOf(a.origin)
        ensures (db.attempts[t].created < a.created ==> db.attempts[t].origin.day < a.origin.day)
          && (a.created < db.attempts[t].created ==> a.origin.day < db.attempts[t].origin.day)
      {
        assert InOrder(after, s, t) && InOrder(after, t, s);
      }
    }
    if FallsInLine(db, s.invoice, ClaimOf(a.origin), a.created, a.origin.day) {
      forall x, y ensures InOrder(after, x, y) { assert InOrder(db, x, y); }
    }
  }

  /** What a claim does to the rows: either nothing, or rows of its own. */
  lemma {:induction false} ClaimAdds(w: World, e: Event)
    requires WorldInv(w) && Enabled(w, e) && e.ClaimContact?
    ensures var v, p := Next(w, e).db, w.plans[e.w];
      && (forall s :: s in w.db.attempts ==> s in v.attempts && v.attempts[s] == w.db.attempts[s])
      && (forall s {:trigger s in v.attempts} :: s in v.attempts && s !in w.db.attempts ==>
           && s.invoice == p.invoice && v.attempts[s].created == e.at
           && v.attempts[s].origin == Claimed(w.stamp, p.stamp, p.chosen.value.day, p.now, e.now))
  {
    var p := w.plans[e.w];
    if MayClaim(w.db, p.invoice, e.claims, e.now) {
      ClaimIsNew(w.db, p.invoice, e.claims, e.now);
      ClaimRows(w.db.attempts, p.invoice, e.claims, e.at, Claimed(w.stamp, p.stamp, p.chosen.value.day, p.now, e.now));
    }
  }

  lemma {:induction false} ClaimInOrder(w: World, e: Event)
    requires WorldInv(w) && AllInOrder(w.db) && Enabled(w, e) && e.ClaimContact?
    ensures AllInOrder(Next(w, e).db) <==> KeepsOrder(w, e)
  {
    ClaimAdds(w, e);
    if KeepsOrder(w, e) {
      forall s, t ensures InOrder(Next(w, e).db, s, t) {
        assert InOrder(w.db, s, t) && AttemptSound(w, s) && AttemptSound(w, t);
      }
    }
    if AllInOrder(Next(w, e).db) && AddsCounted(w, e) { OrderedFallsInLine(w, e); }
  }

  lemma {:induction false} OrderedFallsInLine(w: World, e: Event)
    requires WorldInv(w) && Enabled(w, e) && e.ClaimContact? && AllInOrder(Next(w, e).db) && AddsCounted(w, e)
    ensures KeepsOrder(w, e)
  {
    var v, p := Next(w, e), w.plans[e.w];
    ClaimAdds(w, e);
    var s :| s in v.db.attempts && s !in w.db.attempts && CountedContact(v.db, s);
    forall t | t in w.db.attempts && CountedContact(w.db, t) && t.invoice == p.invoice && ClaimOf(w.db.attempts[t].origin) != w.stamp
      ensures (w.db.attempts[t].created < e.at ==> w.db.attempts[t].origin.day < p.chosen.value.day)
        && (e.at < w.db.attempts[t].created ==> p.chosen.value.day < w.db.attempts[t].origin.day)
    {
      assert InOrder(v.db, s, t) && InOrder(v.db, t, s);
    }
  }

  lemma {:induction false} NextInOrder(w: World, e: Event)
    requires WorldInv(w) && AllInOrder(w.db) && Enabled(w, e)
    ensures AllInOrder(Next(w, e).db) <==> KeepsOrder(w, e)
  {
    var v := Next(w, e);
    if e.ClaimContact? { ClaimInOrder(w, e); }
    else if e.Revive? { OneMoreInOrder(w.db, v.db, e.s); }
    else if e.Fallback? && EmailOf(e.s) !in w.db.attempts { OneMoreInOrder(w.db, v.db, EmailOf(e.s)); }
    else { forall s, t ensures InOrder(v.db, s, t) { assert InOrder(w.db, s, t); } }
  }

  ghost predicate OrderThroughout(w: World, es: seq<Event>)
    requires Possible(w, es)
    decreases |es|
  {
    AllInOrder(w.db) && (es == [] || OrderThroughout(Next(w, es[0]), es[1..]))
  }

  ghost predicate OrderlyRun(w: World, es: seq<Event>)
    requires Possible(w, es)
    decreases |es|
  {
    es == [] || (KeepsOrder(w, es[0]) && OrderlyRun(Next(w, es[0]), es[1..]))
  }

  /** The days of contacts rise at every moment of a run exactly when each new one falls in line. */
  lemma {:induction false} OrderIffOrderly(w: World, es: seq<Event>)
    requires WorldInv(w) && AllInOrder(w.db) && Possible(w, es)
    ensures OrderThroughout(w, es) <==> OrderlyRun(w, es)
    ensures OrderlyRun(w, es) ==> AllInOrder(After(w, es).db)
    decreases |es|
  {
    if es != [] {
      var v := Next(w, es[0]);
      NextKeeps(w, es[0]);
      NextInOrder(w, es[0]);
      if AllInOrder(v.db) { OrderIffOrderly(v, es[1..]); }
    }
  }

  predicate NeverRevived(db: Db, s: Slot) { s in db.attempts ==> db.attempts[s].revived == 0 }

  /** Every claim of the run is made less than an interval after its plan. */
  ghost predicate PromptRun(w: World, es: seq<Event>)
    requires Possible(w, es)
    decreases |es|
  {
    es == [] || ((es[0].ClaimContact? ==> es[0].now - w.plans[es[0].w].now < MIN_CONTACT_INTERVAL_MS)
      && PromptRun(Next(w, es[0]), es[1..]))
  }

  lemma {:induction false} PromptClaimFallsInLine(w: World, e: Event)
    requires WorldInv(w) && Enabled(w, e) && e.ClaimContact? && e.now - w.plans[e.w].now < MIN_CONTACT_INTERVAL_MS
    requires forall s {:trigger NeverRevived(w.db, s)} :: NeverRevived(w.db, s)
    ensures KeepsOrder(w, e)
  {
    var v := Next(w, e);
    NextKeeps(w, e);
    if AddsCounted(w, e) {
      var s :| s in v.db.attempts && s !in w.db.attempts && CountedContact(v.db, s);
      var p := w.plans[e.w];
      ClaimAdds(w, e);
      forall t | t in w.db.attempts && CountedContact(w.db, t) && t.invoice == p.invoice && ClaimOf(w.db.attempts[t].origin) != w.stamp
        ensures w.db.attempts[t].origin.day < p.chosen.value.day && w.db.attempts[t].created <= e.at
      {
        assert DaysRise(v.db, t, s) && AttemptSound(w, t) && NeverRevived(w.db, t);
      }
    }
  }

  lemma {:induction false} PlainKeepsNeverRevived(w: World, e: Event)
    requires Enabled(w, e) && !e.Revive? && forall s {:trigger NeverRevived(w.db, s)} :: NeverRevived(w.db, s)
    ensures forall s {:trigger NeverRevived(Next(w, e).db, s)} :: NeverRevived(Next(w, e).db, s)
  {
    var v := Next(w, e);
    forall s ensures NeverRevived(v.db, s) {
      assert NeverRevived(w.db, s);
      if e.ClaimContact? && v.db.attempts != w.db.attempts {
        var p := w.plans[e.w];
        ClaimIsNew(w.db, p.invoice, e.claims, e.now);
        ClaimRows(w.db.attempts, p.invoice, e.claims, e.at, Claimed(w.stamp, p.stamp, p.chosen.value.day, p.now, e.now));
      }
    }
  }

  lemma {:induction false} PlainPromptIsOrderly(w: World, es: seq<Event>)
    requires WorldInv(w) && Possible(w, es) && Plain(es) && PromptRun(w, es)
    requires forall s {:trigger NeverRevived(w.db, s)} :: NeverRevived(w.db, s)
    ensures OrderlyRun(w, es)
    decreases |es|
  {
    if es != [] {
      NextKeeps(w, es[0]);
      PlainKeepsNeverRevived(w, es[0]);
      assert Plain(es[1..]);
      if es[0].ClaimContact? { PromptClaimFallsInLine(w, es[0]); }
      PlainPromptIsOrderly(Next(w, es[0]), es[1..]);
    }
  }

  /** In a plain run of prompt claims the days of an invoice's counted contacts rise with time. */
  lemma {:induction false} PlainRunsGoForward(clock: Instant, es: seq<Event>, s: Slot, t: Slot)
    requires Possible(Start(clock), es) && Plain(es) && PromptRun(Start(clock), es)
    requires var db := After(Start(clock), es).db;
      Distinct(db, s, t) && s.invoice == t.invoice && db.attempts[s].created < db.attempts[t].created
    ensures var db := After(Start(clock), es).db; db.attempts[s].origin.day < db.attempts[t].origin.day
  {
    forall x ensures NeverRevived(Start(clock).db, x) {}
    PlainPromptIsOrderly(Start(clock), es);
    OrderIffOrderly(Start(clock), es);
    assert InOrder(After(Start(clock), es).db, s, t);
  }
}
