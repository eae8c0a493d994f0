/**
 Every interleaving of collection rounds: plans made from whatever the rule says at the time,
 their skips and claims written later, deliveries, emissions, undelivered attempts put back to
 be sent, and e-mails that stand in for a rejected message outside any claim. The clock never
 runs backwards and rows are dated when they are written.
 */
module CollectionWorld {
  import opened Common
  import opened Calendar
  import opened CollectionModel

  type WorkerId = nat

  datatype Plan = Plan(
    invoice: InvoiceId, contacts: seq<Contact>, chosen: Option<Contact>, skips: set<Slot>, now: Instant, stamp: nat)

  datatype World = World(db: Db, plans: map<WorkerId, Plan>, clock: Instant, stamp: nat)

  datatype Event =
    | AddInvoice(i: InvoiceId, invoice: Invoice, at: Instant)
    | MakePlan(w: WorkerId, i: InvoiceId, contacts: seq<Contact>, chosen: Option<Contact>, now: Instant, at: Instant)
    | WriteSkips(w: WorkerId, at: Instant)
    | ClaimContact(w: WorkerId, claims: seq<Claim>, now: Instant, at: Instant)
    | ReportStatus(s: Slot, status: Status, at: Instant)
    | Revive(s: Slot, status: Status, at: Instant)
    | Fallback(s: Slot, at: Instant)
    | Emit(e: EmissionId, i: InvoiceId, at: Instant)
    | EmissionFails(e: EmissionId, at: Instant)

  /** The claims of a contact: its steps, possibly without those the payer has no address for. */
  predicate ClaimsOf(c: Contact, claims: seq<Claim>) {
    forall n :: 0 <= n < |claims| ==> Names(c, claims[n].step, claims[n].channel) && claims[n].status in {Queued, Failed}
  }

  predicate WasClaimed(db: Db, s: Slot) { s in db.attempts && db.attempts[s].origin.Claimed? }

  /** Claimed by a round, or standing in for a message that was. */
  predicate IsContact(db: Db, s: Slot) { s in db.attempts && !db.attempts[s].origin.PassedOver? }

  /** The claim an attempt belongs to. */
  function ClaimOf(o: Origin): nat
    requires !o.PassedOver?
  {
    if o.Claimed? then o.stamp else o.claim
  }

  function EmailOf(s: Slot): Slot { Slot(s.invoice, s.step, Email) }

  predicate Enabled(w: World, e: Event) {
    && w.clock <= e.at
    && match e
       case AddInvoice(i, invoice, at) => i !in w.db.invoices
       case MakePlan(x, i, contacts, chosen, now, at) =>
         i in w.db.invoices && now <= at && PicksLatest(w.db, i, contacts, now, chosen)
       case WriteSkips(x, at) => x in w.plans
       case ClaimContact(x, claims, now, at) =>
         && x in w.plans && w.plans[x].skips == {} && w.plans[x].chosen.Some?
         && ClaimsOf(w.plans[x].chosen.value, claims) && w.plans[x].now <= now <= at
       case ReportStatus(s, status, at) =>
         IsContact(w.db, s) && (Counted(status) ==> Counted(w.db.attempts[s].status)) && status != Skipped
       case Revive(s, status, at) => IsContact(w.db, s) && w.db.attempts[s].status in {Failed, Blocked} && Counted(status)
       case Fallback(s, at) => WasClaimed(w.db, s) && s.channel == WhatsApp
       case Emit(m, i, at) => m !in w.db.emissions && i in w.db.invoices
       case EmissionFails(m, at) => m in w.db.emissions
  }

  ghost function Step(w: World, e: Event): World
    requires Enabled(w, e)
  {
    match e
    case AddInvoice(i, invoice, at) => w.(db := w.db.(invoices := w.db.invoices[i := invoice]))
    case MakePlan(x, i, contacts, chosen, now, at) =>
      w.(plans := w.plans[x := Plan(i, contacts, chosen, SkipsOf(w.db, i, contacts, now, chosen), now, w.stamp)])
    case WriteSkips(x, at) =>
      w.(db := w.db.(attempts := WithSkips(w.db.attempts, w.plans[x].skips, at)), plans := w.plans[x := w.plans[x].(skips := {})])
    case ClaimContact(x, claims, now, at) =>
      var p := w.plans[x];
      var origin := Claimed(w.stamp, p.stamp, p.chosen.value.day, p.now, now);
      w.(db := if MayClaim(w.db, p.invoice, claims, now)
               then w.db.(attempts := WithClaims(w.db.attempts, p.invoice, claims, at, origin)) else w.db,
         plans := w.plans - {x})
    case ReportStatus(s, status, at) =>
      w.(db := w.db.(attempts := w.db.attempts[s := w.db.attempts[s].(status := status)]))
    case Revive(s, status, at) =>
      w.(db := w.db.(attempts := w.db.attempts[s := w.db.attempts[s].(status := status, revived := w.stamp)]))
    case Fallback(s, at) =>
      var origin := w.db.attempts[s].origin;
      if EmailOf(s) in w.db.attempts then w else
      w.(db := w.db.(attempts := w.db.attempts[EmailOf(s) := Attempt(Queued, at, FellBack(origin.stamp, w.stamp, origin.day), 0)]))
    case Emit(m, i, at) => w.(db := w.db.(emissions := w.db.emissions[m := Emission(i, at, true, w.stamp)]))
    case EmissionFails(m, at) => w.(db := w.db.(emissions := w.db.emissions[m := w.db.emissions[m].(counted := false)]))
  }

  ghost function Next(w: World, e: Event): World
    requires Enabled(w, e)
  {
    Step(w, e).(clock := e.at, stamp := w.stamp + 1)
  }

  // ---- the invariant ---------------------------------------------------------------------

  /** A claim is dated no earlier than its plan and decided on a day its contact had reached. */
  predicate AttemptSound(w: World, s: Slot) {
    s in w.db.attempts ==>
      var a := w.db.attempts[s];
      && s.invoice in w.db.invoices && a.created <= w.clock && a.revived < w.stamp
      && (a.origin.PassedOver? ==> a.status == Skipped)
      && (!a.origin.PassedOver? ==>
           a.origin.stamp < w.stamp && a.origin.day <= SaoPauloDay(a.created) - w.db.invoices[s.invoice].due)
      && (a.origin.Claimed? ==> a.origin.planStamp < a.origin.stamp && a.origin.planned <= a.origin.claimed <= a.created)
      && (a.origin.FellBack? ==> a.origin.claim < a.origin.stamp)
  }

  predicate EmissionSound(w: World, e: EmissionId) {
    e in w.db.emissions ==>
      w.db.emissions[e].invoice in w.db.invoices && w.db.emissions[e].stamp < w.stamp && w.db.emissions[e].created <= w.clock
  }

  /** A later claim leaves the interval to every message that counted at the time. */
  predicate Spaced(db: Db, s: Slot, t: Slot) {
    (&& IsContact(db, s) && WasClaimed(db, t) && SameScope(db, t.invoice, s.invoice)
     && Counted(db.attempts[s].status) && db.attempts[s].origin.stamp < db.attempts[t].origin.stamp
     && db.attempts[s].revived < db.attempts[t].origin.stamp)
    ==> db.attempts[t].origin.claimed - db.attempts[s].created >= MIN_CONTACT_INTERVAL_MS
  }

  predicate EmissionSpaced(db: Db, e: EmissionId, t: Slot) {
    (&& e in db.emissions && db.emissions[e].counted && WasClaimed(db, t) && SameScope(db, t.invoice, db.emissions[e].invoice)
     && db.emissions[e].stamp < db.attempts[t].origin.stamp)
    ==> db.attempts[t].origin.claimed - db.emissions[e].created >= MIN_CONTACT_INTERVAL_MS
  }

  predicate Prompt(o: Origin)
    requires o.Claimed?
  {
    o.claimed - o.planned < MIN_CONTACT_INTERVAL_MS
  }

  predicate DaysRise(db: Db, s: Slot, t: Slot) {
    (&& IsContact(db, s) && WasClaimed(db, t) && s.invoice == t.invoice && Counted(db.attempts[s].status)
     && db.attempts[s].origin.stamp < db.attempts[t].origin.stamp && db.attempts[s].revived <= db.attempts[t].origin.planStamp
     && Prompt(db.attempts[t].origin))
    ==> db.attempts[s].origin.day < db.attempts[t].origin.day
  }

  predicate PlanSound(w: World, x: WorkerId) {
    x in w.plans ==>
      var p := w.plans[x];
      && p.invoice in w.db.invoices && p.stamp < w.stamp && p.now <= w.clock
      && (forall s :: s in p.skips ==> s.invoice == p.invoice)
      && (p.chosen.Some? ==> p.chosen.value.day <= SaoPauloDay(p.now) - w.db.invoices[p.invoice].due)
  }

  /** The chosen contact lies after the day of every message the plan saw; the others came later. */
  predicate PlanAhead(w: World, x: WorkerId, s: Slot) {
    (&& x in w.plans && w.plans[x].chosen.Some? && w.plans[x].invoice in w.db.invoices
     && IsContact(w.db, s) && s.invoice == w.plans[x].invoice
     && Counted(w.db.attempts[s].status) && w.db.attempts[s].revived <= w.plans[x].stamp)
    ==> (|| SaoPauloDay(w.db.attempts[s].created) - w.db.invoices[s.invoice].due < w.plans[x].chosen.value.day
         || w.db.attempts[s].created >= w.plans[x].now)
  }

  ghost predicate WorldInv(w: World) {
    && (forall s {:trigger AttemptSound(w, s)} :: AttemptSound(w, s))
    && (forall e {:trigger EmissionSound(w, e)} :: EmissionSound(w, e))
    && (forall s, t {:trigger Spaced(w.db, s, t)} :: Spaced(w.db, s, t))
    && (forall e, t {:trigger EmissionSpaced(w.db, e, t)} :: EmissionSpaced(w.db, e, t))
    && (forall s, t {:trigger DaysRise(w.db, s, t)} :: DaysRise(w.db, s, t))
    && (forall x {:trigger PlanSound(w, x)} :: PlanSound(w, x))
    && (forall x, s {:trigger PlanAhead(w, x, s)} :: PlanAhead(w, x, s))
  }

  // ---- each event keeps it -----------------------------------------------------------------

  lemma {:induction false} AddInvoiceKeeps(w: World, e: Event)
    requires WorldInv(w) && Enabled(w, e) && e.AddInvoice?
    ensures WorldInv(Next(w, e))
  {
    var v := Next(w, e);
    forall s ensures AttemptSound(v, s) { assert AttemptSound(w, s); }
    forall m ensures EmissionSound(v, m) { assert EmissionSound(w, m); }
    forall s, t ensures Spaced(v.db, s, t) && DaysRise(v.db, s, t) {
      assert Spaced(w.db, s, t) && DaysRise(w.db, s, t) && AttemptSound(w, s) && AttemptSound(w, t);
    }
    forall m, t ensures EmissionSpaced(v.db, m, t) {
      assert EmissionSpaced(w.db, m, t) && EmissionSound(w, m) && AttemptSound(w, t);
    }
    forall x ensures PlanSound(v, x) { assert PlanSound(w, x); }
    forall x, s ensures PlanAhead(v, x, s) { assert PlanAhead(w, x, s) && AttemptSound(w, s) && PlanSound(w, x); }
  }

  lemma {:induction false} PlanKeeps(w: World, e: Event)
    requires WorldInv(w) && Enabled(w, e) && e.MakePlan?
    ensures WorldInv(Next(w, e))
  {
    var v := Next(w, e);
    forall s ensures AttemptSound(v, s) { assert AttemptSound(w, s); }
    forall m ensures EmissionSound(v, m) { assert EmissionSound(w, m); }
    forall s, t ensures Spaced(v.db, s, t) && DaysRise(v.db, s, t) { assert Spaced(w.db, s, t) && DaysRise(w.db, s, t); }
    forall m, t ensures EmissionSpaced(v.db, m, t) { assert EmissionSpaced(w.db, m, t); }
    forall x ensures PlanSound(v, x) { assert PlanSound(w, x); }
    forall x, s ensures PlanAhead(v, x, s) {
      assert PlanAhead(w, x, s);
      if x == e.w && e.chosen.Some? && IsContact(w.db, s) && s.invoice == e.i && Counted(w.db.attempts[s].status) {
        assert !Passed(w.db, e.i, e.chosen.value.day);
      }
    }
  }

  lemma {:induction false} SkipsKeep(w: World, e: Event)
    requires WorldInv(w) && Enabled(w, e) && e.WriteSkips?
    ensures WorldInv(Next(w, e))
  {
    var v := Next(w, e);
    assert PlanSound(w, e.w);
    forall s ensures AttemptSound(v, s) { assert AttemptSound(w, s); }
    forall m ensures EmissionSound(v, m) { assert EmissionSound(w, m); }
    forall s, t ensures Spaced(v.db, s, t) && DaysRise(v.db, s, t) { assert Spaced(w.db, s, t) && DaysRise(w.db, s, t); }
    forall m, t ensures EmissionSpaced(v.db, m, t) { assert EmissionSpaced(w.db, m, t); }
    forall x ensures PlanSound(v, x) { assert PlanSound(w, x); }
    forall x, s ensures PlanAhead(v, x, s) { assert PlanAhead(w, x, s); }
  }

  lemma {:induction false} StatusKeeps(w: World, e: Event)
    requires WorldInv(w) && Enabled(w, e) && (e.ReportStatus? || e.Revive?)
    ensures WorldInv(Next(w, e))
  {
    var v := Next(w, e);
    forall s ensures AttemptSound(v, s) { assert AttemptSound(w, s); }
    forall m ensures EmissionSound(v, m) { assert EmissionSound(w, m); }
    forall s, t ensures Spaced(v.db, s, t) && DaysRise(v.db, s, t) {
      assert Spaced(w.db, s, t) && DaysRise(w.db, s, t) && AttemptSound(w, t);
    }
    forall m, t ensures EmissionSpaced(v.db, m, t) { assert EmissionSpaced(w.db, m, t); }
    forall x ensures PlanSound(v, x) { assert PlanSound(w, x); }
    forall x, s ensures PlanAhead(v, x, s) { assert PlanAhead(w, x, s) && PlanSound(w, x); }
  }

  lemma {:induction false} EmissionKeeps(w: World, e: Event)
    requires WorldInv(w) && Enabled(w, e) && (e.Emit? || e.EmissionFails?)
    ensures WorldInv(Next(w, e))
  {
    var v := Next(w, e);
    forall s ensures AttemptSound(v, s) { assert AttemptSound(w, s); }
    forall m ensures EmissionSound(v, m) { assert EmissionSound(w, m); }
    forall s, t ensures Spaced(v.db, s, t) && DaysRise(v.db, s, t) { assert Spaced(w.db, s, t) && DaysRise(w.db, s, t); }
    forall m, t ensures EmissionSpaced(v.db, m, t) { assert EmissionSpaced(w.db, m, t) && AttemptSound(w, t); }
    forall x ensures PlanSound(v, x) { assert PlanSound(w, x); }
    forall x, s ensures PlanAhead(v, x, s) { assert PlanAhead(w, x, s); }
  }

  lemma {:induction false} FallbackKeeps(w: World, e: Event)
    requires WorldInv(w) && Enabled(w, e) && e.Fallback?
    ensures WorldInv(Next(w, e))
  {
    var v := Next(w, e);
    assert AttemptSound(w, e.s);
    DayGrows(w.db.attempts[e.s].created, e.at);
    forall s ensures AttemptSound(v, s) { assert AttemptSound(w, s); }
    forall m ensures EmissionSound(v, m) { assert EmissionSound(w, m); }
    forall s, t ensures Spaced(v.db, s, t) && DaysRise(v.db, s, t) {
      assert Spaced(w.db, s, t) && DaysRise(w.db, s, t) && AttemptSound(w, t);
    }
    forall m, t ensures EmissionSpaced(v.db, m, t) { assert EmissionSpaced(w.db, m, t); }
    forall x ensures PlanSound(v, x) { assert PlanSound(w, x); }
    forall x, s ensures PlanAhead(v, x, s) { assert PlanAhead(w, x, s) && PlanSound(w, x); }
  }

  /** A round's claim turns the day of its plan into the day of its rows. */
  lemma {:induction false} ClaimDay(w: World, e: Event)
    requires WorldInv(w) && Enabled(w, e) && e.ClaimContact?
    ensures var p := w.plans[e.w];
      p.invoice in w.db.invoices && p.chosen.value.day <= SaoPauloDay(e.at) - w.db.invoices[p.invoice].due
  {
    assert PlanSound(w, e.w);
    DayGrows(w.plans[e.w].now, e.at);
  }

  /** The slots of a claim are new. */
  lemma {:induction false} ClaimIsNew(db: Db, i: InvoiceId, claims: seq<Claim>, now: Instant)
    requires MayClaim(db, i, claims, now)
    ensures forall n :: 0 <= n < |claims| ==> SlotOf(i, claims[n]) !in db.attempts
  {
    forall n | 0 <= n < |claims| ensures SlotOf(i, claims[n]) !in db.attempts {
      assert !StepTaken(db.attempts, i, claims[n].step);
      assert claims[n].channel == WhatsApp || claims[n].channel == Email;
    }
  }

  lemma {:induction false} ClaimKeeps(w: World, e: Event)
    requires WorldInv(w) && Enabled(w, e) && e.ClaimContact?
    ensures WorldInv(Next(w, e))
  {
    var v := Next(w, e);
    var p := w.plans[e.w];
    assert PlanSound(w, e.w);
    ClaimDay(w, e);
    var origin := Claimed(w.stamp, p.stamp, p.chosen.value.day, p.now, e.now);
    if MayClaim(w.db, p.invoice, e.claims, e.now) {
      ClaimIsNew(w.db, p.invoice, e.claims, e.now);
      ClaimRows(w.db.attempts, p.invoice, e.claims, e.at, origin);
    }
    forall s ensures AttemptSound(v, s) { assert AttemptSound(w, s); }
    forall m ensures EmissionSound(v, m) { assert EmissionSound(w, m); }
    forall s, t ensures Spaced(v.db, s, t) { ClaimSpaced(w, e, s, t); }
    forall s, t ensures DaysRise(v.db, s, t) { ClaimRises(w, e, s, t); }
    forall m, t ensures EmissionSpaced(v.db, m, t) { ClaimEmissionSpaced(w, e, m, t); }
    forall x ensures PlanSound(v, x) { assert PlanSound(w, x); }
    forall x, s ensures PlanAhead(v, x, s) { assert PlanAhead(w, x, s) && PlanSound(w, x); }
  }

  lemma {:induction false} ClaimSpaced(w: World, e: Event, s: Slot, t: Slot)
    requires WorldInv(w) && Enabled(w, e) && e.ClaimContact?
    ensures Spaced(Next(w, e).db, s, t)
  {
    var p := w.plans[e.w];
    var origin := Claimed(w.stamp, p.stamp, p.chosen.value.day, p.now, e.now);
    assert Spaced(w.db, s, t) && AttemptSound(w, s) && AttemptSound(w, t);
    if MayClaim(w.db, p.invoice, e.claims, e.now) {
      ClaimIsNew(w.db, p.invoice, e.claims, e.now);
      ClaimRows(w.db.attempts, p.invoice, e.claims, e.at, origin);
      if s in w.db.attempts && t !in w.db.attempts && CountedAttempt(w.db, p.invoice, s) {
        assert e.now - w.db.attempts[s].created >= MIN_CONTACT_INTERVAL_MS;
      }
    }
  }

  lemma {:induction false} ClaimRises(w: World, e: Event, s: Slot, t: Slot)
    requires WorldInv(w) && Enabled(w, e) && e.ClaimContact?
    ensures DaysRise(Next(w, e).db, s, t)
  {
    var p := w.plans[e.w];
    var origin := Claimed(w.stamp, p.stamp, p.chosen.value.day, p.now, e.now);
    assert DaysRise(w.db, s, t) && AttemptSound(w, s) && AttemptSound(w, t) && PlanSound(w, e.w) && PlanAhead(w, e.w, s);
    if MayClaim(w.db, p.invoice, e.claims, e.now) {
      ClaimIsNew(w.db, p.invoice, e.claims, e.now);
      ClaimRows(w.db.attempts, p.invoice, e.claims, e.at, origin);
      if IsContact(w.db, s) && t !in w.db.attempts && s.invoice == p.invoice && Counted(w.db.attempts[s].status) {
        assert CountedAttempt(w.db, p.invoice, s);
        assert e.now - w.db.attempts[s].created >= MIN_CONTACT_INTERVAL_MS;
      }
    }
  }

  lemma {:induction false} ClaimEmissionSpaced(w: World, e: Event, m: EmissionId, t: Slot)
    requires WorldInv(w) && Enabled(w, e) && e.ClaimContact?
    ensures EmissionSpaced(Next(w, e).db, m, t)
  {
    var p := w.plans[e.w];
    var origin := Claimed(w.stamp, p.stamp, p.chosen.value.day, p.now, e.now);
    assert EmissionSpaced(w.db, m, t) && AttemptSound(w, t);
    if MayClaim(w.db, p.invoice, e.claims, e.now) {
      ClaimIsNew(w.db, p.invoice, e.claims, e.now);
      ClaimRows(w.db.attempts, p.invoice, e.claims, e.at, origin);
      if m in w.db.emissions && t !in w.db.attempts && CountedEmission(w.db, p.invoice, m) {
        assert e.now - w.db.emissions[m].created >= MIN_CONTACT_INTERVAL_MS;
      }
    }
  }

  lemma {:induction false} NextKeeps(w: World, e: Event)
    requires WorldInv(w) && Enabled(w, e)
    ensures WorldInv(Next(w, e))
  {
    match e
    case AddInvoice(_, _, _) => AddInvoiceKeeps(w, e);
    case MakePlan(_, _, _, _, _, _) => PlanKeeps(w, e);
    case WriteSkips(_, _) => SkipsKeep(w, e);
    case ClaimContact(_, _, _, _) => ClaimKeeps(w, e);
    case ReportStatus(_, _, _) => StatusKeeps(w, e);
    case Revive(_, _, _) => StatusKeeps(w, e);
    case Fallback(_, _) => FallbackKeeps(w, e);
    case Emit(_, _, _) => EmissionKeeps(w, e);
    case EmissionFails(_, _) => EmissionKeeps(w, e);
  }

  // ---- every run -------------------------------------------------------------------------

  function Start(clock: Instant): World { World(Db(map[], map[], map[]), map[], clock, 1) }

  ghost predicate Possible(w: World, es: seq<Event>)
    decreases |es|
  {
    es == [] || (Enabled(w, es[0]) && Possible(Next(w, es[0]), es[1..]))
  }

  ghost function After(w: World, es: seq<Event>): World
    requires Possible(w, es)
    decreases |es|
  {
    if es == [] then w else After(Next(w, es[0]), es[1..])
  }

  lemma {:induction false} RunKeeps(w: World, es: seq<Event>)
    requires WorldInv(w) && Possible(w, es)
    ensures WorldInv(After(w, es))
    decreases |es|
  {
    if es != [] {
      NextKeeps(w, es[0]);
      RunKeeps(Next(w, es[0]), es[1..]);
    }
  }

  /**
   Whatever counts when a contact is claimed, e-mails that stood in included, is at least 23 h
   older than the claim, unless it was put back to be sent later.
   */
  lemma {:induction false} ContactsSpaced(clock: Instant, es: seq<Event>, s: Slot, t: Slot)
    requires Possible(Start(clock), es)
    requires var db := After(Start(clock), es).db;
      && IsContact(db, s) && WasClaimed(db, t) && SameScope(db, t.invoice, s.invoice) && Counted(db.attempts[s].status)
      && db.attempts[s].origin.stamp < db.attempts[t].origin.stamp && db.attempts[s].revived < db.attempts[t].origin.stamp
    ensures var db := After(Start(clock), es).db; db.attempts[t].created - db.attempts[s].created >= MIN_CONTACT_INTERVAL_MS
  {
    RunKeeps(Start(clock), es);
    var w := After(Start(clock), es);
    assert Spaced(w.db, s, t) && AttemptSound(w, t);
  }

  /** A claim leaves the interval to every emission made before it that still counts. */
  lemma {:induction false} EmissionsSpaced(clock: Instant, es: seq<Event>, e: EmissionId, t: Slot)
    requires Possible(Start(clock), es)
    requires var db := After(Start(clock), es).db;
      && e in db.emissions && db.emissions[e].counted && WasClaimed(db, t) && SameScope(db, t.invoice, db.emissions[e].invoice)
      && db.emissions[e].stamp < db.attempts[t].origin.stamp
    ensures var db := After(Start(clock), es).db; db.attempts[t].created - db.emissions[e].created >= MIN_CONTACT_INTERVAL_MS
  {
    RunKeeps(Start(clock), es);
    var w := After(Start(clock), es);
    assert EmissionSpaced(w.db, e, t) && AttemptSound(w, t);
  }

  /**
   However the rule or the payer's profile changes between plans, a claim made promptly after its
   plan is for a later day than every contact, or e-mail in its stead, that counted before it.
   */
  lemma {:induction false} NeverGoesBack(clock: Instant, es: seq<Event>, s: Slot, t: Slot)
    requires Possible(Start(clock), es)
    requires var db := After(Start(clock), es).db;
      && IsContact(db, s) && WasClaimed(db, t) && s.invoice == t.invoice && Counted(db.attempts[s].status)
      && db.attempts[s].origin.stamp < db.attempts[t].origin.stamp
      && db.attempts[s].revived <= db.attempts[t].origin.planStamp && Prompt(db.attempts[t].origin)
    ensures var db := After(Start(clock), es).db; db.attempts[s].origin.day < db.attempts[t].origin.day
  {
    RunKeeps(Start(clock), es);
    assert DaysRise(After(Start(clock), es).db, s, t);
  }

  /** A contact passed over is never sent: its row stays as it was written, whatever follows. */
  lemma {:induction false} SkippedForever(w: World, es: seq<Event>, s: Slot)
    requires Possible(w, es) && s in w.db.attempts && w.db.attempts[s].origin == PassedOver
    ensures s in After(w, es).db.attempts && After(w, es).db.attempts[s] == w.db.attempts[s]
    decreases |es|
  {
    if es != [] {
      var v := Next(w, es[0]);
      if es[0].ClaimContact? && v.db.attempts != w.db.attempts {
        var p := w.plans[es[0].w];
        ClaimIsNew(w.db, p.invoice, es[0].claims, es[0].now);
        ClaimRows(w.db.attempts, p.invoice, es[0].claims, es[0].at, Claimed(w.stamp, p.stamp, p.chosen.value.day, p.now, es[0].now));
      }
      SkippedForever(v, es[1..], s);
    }
  }

  /** No plan ever chooses a contact one of whose steps was attempted, sent or passed over. */
  lemma {:induction false} ChosenWasUntouched(db: Db, i: InvoiceId, contacts: seq<Contact>, now: Instant, chosen: Option<Contact>,
                                              step: StepId, channel: Channel)
    requires i in db.invoices && PicksLatest(db, i, contacts, now, chosen) && chosen.Some?
    requires Names(chosen.value, step, channel)
    ensures !StepTaken(db.attempts, i, step)
  {
    var e :| 0 <= e < |chosen.value.entries| && chosen.value.entries[e] == Entry(step, channel);
    assert !StepTaken(db.attempts, i, chosen.value.entries[e].step);
  }

  lemma {:induction false} FirstStep(w: World, e: Event, es: seq<Event>)
    requires Enabled(w, e) && Possible(Next(w, e), es)
    ensures Possible(w, [e] + es) && After(w, [e] + es) == After(Next(w, e), es)
  {
    assert ([e] + es)[1..] == es;
  }
}
