/** Runs in which a revival, or an e-mail in a message's stead, brings two contacts together. */
module CollectionRuns {
  import opened Common
  import opened Calendar
  import opened CollectionModel
  import opened CollectionWorld
  import opened CollectionSpacing

  /** Noon in São Paulo of the due date, and the moment the next contact may be claimed. */
  const NOON := 15 * HOUR_MS
  const LATER := NOON + MIN_CONTACT_INTERVAL_MS
  const FIRST := Contact(0, [Entry(0, WhatsApp)])
  const SECOND := Contact(1, [Entry(1, WhatsApp)])
  const OLDER := Contact(-1, [Entry(1, WhatsApp)])
  const PLAIN := Invoice(0, None, 0, 0)
  const A := Slot(0, 0, WhatsApp)
  const B := Slot(0, 1, WhatsApp)

  function Row(status: Status, at: Instant, stamp: nat, day: int): Attempt
    requires stamp >= 1
  {
    Attempt(status, at, Claimed(stamp, stamp - 1, day, at, at), 0)
  }

  function Stage(attempts: map<Slot, Attempt>, plans: map<WorkerId, Plan>, clock: Instant, stamp: nat): World {
    World(Db(map[0 := PLAIN], attempts, map[]), plans, clock, stamp)
  }

  function PlanOf(c: Contact, at: Instant, stamp: nat): Plan { Plan(0, [c], Some(c), {}, at, stamp) }

  function PlanEvent(c: Contact, at: Instant): Event { MakePlan(0, 0, [c], Some(c), at, at) }

  function ClaimEvent(step: StepId, at: Instant): Event { ClaimContact(0, [Claim(step, WhatsApp, Queued)], at, at) }

  lemma {:induction false} PlanStage(attempts: map<Slot, Attempt>, clock: Instant, at: Instant, stamp: nat, c: Contact)
    requires clock <= at
    requires PicksLatest(Db(map[0 := PLAIN], attempts, map[]), 0, [c], at, Some(c))
    ensures Enabled(Stage(attempts, map[], clock, stamp), PlanEvent(c, at))
      && Next(Stage(attempts, map[], clock, stamp), PlanEvent(c, at)) == Stage(attempts, map[0 := PlanOf(c, at, stamp)], at, stamp + 1)
  {
    assert SkipsOf(Db(map[0 := PLAIN], attempts, map[]), 0, [c], at, Some(c)) == {};
  }

  lemma {:induction false} ClaimStage(attempts: map<Slot, Attempt>, at: Instant, stamp: nat, c: Contact, step: StepId)
    requires stamp >= 1 && c.entries == [Entry(step, WhatsApp)]
    requires MayClaim(Db(map[0 := PLAIN], attempts, map[]), 0, [Claim(step, WhatsApp, Queued)], at)
    ensures var w := Stage(attempts, map[0 := PlanOf(c, at, stamp - 1)], at, stamp);
      && Enabled(w, ClaimEvent(step, at))
      && Next(w, ClaimEvent(step, at)) == Stage(attempts[Slot(0, step, WhatsApp) := Row(Queued, at, stamp, c.day)], map[], at, stamp + 1)
  {
    var w := Stage(attempts, map[0 := PlanOf(c, at, stamp - 1)], at, stamp);
    var claims := [Claim(step, WhatsApp, Queued)];
    assert Names(c, step, WhatsApp) by { assert c.entries[0] == Entry(step, WhatsApp); }
    assert claims[..0] == [];
    assert WithClaims(attempts, 0, claims[..0], at, Claimed(stamp, stamp - 1, c.day, at, at)) == attempts;
    assert w.plans - {0} == map[];
  }

  const SENT := map[A := Row(Queued, NOON, 3, 0)]

  /** The first contact, planned and claimed at noon. */
  lemma {:induction false} FirstClaimed(rest: seq<Event>)
    requires Possible(Stage(SENT, map[], NOON, 4), rest)
    ensures var es := [AddInvoice(0, PLAIN, NOON)] + ([PlanEvent(FIRST, NOON)] + ([ClaimEvent(0, NOON)] + rest));
      Possible(Start(0), es) && After(Start(0), es) == After(Stage(SENT, map[], NOON, 4), rest)
  {
    var db := Db(map[0 := PLAIN], map[], map[]);
    assert Eligible(db, 0, FIRST, NOON);
    PlanStage(map[], NOON, NOON, 2, FIRST);
    ClaimStage(map[], NOON, 3, FIRST, 0);
    assert map[][A := Row(Queued, NOON, 3, 0)] == SENT;
    FirstStep(Stage(map[], map[0 := PlanOf(FIRST, NOON, 2)], NOON, 3), ClaimEvent(0, NOON), rest);
    FirstStep(Stage(map[], map[], NOON, 2), PlanEvent(FIRST, NOON), [ClaimEvent(0, NOON)] + rest);
    assert Next(Start(0), AddInvoice(0, PLAIN, NOON)) == Stage(map[], map[], NOON, 2);
    FirstStep(Start(0), AddInvoice(0, PLAIN, NOON), [PlanEvent(FIRST, NOON)] + ([ClaimEvent(0, NOON)] + rest));
  }

  // ---- a held message resumed ------------------------------------------------------------------

  const HELD := map[A := Row(Blocked, NOON, 3, 0)]
  const HELD_AND_OTHER := HELD[B := Row(Queued, NOON, 6, -1)]

  lemma {:induction false} OtherClaimed(rest: seq<Event>)
    requires Possible(Stage(HELD_AND_OTHER, map[], NOON, 7), rest)
    ensures var es := [PlanEvent(OLDER, NOON)] + ([ClaimEvent(1, NOON)] + rest);
      Possible(Stage(HELD, map[], NOON, 5), es) && After(Stage(HELD, map[], NOON, 5), es) == After(Stage(HELD_AND_OTHER, map[], NOON, 7), rest)
  {
    var db := Db(map[0 := PLAIN], HELD, map[]);
    assert Eligible(db, 0, OLDER, NOON);
    PlanStage(HELD, NOON, NOON, 5, OLDER);
    ClaimStage(HELD, NOON, 6, OLDER, 1);
    FirstStep(Stage(HELD, map[0 := PlanOf(OLDER, NOON, 5)], NOON, 6), ClaimEvent(1, NOON), rest);
    FirstStep(Stage(HELD, map[], NOON, 5), PlanEvent(OLDER, NOON), [ClaimEvent(1, NOON)] + rest);
  }

  /** A message held by its template, another contact claimed meanwhile, and the held one resumed at once. */
  lemma {:induction false} RevivalBreaksSpacing() returns (es: seq<Event>)
    ensures Possible(Start(0), es) && !AllApart(After(Start(0), es).db)
    ensures forall n :: 0 <= n < |es| ==> !es[n].Fallback?
  {
    var hold, resume := ReportStatus(A, Blocked, NOON), Revive(A, Queued, NOON);
    var w := Stage(HELD_AND_OTHER, map[], NOON, 7);
    FirstStep(w, resume, []);
    OtherClaimed([resume] + []);
    var later := [PlanEvent(OLDER, NOON)] + ([ClaimEvent(1, NOON)] + ([resume] + []));
    assert SENT[A := SENT[A].(status := Blocked)] == HELD;
    FirstStep(Stage(SENT, map[], NOON, 4), hold, later);
    FirstClaimed([hold] + later);
    es := [AddInvoice(0, PLAIN, NOON)] + ([PlanEvent(FIRST, NOON)] + ([ClaimEvent(0, NOON)] + ([hold] + later)));
    assert !Apart(Next(w, resume).db, A, B);
  }

  // ---- an e-mail in the stead of a rejected message ----------------------------------------------

  const BOTH := SENT[B := Row(Queued, LATER, 5, 1)]

  lemma {:induction false} NextDayClaimed(rest: seq<Event>)
    requires Possible(Stage(BOTH, map[], LATER, 6), rest)
    ensures var es := [PlanEvent(SECOND, LATER)] + ([ClaimEvent(1, LATER)] + rest);
      Possible(Stage(SENT, map[], NOON, 4), es) && After(Stage(SENT, map[], NOON, 4), es) == After(Stage(BOTH, map[], LATER, 6), rest)
  {
    var db := Db(map[0 := PLAIN], SENT, map[]);
    assert Eligible(db, 0, SECOND, LATER);
    PlanStage(SENT, NOON, LATER, 4, SECOND);
    ClaimStage(SENT, LATER, 5, SECOND, 1);
    FirstStep(Stage(SENT, map[0 := PlanOf(SECOND, LATER, 4)], LATER, 5), ClaimEvent(1, LATER), rest);
    FirstStep(Stage(SENT, map[], NOON, 4), PlanEvent(SECOND, LATER), [ClaimEvent(1, LATER)] + rest);
  }

  const SOON := LATER + 60000
  const REJECT := ReportStatus(A, Failed, SOON)
  const MAIL := Fallback(A, SOON)

  lemma {:induction false} RejectedAndMailed()
    ensures Possible(Stage(BOTH, map[], LATER, 6), [REJECT] + ([MAIL] + []))
    ensures var db := After(Stage(BOTH, map[], LATER, 6), [REJECT] + ([MAIL] + [])).db; !AllApart(db) && !AllInOrder(db)
  {
    var rejected := Stage(BOTH[A := BOTH[A].(status := Failed)], map[], SOON, 7);
    assert Next(Stage(BOTH, map[], LATER, 6), REJECT) == rejected;
    FirstStep(rejected, MAIL, []);
    FirstStep(Stage(BOTH, map[], LATER, 6), REJECT, [MAIL] + []);
    var end := Next(rejected, MAIL).db;
    assert !Apart(end, EmailOf(A), B) && !InOrder(end, B, EmailOf(A));
  }

  /**
   A message still queued, the next day's contact claimed 23 h after it, then the message rejected
   and its e-mail sent: two contacts within a minute, and the second for an earlier day.
   */
  lemma {:induction false} FallbackBreaksSpacing() returns (es: seq<Event>)
    ensures Possible(Start(0), es) && !AllApart(After(Start(0), es).db) && !AllInOrder(After(Start(0), es).db)
    ensures forall n :: 0 <= n < |es| ==> !es[n].Revive?
  {
    RejectedAndMailed();
    NextDayClaimed([REJECT] + ([MAIL] + []));
    var later := [PlanEvent(SECOND, LATER)] + ([ClaimEvent(1, LATER)] + ([REJECT] + ([MAIL] + [])));
    FirstClaimed(later);
    es := [AddInvoice(0, PLAIN, NOON)] + ([PlanEvent(FIRST, NOON)] + ([ClaimEvent(0, NOON)] + later));
  }
}
