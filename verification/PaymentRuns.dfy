/** A run in which a payment is left behind by a switch-off, from the empty database on. */
module PaymentRuns {
  import opened Common
  import opened PaymentContent
  import opened PaymentModel
  import opened PaymentInvariant
  import opened PaymentWorld
  import opened PaymentSending
  import opened PaymentEffects
  import opened PaymentTheorems
  import opened PaymentSwitch

  lemma {:induction false} FirstStep(w: World, e: Event, es: seq<Event>)
    requires Enabled(w, e) && Possible(Next(w, e), es)
    ensures Possible(w, [e] + es) && After(w, [e] + es) == After(Next(w, e), es)
  {
    assert ([e] + es)[1..] == es;
  }

  /** An idle sender takes up one item and puts it on the wire. */
  function SendOne(w: World, x: WorkerId, i: ItemId): seq<Event>
    requires i in w.db.items
  {
    var q := Queued(i, PayloadOf(w.db.items[i]));
    [ReadBatch(x, w.db.items[i].batch)] + ([FetchPending(x, [q])] + ([ClaimNext(x)] + ([Transmit(x)] + [])))
  }

  /** What happens to it while its company switches off. */
  function Turned(w: World, c: CompanyId, x: WorkerId, i: ItemId, phone: Phone): seq<Event>
    requires i in w.db.items
  {
    SendOne(w, x, i) + OffAndAnswer(w, c, x, phone)
  }

  function OffAndAnswer(w: World, c: CompanyId, x: WorkerId, phone: Phone): seq<Event> {
    [ProviderReceives(|w.sends|, RateLimited, Moving)] + SwitchedThenAnswered(c, x, phone, CurrentVersion(w.db, c))
  }

  /** The send of an item is on the wire. */
  predicate OnTheWire(was: World, w: World, c: CompanyId, x: WorkerId, i: ItemId) {
    && |w.sends| == |was.sends| + 1 && w.sends[|was.sends|].item == i && w.sends[|was.sends|].verdict == None
    && WorkerAt(w, x).Waiting? && WorkerAt(w, x).send == |was.sends|
    && OfCompanyItem(w.db, c, i) && w.db.batches[w.db.items[i].batch].status == Processing && w.db.items[i].status == Sending
    && w.db.settings == was.db.settings
  }

  lemma {:induction false} LastSteps(was: World, w: World, c: CompanyId, x: WorkerId, i: ItemId, phone: Phone)
    requires OnTheWire(was, w, c, x, i)
    ensures Possible(w, OffAndAnswer(was, c, x, phone))
    ensures var end := After(w, OffAndAnswer(was, c, x, phone)).db;
      i in end.items && Unsent(end, c, i) && c in end.settings && !end.settings[c].enabled
  {
    var receive := ProviderReceives(|was.sends|, RateLimited, Moving);
    var received := Next(w, receive);
    assert received == w.(sends := received.sends) && received.sends[|was.sends|].verdict == Some(RateLimited);
    SwitchAndAnswer(received, c, x, i, |was.sends|, phone, CurrentVersion(was.db, c));
    FirstStep(w, receive, SwitchedThenAnswered(c, x, phone, CurrentVersion(was.db, c)));
  }

  function SwitchedThenAnswered(c: CompanyId, x: WorkerId, phone: Phone, version: nat): seq<Event> {
    [Service(ConfigureFeature(c, false, phone, version))] + ([RecordAnswer(x, SaidRateLimited)] + [])
  }

  lemma {:induction false} SwitchAndAnswer(w: World, c: CompanyId, x: WorkerId, i: ItemId, k: nat, phone: Phone, version: nat)
    requires k < |w.sends| && w.sends[k].item == i && w.sends[k].verdict == Some(RateLimited)
    requires WorkerAt(w, x).Waiting? && WorkerAt(w, x).send == k && version == CurrentVersion(w.db, c)
    requires OfCompanyItem(w.db, c, i) && w.db.batches[w.db.items[i].batch].status == Processing && w.db.items[i].status == Sending
    ensures Possible(w, SwitchedThenAnswered(c, x, phone, version))
    ensures var end := After(w, SwitchedThenAnswered(c, x, phone, version)).db;
      i in end.items && Unsent(end, c, i) && c in end.settings && !end.settings[c].enabled
  {
    var switch := Service(ConfigureFeature(c, false, phone, version));
    var off := Next(w, switch);
    assert off == w.(db := off.db);
    SwitchedWhileSending(w.db, off.db, c, phone, version, i);
    AnswerLast(off, c, x, i, k);
    FirstStep(w, switch, [RecordAnswer(x, SaidRateLimited)] + []);
  }

  lemma {:induction false} AnswerLast(off: World, c: CompanyId, x: WorkerId, i: ItemId, k: nat)
    requires k < |off.sends| && off.sends[k].item == i && off.sends[k].verdict == Some(RateLimited)
    requires WorkerAt(off, x).Waiting? && WorkerAt(off, x).send == k
    requires OfCompanyItem(off.db, c, i) && off.db.batches[off.db.items[i].batch].status == Processing && off.db.items[i].status == Sending
    ensures Possible(off, [RecordAnswer(x, SaidRateLimited)] + [])
    ensures var end := After(off, [RecordAnswer(x, SaidRateLimited)] + []).db;
      i in end.items && Unsent(end, c, i) && end.settings == off.db.settings
  {
    FirstStep(off, RecordAnswer(x, SaidRateLimited), []);
  }

  lemma {:induction false} SwitchedWhileSending(db: Db, off: Db, c: CompanyId, phone: Phone, version: nat, i: ItemId)
    requires OfCompanyItem(db, c, i) && db.batches[db.items[i].batch].status == Processing && db.items[i].status == Sending
    requires version == CurrentVersion(db, c) && off == Committed(db, Configure(db, c, false, phone, version))
    ensures c in off.settings && !off.settings[c].enabled
    ensures OfCompanyItem(off, c, i) && off.batches[off.items[i].batch].status == Processing && off.items[i].status == Sending
  {}

  /**
   From any state in which an item is approved and unsent and a sender is idle: the sender puts it
   on the wire, the feature is switched off, the provider's rate limit is recorded after that, and
   the item is unsent again although the feature is off.
   */
  lemma {:induction false} TurnedAwayAfterSwitch(w: World, c: CompanyId, x: WorkerId, i: ItemId, phone: Phone)
    requires WorldInv(w) && WorkerAt(w, x) == Idle && Left(w.db, c, i)
    ensures Possible(w, Turned(w, c, x, i, phone))
    ensures var end := After(w, Turned(w, c, x, i, phone)).db; i in end.items && Unsent(end, c, i) && c in end.settings && !end.settings[c].enabled
  {
    Sent(w, c, x, i);
    LastSteps(w, After(w, SendOne(w, x, i)), c, x, i, phone);
    Joined(w, SendOne(w, x, i), OffAndAnswer(w, c, x, phone));
  }

  lemma {:induction false} Sent(w: World, c: CompanyId, x: WorkerId, i: ItemId)
    requires WorldInv(w) && WorkerAt(w, x) == Idle && Left(w.db, c, i)
    ensures Possible(w, SendOne(w, x, i)) && OnTheWire(w, After(w, SendOne(w, x, i)), c, x, i)
    ensures After(w, SendOne(w, x, i)).db.items[i].batch == w.db.items[i].batch
  {
    var b, q := w.db.items[i].batch, Queued(i, PayloadOf(w.db.items[i]));
    assert BatchSound(w.db, b);
    var read := Next(w, ReadBatch(x, b));
    var loaded := Next(read, FetchPending(x, [q]));
    assert loaded == w.(workers := loaded.workers) && [q][1..] == [];
    ClaimedAndSent(loaded, c, x, i, w.workers);
    var rest := [ClaimNext(x)] + ([Transmit(x)] + []);
    FirstStep(read, FetchPending(x, [q]), rest);
    FirstStep(w, ReadBatch(x, b), [FetchPending(x, [q])] + rest);
  }

  lemma {:induction false} ClaimedAndSent(w: World, c: CompanyId, x: WorkerId, i: ItemId, before: map<WorkerId, Worker>)
    requires Left(w.db, c, i) && WorkerAt(w, x).Loaded? && WorkerAt(w, x).queue == [Queued(i, PayloadOf(w.db.items[i]))]
    ensures var es := [ClaimNext(x)] + ([Transmit(x)] + []);
      Possible(w, es) && OnTheWire(w.(workers := before), After(w, es), c, x, i) && After(w, es).db.items[i].batch == w.db.items[i].batch
  {
    var claimed := Next(w, ClaimNext(x));
    assert claimed.workers[x].Claimed? && claimed.sends == w.sends;
    FirstStep(claimed, Transmit(x), []);
    FirstStep(w, ClaimNext(x), [Transmit(x)] + []);
  }

  // ---- from the empty database ---------------------------------------------------------------

  const DESTINATION := Destination("CPF", "1", Some("key"), None, None, None, None)
  const SOMEBODY := Recipient(1, "Ana", DESTINATION, true)
  const SETUP := [
    Service(SaveRecipient(0, SOMEBODY)), Service(ConfigureFeature(1, true, "5", 0)),
    Service(CreateBatch(1, 0, "May", [Line(0, 0, 100)], false, None)), Service(AskApproval(1, 0, Some(1), 9, 0)),
    Service(DecideRequest(0, true))]

  const DRAFT := EmptyBatch(1, "May", false, None, None)

  lemma {:induction false} Created(db: Db)
    requires db == Db(map[0 := SOMEBODY], map[], map[], map[], map[1 := Settings(1, true, "5")], map[])
    ensures Allowed(db, SETUP[2].call)
    ensures Apply(db, SETUP[2].call) == db.(batches := map[0 := DRAFT], items := map[0 := Item(0, 0, "Ana", DESTINATION, 100, Pending, None)])
  {
    var lines := [Line(0, 0, 100)];
    assert lines[..0] == [];
    assert SumOf(lines) == 100 && FirstProblem(db, 1, lines) == None;
    assert ItemsOf(db, 0, lines) == map[0 := Item(0, 0, "Ana", DESTINATION, 100, Pending, None)];
  }

  lemma {:induction false} Asked(db: Db)
    requires 0 in db.batches && db.batches[0] == DRAFT && 0 !in db.approvals
    requires db.settings == map[1 := Settings(1, true, "5")] && db.recipients == map[0 := SOMEBODY]
    requires db.items == map[0 := Item(0, 0, "Ana", DESTINATION, 100, Pending, None)]
    ensures var after := Apply(db, SETUP[3].call);
      && 0 in after.approvals && after.approvals[0].state == Awaiting && after.approvals[0].batch == 0
      && OfCompanyItem(after, 1, 0) && after.items[0].batch == 0
  {}

  /** The request of one payment of one item awaits. */
  predicate RequestAwaits(w: World) {
    && w.workers == map[] && 0 in w.db.approvals && w.db.approvals[0].state == Awaiting && w.db.approvals[0].batch == 0
    && OfCompanyItem(w.db, 1, 0) && w.db.items[0].batch == 0
  }

  lemma {:induction false} ReachRequest()
    ensures Possible(START, SETUP[..4]) && RequestAwaits(After(START, SETUP[..4]))
  {
    var one := Next(START, SETUP[0]);
    var two := Next(one, SETUP[1]);
    assert two.db == Db(map[0 := SOMEBODY], map[], map[], map[], map[1 := Settings(1, true, "5")], map[]);
    Created(two.db);
    var three := Next(two, SETUP[2]);
    Asked(three.db);
    var rest := [SETUP[1]] + ([SETUP[2]] + ([SETUP[3]] + []));
    FirstStep(three, SETUP[3], []);
    FirstStep(two, SETUP[2], [SETUP[3]] + []);
    FirstStep(one, SETUP[1], [SETUP[2]] + ([SETUP[3]] + []));
    FirstStep(START, SETUP[0], rest);
    assert SETUP[..4] == [SETUP[0]] + rest;
  }

  lemma {:induction false} TapApproves(w: World)
    requires WorldInv(w) && RequestAwaits(w)
    ensures Left(Next(w, SETUP[4]).db, 1, 0)
  {
    TapDecides(w.db, 0, true);
    CallServed(w.db, SETUP[4].call);
    CompanyStays(w.db, SETUP[4].call, 0);
    assert ItemFits(w.db, 0);
  }

  /** One approved payment of one item, and nothing sent. */
  lemma {:induction false} ReachApproved()
    ensures Possible(START, SETUP) && WorldInv(After(START, SETUP))
    ensures After(START, SETUP).workers == map[] && Left(After(START, SETUP).db, 1, 0)
  {
    ReachRequest();
    StartHolds();
    RunKeeps(START, SETUP[..4]);
    var w := After(START, SETUP[..4]);
    TapApproves(w);
    FirstStep(w, SETUP[4], []);
    Joined(START, SETUP[..4], [SETUP[4]] + []);
    assert SETUP == SETUP[..4] + ([SETUP[4]] + []);
    RunKeeps(START, SETUP);
  }

  /** The payment left behind is reached. */
  lemma {:induction false} LeftBehind() returns (es: seq<Event>)
    ensures Possible(START, es)
    ensures var db := After(START, es).db; 0 in db.items && Unsent(db, 1, 0) && 1 in db.settings && !db.settings[1].enabled
  {
    ReachApproved();
    var w := After(START, SETUP);
    TurnedAwayAfterSwitch(w, 1, 0, 0, "5");
    es := SETUP + Turned(w, 1, 0, 0, "5");
    Joined(START, SETUP, Turned(w, 1, 0, 0, "5"));
  }

  lemma {:induction false} Joined(w: World, es: seq<Event>, more: seq<Event>)
    requires Possible(w, es) && Possible(After(w, es), more)
    ensures Possible(w, es + more) && After(w, es + more) == After(After(w, es), more)
    decreases |es|
  {
    if es == [] {
      assert es + more == more;
    } else {
      assert (es + more)[1..] == es[1..] + more;
      Joined(Next(w, es[0]), es[1..], more);
    }
  }
}
