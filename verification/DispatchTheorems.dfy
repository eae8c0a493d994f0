/** What holds after every run of the outbound dispatch, from the empty database on. */
module DispatchTheorems {
  import opened Common
  import opened DispatchModel
  import opened DispatchWorld

  const START := World(Db(map[], map[], map[]), [], map[])

  ghost predicate Possible(w: World, es: seq<Event>)
    decreases |es|
  {
    es == [] || (Enabled(w, es[0]) && Possible(Next(w, es[0]), es[1..]))
  }

  ghost function After(w: World, es: seq<Event>): World
    requires Possible(w, es)
    decreases |es|
  {
    if es == [] then w else After(Next(w, es[0]), es[1..])
  }

  lemma {:induction false} NextKeeps(w: World, e: Event)
    requires WorldInv(w) && Enabled(w, e)
    ensures WorldInv(Next(w, e))
  {
    WorldDbInv(w);
    match e
    case ReadIntent(x, i) => MoveWorkerKeeps(w, x, Read(i));
    case ClaimIntent(x, token, now) => ClaimKeeps(w, x, token, now);
    case ValidationFails(x, error, wait, now) => assert WorkerTrue(w, x); FailKeeps(w, x, error, false, wait, now);
    case StartTransmit(x) => StartKeeps(w, x);
    case ProviderTakes(k, external) => FateKeeps(w, k, Reached(external));
    case ProviderMisses(k) => FateKeeps(w, k, NeverArrived);
    case TransmitReturns(x) => ReturnKeeps(w, x);
    case TransmitThrows(x, error, wait, now) => ThrowsKeeps(w, x, error, wait, now);
    case TryCommit(x, wait, now) => TryCommitKeeps(w, x, wait, now);
    case CommitFails(x, applied, wait, now) => CommitFailsKeeps(w, x, applied, wait, now);
    case Crash(x) => MoveWorkerKeeps(w, x, Idle);
    case RecoverLeases(page, now) => RecoverKeeps(w, page, now);
    case BlockSend(key, intent, code, snapshot) =>
      BlockServed(w.db, key, intent, code, snapshot); ServedKeeps(w, Next(w, e).db);
    case PrepareSend(key, renew, verdict, i, now) =>
      PrepareServed(w.db, key, renew, verdict, i, now); ServedKeeps(w, Next(w, e).db);
    case PreviewHolds(r, keys, env, expires) =>
      HoldsOnlyServed(w.db, Next(w, e).db); ServedKeeps(w, Next(w, e).db);
    case ConfirmReview(r, confirmKey, now, env, ids) =>
      if Confirm(w.db, r, confirmKey, now, env, ids).Success? {
        ConfirmServed(w.db, r, confirmKey, now, env, ids); ServedKeeps(w, Next(w, e).db);
      }
  }

  lemma {:induction false} RunKeeps(w: World, es: seq<Event>)
    requires WorldInv(w) && Possible(w, es)
    ensures WorldInv(After(w, es))
    decreases |es|
  {
    if es != [] {
      NextKeeps(w, es[0]);
      RunKeeps(Next(w, es[0]), es[1..]);
    }
  }

  lemma {:induction false} StartHolds()
    ensures WorldInv(START)
  {}

  // ---- at most once ------------------------------------------------------------------------

  /** Of all transmissions of an intent at most one may have reached, or may still reach, the provider. */
  lemma {:induction false} AtMostOneTransmission(es: seq<Event>, j: nat, k: nat)
    requires Possible(START, es)
    requires var w := After(START, es);
      && j < |w.wires| && k < |w.wires| && w.wires[j].intent == w.wires[k].intent
      && w.wires[j].fate != NeverArrived && w.wires[k].fate != NeverArrived
    ensures j == k
  {
    StartHolds();
    RunKeeps(START, es);
    assert SentOnce(After(START, es), j, k);
  }

  /** An intent whose message may have left never looks as if it could be sent. */
  lemma {:induction false} TransmittedStaysClosed(es: seq<Event>, k: nat)
    requires Possible(START, es)
    requires k < |After(START, es).wires| && After(START, es).wires[k].fate != NeverArrived
    ensures var w := After(START, es);
      w.wires[k].intent in w.db.intents && w.db.intents[w.wires[k].intent].state in {Sending, Uncertain, Accepted}
  {
    StartHolds();
    RunKeeps(START, es);
    assert IntentTrue(After(START, es), After(START, es).wires[k].intent);
  }

  /** ACCEPTED and an external id come together, and the id is one the provider gave for this intent. */
  lemma {:induction false} AcceptedIsTrue(es: seq<Event>, i: IntentId)
    requires Possible(START, es) && i in After(START, es).db.intents
    ensures var w := After(START, es); var x := w.db.intents[i];
      && (x.state == Accepted <==> x.external.Some?)
      && (x.state == Accepted ==>
           exists k {:trigger w.wires[k]} :: 0 <= k < |w.wires| && w.wires[k] == Transmit(i, Reached(x.external.value)))
  {
    StartHolds();
    RunKeeps(START, es);
    var w := After(START, es);
    assert IntentTrue(w, i);
    if w.db.intents[i].state == Accepted { assert DeliveredAs(w, i, w.db.intents[i].external.value); }
  }

  /** Holds, reservations and confirmations. */
  lemma {:induction false} ServedKeepsAccepted(w: World, e: Event, i: IntentId)
    requires WorldInv(w) && Enabled(w, e) && i in w.db.intents && w.db.intents[i].state == Accepted
    requires e.BlockSend? || e.PrepareSend? || e.PreviewHolds? || e.ConfirmReview?
    ensures i in Next(w, e).db.intents && Next(w, e).db.intents[i] == w.db.intents[i]
  {
    WorldDbInv(w);
    match e
    case BlockSend(key, intent, code, snapshot) =>
      BlockServed(w.db, key, intent, code, snapshot); assert IntentServed(w.db, Next(w, e).db, i);
    case PrepareSend(key, renew, verdict, j, now) =>
      PrepareServed(w.db, key, renew, verdict, j, now); assert IntentServed(w.db, Next(w, e).db, i);
    case ConfirmReview(r, confirmKey, now, env, ids) =>
      if Confirm(w.db, r, confirmKey, now, env, ids).Success? {
        ConfirmServed(w.db, r, confirmKey, now, env, ids); assert IntentServed(w.db, Next(w, e).db, i);
      }
    case _ =>
  }

  lemma {:induction false} NextKeepsAccepted(w: World, e: Event, i: IntentId)
    requires WorldInv(w) && Enabled(w, e) && i in w.db.intents && w.db.intents[i].state == Accepted
    ensures i in Next(w, e).db.intents && Next(w, e).db.intents[i] == w.db.intents[i]
  {
    if e.BlockSend? || e.PrepareSend? || e.PreviewHolds? || e.ConfirmReview? {
      ServedKeepsAccepted(w, e, i);
    } else {
      assert IntentTrue(w, i);
    }
  }

  /** Nothing that happens later changes an accepted intent. */
  lemma {:induction false} AcceptedForever(w: World, es: seq<Event>, i: IntentId)
    requires WorldInv(w) && Possible(w, es) && i in w.db.intents && w.db.intents[i].state == Accepted
    ensures i in After(w, es).db.intents && After(w, es).db.intents[i] == w.db.intents[i]
    decreases |es|
  {
    if es != [] {
      NextKeeps(w, es[0]);
      NextKeepsAccepted(w, es[0], i);
      AcceptedForever(Next(w, es[0]), es[1..], i);
    }
  }

  /** The commit of a worker whose message was accepted never finds its lease lost to another. */
  lemma {:induction false} HolderCommits(es: seq<Event>, x: WorkerId)
    requires Possible(START, es) && WorkerAt(After(START, es), x).Committing?
    ensures var w := After(START, es); var me := w.workers[x];
      && me.intent in w.db.intents
      && (CommitAcceptance(w.db, me.intent, me.token, me.external).Some? || AcceptedAs(w.db.intents[me.intent], me.external))
  {
    StartHolds();
    RunKeeps(START, es);
    assert WorkerTrue(After(START, es), x);
  }

  // ---- one communication, many generations -------------------------------------------------

  /** However often a communication is held, renewed and resumed, one of its intents at most is live. */
  lemma {:induction false} OneLiveIntent(es: seq<Event>, i: IntentId, j: IntentId)
    requires Possible(START, es)
    requires var db := After(START, es).db;
      && i in db.intents && j in db.intents && db.intents[i].key == db.intents[j].key
      && Live(db.intents[i].state) && Live(db.intents[j].state)
    ensures i == j
  {
    StartHolds();
    RunKeeps(START, es);
    var db := After(START, es).db;
    assert LiveIsLast(db, i, j) && LiveIsLast(db, j, i) && GenerationsDiffer(db, i, j);
  }

  /** At most one message of a communication can reach its recipient, over all generations. */
  lemma {:induction false} OneMessage(es: seq<Event>, j: nat, k: nat)
    requires Possible(START, es)
    requires var w := After(START, es);
      && j < |w.wires| && k < |w.wires|
      && w.wires[j].fate != NeverArrived && w.wires[k].fate != NeverArrived
      && w.wires[j].intent in w.db.intents && w.wires[k].intent in w.db.intents
      && w.db.intents[w.wires[j].intent].key == w.db.intents[w.wires[k].intent].key
    ensures j == k
  {
    TransmittedStaysClosed(es, j);
    TransmittedStaysClosed(es, k);
    OneLiveIntent(es, After(START, es).wires[j].intent, After(START, es).wires[k].intent);
    AtMostOneTransmission(es, j, k);
  }

  // ---- reviews ---------------------------------------------------------------------------

  predicate ReviewKept(db: Db, after: Db, r: ReviewId) {
    r in db.reviews ==>
      && r in after.reviews && after.reviews[r].items == db.reviews[r].items
      && (db.reviews[r].confirmation.Some? ==> after.reviews[r] == db.reviews[r])
  }

  predicate VersionKept(db: Db, after: Db, key: Key) {
    key in db.holds ==> key in after.holds && db.holds[key].version <= after.holds[key].version
  }

  lemma {:induction false} AppliedVersions(db: Db, items: seq<Evaluation>, ids: seq<IntentId>, env: map<Key, Verdict>,
                                           now: Instant, n: nat, key: Key)
    requires n <= |items| && |ids| == |items| && Applied(db, items, ids, env, now, n).Some?
    ensures VersionKept(db, Applied(db, items, ids, env, now, n).value.0, key)
    ensures Applied(db, items, ids, env, now, n).value.0.reviews == db.reviews
    ensures forall m :: 0 <= m < n && items[m].key == key && key in db.holds ==>
      && db.holds[key].version <= items[m].version
      && (items[m].action != KeepBlocked ==> items[m].version < Applied(db, items, ids, env, now, n).value.0.holds[key].version)
  {
    if n > 0 { AppliedVersions(db, items, ids, env, now, n - 1, key); }
  }

  lemma {:induction false} NextKeepsReviews(w: World, e: Event, r: ReviewId, key: Key)
    requires Enabled(w, e)
    ensures ReviewKept(w.db, Next(w, e).db, r) && VersionKept(w.db, Next(w, e).db, key)
  {
    if e.ConfirmReview? && Confirm(w.db, e.r, e.confirmKey, e.now, e.env, e.ids).Success? {
      var review := w.db.reviews[e.r];
      if review.confirmation.None? { AppliedVersions(w.db, review.items, e.ids, e.env, e.now, |review.items|, key); }
    }
  }

  /** A confirmation repeated at any later time returns the stored result and changes nothing. */
  lemma {:induction false} ConfirmationReplays(w: World, es: seq<Event>, r: ReviewId, confirmKey: string, now: Instant,
                                               env: map<Key, Verdict>, ids: seq<IntentId>)
    requires Possible(w, es) && r in w.db.reviews && w.db.reviews[r].confirmation.Some?
    requires |ids| == |w.db.reviews[r].items|
    ensures var later := After(w, es).db; var (usedKey, result) := w.db.reviews[r].confirmation.value;
      && r in later.reviews && |ids| == |later.reviews[r].items|
      && Confirm(later, r, confirmKey, now, env, ids) ==
           if confirmKey == usedKey then Success((later, result)) else Failure(AlreadyConfirmed)
    decreases |es|
  {
    if es != [] {
      NextKeepsReviews(w, es[0], r, "");
      ConfirmationReplays(Next(w, es[0]), es[1..], r, confirmKey, now, env, ids);
    }
  }

  /** Item `m` of an unconfirmed review was previewed before the hold last changed. */
  predicate Overtaken(db: Db, r: ReviewId, m: nat) {
    && r in db.reviews && db.reviews[r].confirmation.None? && m < |db.reviews[r].items|
    && var item := db.reviews[r].items[m];
       item.key in db.holds && item.version < db.holds[item.key].version
  }

  lemma {:induction false} OvertakenIsRefused(db: Db, r: ReviewId, m: nat, confirmKey: string, now: Instant, env: map<Key, Verdict>, ids: seq<IntentId>)
    requires Overtaken(db, r, m) && |ids| == |db.reviews[r].items|
    ensures Confirm(db, r, confirmKey, now, env, ids).Failure?
  {
    var items := db.reviews[r].items;
    if Applied(db, items, ids, env, now, |items|).Some? {
      AppliedVersions(db, items, ids, env, now, |items|, items[m].key);
    }
  }

  lemma {:induction false} NextKeepsOvertaken(w: World, e: Event, r: ReviewId, m: nat)
    requires Enabled(w, e) && Overtaken(w.db, r, m)
    ensures Overtaken(Next(w, e).db, r, m)
  {
    NextKeepsReviews(w, e, r, w.db.reviews[r].items[m].key);
    if e.ConfirmReview? && e.r == r { OvertakenIsRefused(w.db, r, m, e.confirmKey, e.now, e.env, e.ids); }
    else if e.ConfirmReview? && Confirm(w.db, e.r, e.confirmKey, e.now, e.env, e.ids).Success? {
      var review := w.db.reviews[e.r];
      if review.confirmation.None? { AppliedVersions(w.db, review.items, e.ids, e.env, e.now, |review.items|, ""); }
    }
  }

  /** No preview is ahead of the hold it shows. */
  predicate Behind(db: Db, r: ReviewId) {
    r in db.reviews ==> forall m :: 0 <= m < |db.reviews[r].items| ==>
      var item := db.reviews[r].items[m]; item.key in db.holds && item.version <= db.holds[item.key].version
  }

  lemma {:induction false} NextKeepsBehind(w: World, e: Event, r: ReviewId)
    requires Enabled(w, e) && Behind(w.db, r)
    ensures Behind(Next(w, e).db, r)
  {
    if r in w.db.reviews {
      NextKeepsReviews(w, e, r, "");
      forall m | 0 <= m < |w.db.reviews[r].items|
        ensures var item := w.db.reviews[r].items[m];
          item.key in Next(w, e).db.holds && item.version <= Next(w, e).db.holds[item.key].version
      {
        NextKeepsReviews(w, e, r, w.db.reviews[r].items[m].key);
      }
    } else if e.ConfirmReview? && Confirm(w.db, e.r, e.confirmKey, e.now, e.env, e.ids).Success? {
      var review := w.db.reviews[e.r];
      if review.confirmation.None? { AppliedVersions(w.db, review.items, e.ids, e.env, e.now, |review.items|, ""); }
    }
  }

  lemma {:induction false} RunKeepsBehind(w: World, es: seq<Event>, r: ReviewId)
    requires Possible(w, es) && Behind(w.db, r)
    ensures Behind(After(w, es).db, r)
    decreases |es|
  {
    if es != [] {
      NextKeepsBehind(w, es[0], r);
      RunKeepsBehind(Next(w, es[0]), es[1..], r);
    }
  }

  lemma {:induction false} RunKeepsOvertaken(w: World, es: seq<Event>, r: ReviewId, m: nat)
    requires Possible(w, es) && Overtaken(w.db, r, m)
    ensures Overtaken(After(w, es).db, r, m)
    decreases |es|
  {
    if es != [] {
      NextKeepsOvertaken(w, es[0], r, m);
      RunKeepsOvertaken(Next(w, es[0]), es[1..], r, m);
    }
  }

  /**
   Two reviews previewed the same held communication. Once the confirmation of one resumed or
   closed it, the other is refused at every later time, so it never makes a second successor.
   */
  lemma {:induction false} FirstConfirmationWins(es: seq<Event>, first: Event, later: seq<Event>, n: nat, other: ReviewId, m: nat,
                                                 confirmKey: string, now: Instant, env: map<Key, Verdict>, ids: seq<IntentId>)
    requires Possible(START, es) && first.ConfirmReview? && Enabled(After(START, es), first)
    requires var db := After(START, es).db;
      && Confirm(db, first.r, first.confirmKey, first.now, first.env, first.ids).Success?
      && db.reviews[first.r].confirmation.None? && n < |db.reviews[first.r].items|
      && db.reviews[first.r].items[n].action != KeepBlocked
      && other != first.r && other in db.reviews && db.reviews[other].confirmation.None? && m < |db.reviews[other].items|
      && db.reviews[other].items[m].key == db.reviews[first.r].items[n].key
      && |ids| == |db.reviews[other].items|
    requires Possible(Next(After(START, es), first), later)
    ensures var end := After(Next(After(START, es), first), later).db;
      && other in end.reviews && |ids| == |end.reviews[other].items|
      && Confirm(end, other, confirmKey, now, env, ids).Failure?
  {
    var w := After(START, es);
    var review := w.db.reviews[first.r];
    RunKeepsBehind(START, es, other);
    assert Behind(w.db, other);
    AppliedVersions(w.db, review.items, first.ids, first.env, first.now, |review.items|, review.items[n].key);
    RunKeepsBehind(START, es, first.r);
    assert Overtaken(Next(w, first).db, other, m);
    RunKeepsOvertaken(Next(w, first), later, other, m);
    ReviewItemsKept(Next(w, first), later, other);
    OvertakenIsRefused(After(Next(w, first), later).db, other, m, confirmKey, now, env, ids);
  }

  lemma {:induction false} ReviewItemsKept(w: World, es: seq<Event>, r: ReviewId)
    requires Possible(w, es) && r in w.db.reviews
    ensures r in After(w, es).db.reviews && After(w, es).db.reviews[r].items == w.db.reviews[r].items
    decreases |es|
  {
    if es != [] {
      NextKeepsReviews(w, es[0], r, "");
      ReviewItemsKept(Next(w, es[0]), es[1..], r);
    }
  }
}
