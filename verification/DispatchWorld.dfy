/**
 Every interleaving of dispatch workers, lease recovery, holds, first reservations, previews
 and confirmations. A transmission on the wire may reach the provider at any later time,
 also after its worker was lost.
 */
module DispatchWorld {
  import opened Common
  import opened DispatchModel

  type WorkerId = nat

  datatype Fate = OnWire | Reached(external: ExternalId) | NeverArrived

  datatype Transmit = Transmit(intent: IntentId, fate: Fate)

  datatype Worker =
    | Idle
    | Read(intent: IntentId)
    | Claimed(intent: IntentId, token: Token)
    | OnAir(intent: IntentId, token: Token, wire: nat)
    | Committing(intent: IntentId, token: Token, wire: nat, external: ExternalId, attempt: nat)

  datatype World = World(db: Db, wires: seq<Transmit>, workers: map<WorkerId, Worker>)

  datatype ErrorKind = RateLimit | Temporary | OtherKind

  datatype ErrorOutcome = OutcomeNotSent | OutcomeRejected | OutcomeUncertain

  /** What the transport reports of a send, or an error it knows nothing about. */
  datatype TransportError = UnknownError | Reported(kind: ErrorKind, outcome: ErrorOutcome)

  datatype Event =
    | ReadIntent(w: WorkerId, i: IntentId)
    | ClaimIntent(w: WorkerId, token: Token, now: Instant)
    | ValidationFails(w: WorkerId, error: TransportError, wait: nat, now: Instant)
    | StartTransmit(w: WorkerId)
    | ProviderTakes(k: nat, external: ExternalId)
    | ProviderMisses(k: nat)
    | TransmitReturns(w: WorkerId)
    | TransmitThrows(w: WorkerId, error: TransportError, wait: nat, now: Instant)
    | TryCommit(w: WorkerId, wait: nat, now: Instant)
    | CommitFails(w: WorkerId, applied: bool, wait: nat, now: Instant)
    | Crash(w: WorkerId)
    | RecoverLeases(page: set<IntentId>, now: Instant)
    | BlockSend(key: Key, intent: Option<IntentId>, code: string, snapshot: Option<Snapshot>)
    | PrepareSend(key: Key, renew: bool, verdict: Verdict, i: IntentId, now: Instant)
    | PreviewHolds(r: ReviewId, keys: seq<Key>, env: map<Key, Verdict>, expires: Instant)
    | ConfirmReview(r: ReviewId, confirmKey: string, now: Instant, env: map<Key, Verdict>, ids: seq<IntentId>)

  function WorkerAt(w: World, x: WorkerId): Worker { if x in w.workers then w.workers[x] else Idle }

  /** The handler of a failed send: what is recorded depends on whether transmission had begun. */
  function EndingOf(error: TransportError, transmitting: bool): Ending {
    if transmitting && (error.UnknownError? || error.outcome == OutcomeUncertain) then EndUncertain
    else if error.Reported? && (error.kind == RateLimit || (error.kind == Temporary && error.outcome == OutcomeNotSent)) then EndRetry
    else EndFailed
  }

  /** An outcome that denies the transmission is only reported of one that did not arrive. */
  predicate Honest(fate: Fate, error: TransportError) {
    error.Reported? && error.outcome != OutcomeUncertain ==> fate == NeverArrived
  }

  ghost predicate FreshIds(db: Db, ids: seq<IntentId>) {
    && (forall n :: 0 <= n < |ids| ==> ids[n] !in db.intents)
    && (forall m, n :: 0 <= m < n < |ids| ==> ids[m] != ids[n])
  }

  ghost predicate Enabled(w: World, e: Event) {
    match e
    case ReadIntent(x, i) => WorkerAt(w, x) == Idle && i in w.db.intents && w.db.intents[i].state == Pending
    case ClaimIntent(x, token, now) => WorkerAt(w, x).Read?
    case ValidationFails(x, error, wait, now) => WorkerAt(w, x).Claimed?
    case StartTransmit(x) => WorkerAt(w, x).Claimed?
    case ProviderTakes(k, external) => k < |w.wires| && w.wires[k].fate == OnWire
    case ProviderMisses(k) => k < |w.wires| && w.wires[k].fate == OnWire
    case TransmitReturns(x) => WorkerAt(w, x).OnAir? && WorkerAt(w, x).wire < |w.wires|
      && w.wires[WorkerAt(w, x).wire].fate.Reached?
    case TransmitThrows(x, error, wait, now) => WorkerAt(w, x).OnAir? && WorkerAt(w, x).wire < |w.wires|
      && Honest(w.wires[WorkerAt(w, x).wire].fate, error)
    case TryCommit(x, wait, now) => WorkerAt(w, x).Committing?
    case CommitFails(x, applied, wait, now) => WorkerAt(w, x).Committing?
    case BlockSend(key, intent, code, snapshot) =>
      intent.Some? && intent.value in w.db.intents ==> w.db.intents[intent.value].key == key
    case PrepareSend(key, renew, verdict, i, now) => i !in w.db.intents
    case PreviewHolds(r, keys, env, expires) => r !in w.db.reviews
    case ConfirmReview(r, confirmKey, now, env, ids) => FreshIds(w.db, ids)
      && (r in w.db.reviews ==> |ids| == |w.db.reviews[r].items|)
    case _ => true
  }

  function Fail(w: World, x: WorkerId, error: TransportError, transmitting: bool, wait: nat, now: Instant): World
    requires x in w.workers && !w.workers[x].Idle? && !w.workers[x].Read?
  {
    w.(db := RecordFailure(w.db, w.workers[x].intent, w.workers[x].token, EndingOf(error, transmitting), wait, now),
       workers := w.workers[x := Idle])
  }

  /** The database kept the acceptance although the worker may not have heard so. */
  function Committed(w: World, x: WorkerId): World
    requires WorkerAt(w, x).Committing?
  {
    var me := w.workers[x];
    var committed := CommitAcceptance(w.db, me.intent, me.token, me.external);
    if committed.Some? then w.(db := committed.value) else w
  }

  ghost function Next(w: World, e: Event): World
    requires Enabled(w, e)
  {
    match e
    case ReadIntent(x, i) => w.(workers := w.workers[x := Read(i)])
    case ClaimIntent(x, token, now) =>
      var i := w.workers[x].intent;
      var claimed := Claim(w.db, i, token, now);
      if claimed.Some? then w.(db := claimed.value, workers := w.workers[x := Claimed(i, token)])
      else w.(workers := w.workers[x := Idle])
    case ValidationFails(x, error, wait, now) => Fail(w, x, error, false, wait, now)
    case StartTransmit(x) =>
      w.(wires := w.wires + [Transmit(w.workers[x].intent, OnWire)],
         workers := w.workers[x := OnAir(w.workers[x].intent, w.workers[x].token, |w.wires|)])
    case ProviderTakes(k, external) => w.(wires := w.wires[k := w.wires[k].(fate := Reached(external))])
    case ProviderMisses(k) => w.(wires := w.wires[k := w.wires[k].(fate := NeverArrived)])
    case TransmitReturns(x) =>
      var me := w.workers[x];
      w.(workers := w.workers[x := Committing(me.intent, me.token, me.wire, w.wires[me.wire].fate.external, 1)])
    case TransmitThrows(x, error, wait, now) => Fail(w, x, error, true, wait, now)
    case TryCommit(x, wait, now) =>
      var me := w.workers[x];
      var committed := CommitAcceptance(w.db, me.intent, me.token, me.external);
      if committed.Some? then w.(db := committed.value, workers := w.workers[x := Idle])
      else Fail(w, x, UnknownError, true, wait, now)
    case CommitFails(x, applied, wait, now) =>
      var me := w.workers[x];
      var seen := if applied then Committed(w, x) else w;
      if me.attempt >= MAX_COMMITS then Fail(seen, x, UnknownError, true, wait, now)
      else seen.(workers := w.workers[x := me.(attempt := me.attempt + 1)])
    case Crash(x) => w.(workers := w.workers[x := Idle])
    case RecoverLeases(page, now) => w.(db := Recover(w.db, page, now))
    case BlockSend(key, intent, code, snapshot) => w.(db := Block(w.db, key, intent, code, snapshot))
    case PrepareSend(key, renew, verdict, i, now) => w.(db := Prepare(w.db, key, renew, verdict, i, now))
    case PreviewHolds(r, keys, env, expires) =>
      var previewed := Preview(w.db, r, keys, env, expires);
      if previewed.Some? then w.(db := previewed.value) else w
    case ConfirmReview(r, confirmKey, now, env, ids) =>
      var confirmed := Confirm(w.db, r, confirmKey, now, env, ids);
      if confirmed.Success? then w.(db := confirmed.value.0) else w
  }

  // ---- the invariant ---------------------------------------------------------------------

  /** No transmission of the intent may have reached the provider, now or later. */
  ghost predicate Unsent(w: World, i: IntentId) {
    forall k {:trigger w.wires[k]} :: 0 <= k < |w.wires| && w.wires[k].intent == i ==> w.wires[k].fate == NeverArrived
  }

  ghost predicate OnlyWire(w: World, i: IntentId, k: nat) {
    forall j {:trigger w.wires[j]} :: 0 <= j < |w.wires| && j != k && w.wires[j].intent == i ==> w.wires[j].fate == NeverArrived
  }

  ghost predicate IntentTrue(w: World, i: IntentId) {
    && (i in w.db.intents ==>
         var x := w.db.intents[i];
         && (!MayHaveLeft(x.state) ==> Unsent(w, i))
         && (x.state == Failed ==> x.transmission == NotSent)
         && (x.state == Accepted <==> x.external.Some?)
         && (x.state == Accepted ==> DeliveredAs(w, i, x.external.value)))
    && (i !in w.db.intents ==> Unsent(w, i))
  }

  ghost predicate DeliveredAs(w: World, i: IntentId, external: ExternalId) {
    exists k {:trigger w.wires[k]} :: 0 <= k < |w.wires| && w.wires[k] == Transmit(i, Reached(external))
  }

  predicate SentOnce(w: World, j: nat, k: nat) {
    (j < |w.wires| && k < |w.wires| && w.wires[j].intent == w.wires[k].intent
     && w.wires[j].fate != NeverArrived && w.wires[k].fate != NeverArrived) ==> j == k
  }

  /** Held by this worker: its claim, or the claim recovery took for lost. */
  predicate StillMine(x: Intent, token: Token) {
    && x.external == None
    && ((x.state == Sending && x.lease == Some(token)) || (x.state == Uncertain && x.error == WorkerLost))
  }

  predicate AcceptedAs(x: Intent, external: ExternalId) { x.state == Accepted && x.external == Some(external) }

  ghost predicate WorkerTrue(w: World, x: WorkerId) {
    match WorkerAt(w, x)
    case Idle => true
    case Read(i) => i in w.db.intents
    case Claimed(i, token) => i in w.db.intents && StillMine(w.db.intents[i], token) && Unsent(w, i)
    case OnAir(i, token, k) =>
      && i in w.db.intents && StillMine(w.db.intents[i], token)
      && k < |w.wires| && w.wires[k].intent == i && OnlyWire(w, i, k)
    case Committing(i, token, k, external, attempt) =>
      && i in w.db.intents
      && (StillMine(w.db.intents[i], token) || AcceptedAs(w.db.intents[i], external))
      && k < |w.wires| && w.wires[k] == Transmit(i, Reached(external)) && OnlyWire(w, i, k)
  }

  function Holding(w: World, x: WorkerId): Option<IntentId> {
    match WorkerAt(w, x)
    case Claimed(i, _) => Some(i)
    case OnAir(i, _, _) => Some(i)
    case Committing(i, _, _, _, _) => Some(i)
    case _ => None
  }

  predicate HoldersApart(w: World, x: WorkerId, y: WorkerId) {
    Holding(w, x).Some? && Holding(w, x) == Holding(w, y) ==> x == y
  }

  /** Only the last generation of a communication can still be live. */
  predicate LiveIsLast(db: Db, i: IntentId, j: IntentId) {
    (i in db.intents && j in db.intents && db.intents[i].key == db.intents[j].key && Live(db.intents[i].state)) ==>
      db.intents[j].generation <= db.intents[i].generation
  }

  predicate GenerationsDiffer(db: Db, i: IntentId, j: IntentId) {
    (i in db.intents && j in db.intents && db.intents[i].key == db.intents[j].key
     && db.intents[i].generation == db.intents[j].generation) ==> i == j
  }

  ghost predicate WorldInv(w: World) {
    && (forall i {:trigger IntentTrue(w, i)} :: IntentTrue(w, i))
    && (forall j, k {:trigger SentOnce(w, j, k)} :: SentOnce(w, j, k))
    && (forall x {:trigger WorkerTrue(w, x)} :: WorkerTrue(w, x))
    && (forall x, y {:trigger HoldersApart(w, x, y)} :: HoldersApart(w, x, y))
    && (forall i, j {:trigger LiveIsLast(w.db, i, j)} :: LiveIsLast(w.db, i, j))
    && (forall i, j {:trigger GenerationsDiffer(w.db, i, j)} :: GenerationsDiffer(w.db, i, j))
  }

  // ---- administrative transactions ---------------------------------------------------------

  /** Everything that may have left is untouched; what cannot have left never becomes live again. */
  predicate IntentServed(db: Db, after: Db, i: IntentId) {
    && (i in db.intents ==>
         && i in after.intents
         && after.intents[i].key == db.intents[i].key
         && after.intents[i].generation == db.intents[i].generation)
    && (i in db.intents && MayHaveLeft(db.intents[i].state) ==> after.intents[i] == db.intents[i])
    && (i in db.intents && !MayHaveLeft(db.intents[i].state) ==>
         (after.intents[i] == db.intents[i]
          || (after.intents[i].state == Blocked && after.intents[i].external == db.intents[i].external)))
    && (i in after.intents && i !in db.intents ==>
         after.intents[i].state in {Pending, Blocked} && after.intents[i].external == None)
  }

  ghost predicate Served(db: Db, after: Db) {
    && (forall i {:trigger IntentServed(db, after, i)} :: IntentServed(db, after, i))
    && (forall i, j {:trigger LiveIsLast(after, i, j)} :: LiveIsLast(after, i, j))
    && (forall i, j {:trigger GenerationsDiffer(after, i, j)} :: GenerationsDiffer(after, i, j))
  }

  lemma {:induction false} ServedKeeps(w: World, after: Db)
    requires WorldInv(w) && Served(w.db, after)
    ensures WorldInv(w.(db := after))
  {
    var v := w.(db := after);
    forall i ensures IntentTrue(v, i) {
      assert IntentTrue(w, i) && IntentServed(w.db, after, i);
      assert Unsent(w, i) == Unsent(v, i);
      if i in after.intents && after.intents[i].state == Accepted {
        assert DeliveredAs(w, i, after.intents[i].external.value);
      }
    }
    forall j: nat, k: nat ensures SentOnce(v, j, k) { assert SentOnce(w, j, k); }
    forall x ensures WorkerTrue(v, x) {
      assert WorkerTrue(w, x);
      if !WorkerAt(w, x).Idle? { assert IntentServed(w.db, after, WorkerAt(w, x).intent); }
      match WorkerAt(w, x)
      case Claimed(i, token) => assert Unsent(v, i);
      case OnAir(i, token, k) => assert OnlyWire(v, i, k);
      case Committing(i, token, k, external, attempt) => assert OnlyWire(v, i, k);
      case _ =>
    }
    forall x, y ensures HoldersApart(v, x, y) { assert HoldersApart(w, x, y); }
  }

  ghost predicate DbInv(db: Db) {
    && (forall i, j {:trigger LiveIsLast(db, i, j)} :: LiveIsLast(db, i, j))
    && (forall i, j {:trigger GenerationsDiffer(db, i, j)} :: GenerationsDiffer(db, i, j))
    && (forall i {:trigger db.intents[i]} :: i in db.intents && db.intents[i].external.Some? ==> db.intents[i].state == Accepted)
  }

  lemma {:induction false} BlockRow(db: Db, key: Key, intent: Option<IntentId>, code: string, snapshot: Option<Snapshot>, i: IntentId)
    ensures IntentServed(db, Block(db, key, intent, code, snapshot), i)
    ensures Block(db, key, intent, code, snapshot).intents.Keys == db.intents.Keys
  {}

  lemma {:induction false} BlockServed(db: Db, key: Key, intent: Option<IntentId>, code: string, snapshot: Option<Snapshot>)
    requires DbInv(db)
    ensures Served(db, Block(db, key, intent, code, snapshot)) && DbInv(Block(db, key, intent, code, snapshot))
  {
    var after := Block(db, key, intent, code, snapshot);
    BlockRow(db, key, intent, code, snapshot, 0);
    forall i ensures IntentServed(db, after, i) { BlockRow(db, key, intent, code, snapshot, i); }
    forall i | i in db.intents ensures
      && after.intents[i].key == db.intents[i].key && after.intents[i].generation == db.intents[i].generation
      && (Live(after.intents[i].state) ==> Live(db.intents[i].state))
      && (after.intents[i].external.Some? ==> after.intents[i].state == Accepted)
    {
      assert IntentServed(db, after, i);
    }
    WritesKeep(db, after);
  }

  /** A new generation of a communication none of whose attempts is live. */
  lemma {:induction false} SuccessorServed(db: Db, key: Key, i: IntentId, now: Instant, current: Option<IntentId>, holds: map<Key, Hold>)
    requires DbInv(db) && i !in db.intents && !AnyLive(db, key)
    ensures var after := db.(intents := db.intents[i := NewIntent(key, NextGeneration(db, key, current), now)], holds := holds);
      Served(db, after) && DbInv(after)
  {
    var after := db.(intents := db.intents[i := NewIntent(key, NextGeneration(db, key, current), now)], holds := holds);
    forall x ensures x in db.intents && db.intents[x].key == key ==> db.intents[x].generation < after.intents[i].generation {
      if x in db.intents && db.intents[x].key == key {
        assert x in OfKey(db, key);
        assert LatestOf(db, key).Some?;
      }
    }
    forall x, y ensures GenerationsDiffer(after, x, y) && LiveIsLast(after, x, y) {
      assert GenerationsDiffer(db, x, y) && LiveIsLast(db, x, y);
    }
  }

  lemma {:induction false} PrepareServed(db: Db, key: Key, renew: bool, verdict: Verdict, i: IntentId, now: Instant)
    requires DbInv(db) && i !in db.intents
    ensures Served(db, Prepare(db, key, renew, verdict, i, now)) && DbInv(Prepare(db, key, renew, verdict, i, now))
  {
    var latest := LatestOf(db, key);
    if key in db.holds || (latest.Some? && !(renew && db.intents[latest.value].state == Failed && db.intents[latest.value].transmission == NotSent)) {
      SameServed(db);
    } else if !verdict.Allowed? {
      BlockServed(db, key, None, verdict.reason, None);
    } else {
      forall x ensures !(x in db.intents && db.intents[x].key == key && Live(db.intents[x].state)) {
        if x in db.intents && db.intents[x].key == key {
          assert x in OfKey(db, key);
          assert LiveIsLast(db, x, latest.value) && GenerationsDiffer(db, x, latest.value);
        }
      }
      SuccessorServed(db, key, i, now, None, db.holds);
    }
  }

  lemma {:induction false} SameServed(db: Db)
    requires DbInv(db)
    ensures Served(db, db)
  {}

  // ---- previews and confirmations ----------------------------------------------------------

  lemma {:induction false} ServedTwice(a: Db, b: Db, c: Db)
    requires Served(a, b) && Served(b, c)
    ensures Served(a, c)
  {
    forall i ensures IntentServed(a, c, i) { assert IntentServed(a, b, i) && IntentServed(b, c, i); }
  }

  lemma {:induction false} HoldsOnlyServed(db: Db, after: Db)
    requires DbInv(db) && after.intents == db.intents
    ensures Served(db, after) && DbInv(after)
  {
    forall i ensures IntentServed(db, after, i) {}
    forall i, j ensures LiveIsLast(after, i, j) && GenerationsDiffer(after, i, j) {
      assert LiveIsLast(db, i, j) && GenerationsDiffer(db, i, j);
    }
  }

  lemma {:induction false} AppliedServed(db: Db, items: seq<Evaluation>, ids: seq<IntentId>, env: map<Key, Verdict>,
                                         now: Instant, n: nat)
    requires DbInv(db) && n <= |items| && |ids| == |items| && FreshIds(db, ids)
    requires Applied(db, items, ids, env, now, n).Some?
    ensures var after := Applied(db, items, ids, env, now, n).value.0;
      && Served(db, after) && DbInv(after)
      && (forall m :: n <= m < |ids| ==> ids[m] !in after.intents)
      && after.reviews == db.reviews
  {
    if n == 0 {
      SameServed(db);
    } else {
      AppliedServed(db, items, ids, env, now, n - 1);
      var here := Applied(db, items, ids, env, now, n - 1).value.0;
      var after := Applied(db, items, ids, env, now, n).value.0;
      var item := items[n - 1];
      if item.action == Resume {
        var row := here.holds[item.key];
        SuccessorServed(here, item.key, ids[n - 1], now, row.currentIntent, after.holds);
      } else {
        HoldsOnlyServed(here, after);
      }
      ServedTwice(db, here, after);
    }
  }

  lemma {:induction false} ConfirmServed(db: Db, r: ReviewId, confirmKey: string, now: Instant, env: map<Key, Verdict>, ids: seq<IntentId>)
    requires DbInv(db) && FreshIds(db, ids) && (r in db.reviews ==> |ids| == |db.reviews[r].items|)
    requires Confirm(db, r, confirmKey, now, env, ids).Success?
    ensures Served(db, Confirm(db, r, confirmKey, now, env, ids).value.0) && DbInv(Confirm(db, r, confirmKey, now, env, ids).value.0)
  {
    var review := db.reviews[r];
    if review.confirmation.Some? {
      SameServed(db);
    } else {
      AppliedServed(db, review.items, ids, env, now, |review.items|);
      var applied := Applied(db, review.items, ids, env, now, |review.items|).value.0;
      HoldsOnlyServed(applied, Confirm(db, r, confirmKey, now, env, ids).value.0);
      ServedTwice(db, applied, Confirm(db, r, confirmKey, now, env, ids).value.0);
    }
  }

  /** Rows that keep their place and come no closer to being live. */
  lemma {:induction false} WritesKeep(db: Db, after: Db)
    requires DbInv(db) && after.intents.Keys == db.intents.Keys
    requires forall i :: i in db.intents ==> (
      && after.intents[i].key == db.intents[i].key && after.intents[i].generation == db.intents[i].generation
      && (Live(after.intents[i].state) ==> Live(db.intents[i].state))
      && (after.intents[i].external.Some? ==> after.intents[i].state == Accepted))
    ensures DbInv(after)
  {
    forall i, j ensures LiveIsLast(after, i, j) { assert LiveIsLast(db, i, j); }
    forall i, j ensures GenerationsDiffer(after, i, j) { assert GenerationsDiffer(db, i, j); }
  }

  lemma {:induction false} WorldDbInv(w: World)
    requires WorldInv(w)
    ensures DbInv(w.db)
  {
    forall i | i in w.db.intents && w.db.intents[i].external.Some? ensures w.db.intents[i].state == Accepted {
      assert IntentTrue(w, i);
    }
  }

  // ---- dispatch --------------------------------------------------------------------------

  /** The write of one intent keeps its key and generation and never revives it. */
  lemma {:induction false} WriteKeepsPairs(db: Db, i: IntentId, x: Intent)
    requires i in db.intents && x.key == db.intents[i].key && x.generation == db.intents[i].generation
    requires Live(x.state) ==> Live(db.intents[i].state)
    requires forall a, b {:trigger LiveIsLast(db, a, b)} :: LiveIsLast(db, a, b)
    requires forall a, b {:trigger GenerationsDiffer(db, a, b)} :: GenerationsDiffer(db, a, b)
    ensures var after := db.(intents := db.intents[i := x]);
      && (forall a, b {:trigger LiveIsLast(after, a, b)} :: LiveIsLast(after, a, b))
      && (forall a, b {:trigger GenerationsDiffer(after, a, b)} :: GenerationsDiffer(after, a, b))
  {
    var after := db.(intents := db.intents[i := x]);
    forall a, b ensures LiveIsLast(after, a, b) && GenerationsDiffer(after, a, b) {
      assert LiveIsLast(db, a, b) && GenerationsDiffer(db, a, b);
    }
  }

  /** A worker that holds nothing steps aside; the rows stay. */
  lemma {:induction false} MoveWorkerKeeps(w: World, x: WorkerId, to: Worker)
    requires WorldInv(w) && (to.Idle? || to.Read?) && (to.Read? ==> to.intent in w.db.intents)
    ensures WorldInv(w.(workers := w.workers[x := to]))
  {
    var v := w.(workers := w.workers[x := to]);
    forall i ensures IntentTrue(v, i) { SameWires(w, v, i); }
    forall j: nat, k: nat ensures SentOnce(v, j, k) { assert SentOnce(w, j, k); }
    forall y ensures WorkerTrue(v, y) { assert WorkerTrue(w, y); if y != x { SameWorker(w, v, y); } }
    forall y, z ensures HoldersApart(v, y, z) { assert HoldersApart(w, y, z); }
  }

  lemma {:induction false} SameWires(w: World, v: World, i: IntentId)
    requires w.wires == v.wires && w.db == v.db && IntentTrue(w, i)
    ensures IntentTrue(v, i)
  {
    assert Unsent(w, i) == Unsent(v, i);
    if i in w.db.intents && w.db.intents[i].external.Some? {
      assert DeliveredAs(w, i, w.db.intents[i].external.value) == DeliveredAs(v, i, w.db.intents[i].external.value);
    }
  }

  lemma {:induction false} SameWorker(w: World, v: World, y: WorkerId)
    requires w.wires == v.wires && WorkerAt(w, y) == WorkerAt(v, y) && WorkerTrue(w, y)
    requires WorkerAt(w, y).Idle? || (WorkerAt(w, y).intent in w.db.intents && WorkerAt(w, y).intent in v.db.intents
      && (WorkerAt(w, y).Read? || v.db.intents[WorkerAt(w, y).intent] == w.db.intents[WorkerAt(w, y).intent]))
    ensures WorkerTrue(v, y)
  {
    match WorkerAt(w, y)
    case Claimed(i, token) => assert Unsent(v, i);
    case OnAir(i, token, k) => assert OnlyWire(v, i, k);
    case Committing(i, token, k, external, attempt) => assert OnlyWire(v, i, k);
    case _ =>
  }

  lemma {:induction false} ClaimKeeps(w: World, x: WorkerId, token: Token, now: Instant)
    requires WorldInv(w) && Enabled(w, ClaimIntent(x, token, now))
    ensures WorldInv(Next(w, ClaimIntent(x, token, now)))
  {
    var i := w.workers[x].intent;
    var claimed := Claim(w.db, i, token, now);
    if claimed.Some? {
      var v := Next(w, ClaimIntent(x, token, now));
      WriteKeepsPairs(w.db, i, v.db.intents[i]);
      assert IntentTrue(w, i);
      forall j ensures IntentTrue(v, j) { assert IntentTrue(w, j); OtherIntent(w, v, j); }
      forall j: nat, k: nat ensures SentOnce(v, j, k) { assert SentOnce(w, j, k); }
      assert Unsent(v, i);
      forall y ensures WorkerTrue(v, y) {
        assert WorkerTrue(w, y);
        if y != x { SameWorker(w, v, y); }
      }
      forall y, z ensures HoldersApart(v, y, z) {
        assert HoldersApart(w, y, z) && WorkerTrue(w, y) && WorkerTrue(w, z);
      }
    } else {
      MoveWorkerKeeps(w, x, Idle);
    }
  }

  /** Same wires: what an unchanged or a newly claimed intent promises carries over. */
  lemma {:induction false} OtherIntent(w: World, v: World, j: IntentId)
    requires w.wires == v.wires && IntentTrue(w, j) && (j in w.db.intents <==> j in v.db.intents)
    requires j in w.db.intents ==> (
      || v.db.intents[j] == w.db.intents[j]
      || (v.db.intents[j].state in {Sending, Uncertain} && v.db.intents[j].external == None))
    ensures IntentTrue(v, j)
  {
    assert Unsent(w, j) == Unsent(v, j);
    if j in w.db.intents && w.db.intents[j].external.Some? {
      assert DeliveredAs(w, j, w.db.intents[j].external.value) == DeliveredAs(v, j, w.db.intents[j].external.value);
    }
  }

  lemma {:induction false} StartKeeps(w: World, x: WorkerId)
    requires WorldInv(w) && Enabled(w, StartTransmit(x))
    ensures WorldInv(Next(w, StartTransmit(x)))
  {
    var v := Next(w, StartTransmit(x));
    var i := w.workers[x].intent;
    assert WorkerTrue(w, x) && IntentTrue(w, i);
    forall j ensures IntentTrue(v, j) { assert IntentTrue(w, j); LongerWires(w, v, j, i); }
    forall j: nat, k: nat ensures SentOnce(v, j, k) { assert SentOnce(w, j, k); }
    forall y ensures WorkerTrue(v, y) { StartKeepsWorker(w, x, y); }
    forall y, z ensures HoldersApart(v, y, z) { assert HoldersApart(w, y, z); }
  }

  lemma {:induction false} LongerWires(w: World, v: World, j: IntentId, i: IntentId)
    requires v.wires == w.wires + [Transmit(i, OnWire)] && v.db == w.db && IntentTrue(w, j)
    requires i in w.db.intents && MayHaveLeft(w.db.intents[i].state) && w.db.intents[i].external == None
    ensures IntentTrue(v, j)
  {
    if j != i {
      forall k | 0 <= k < |v.wires| && v.wires[k].intent == j ensures k < |w.wires| && v.wires[k] == w.wires[k] {}
      assert Unsent(w, j) ==> Unsent(v, j);
    }
    if j in w.db.intents && w.db.intents[j].external.Some? {
      var k :| 0 <= k < |w.wires| && w.wires[k] == Transmit(j, Reached(w.db.intents[j].external.value));
      assert v.wires[k] == w.wires[k];
      assert DeliveredAs(v, j, w.db.intents[j].external.value);
    }
  }

  lemma {:induction false} StartKeepsWorker(w: World, x: WorkerId, y: WorkerId)
    requires WorldInv(w) && Enabled(w, StartTransmit(x))
    ensures WorkerTrue(Next(w, StartTransmit(x)), y)
  {
    var v := Next(w, StartTransmit(x));
    var i := w.workers[x].intent;
    assert WorkerTrue(w, x) && WorkerTrue(w, y) && HoldersApart(w, x, y);
    if y == x {
      assert OnlyWire(v, i, |w.wires|);
    } else {
      match WorkerAt(w, y)
      case Claimed(j, token) => assert Unsent(v, j);
      case OnAir(j, token, k) => assert OnlyWire(v, j, k);
      case Committing(j, token, k, external, attempt) => assert OnlyWire(v, j, k);
      case _ =>
    }
  }

  /** The provider decides about one transmission. */
  lemma {:induction false} FateKeeps(w: World, k: nat, fate: Fate)
    requires WorldInv(w) && k < |w.wires| && w.wires[k].fate == OnWire && fate != OnWire
    ensures WorldInv(w.(wires := w.wires[k := w.wires[k].(fate := fate)]))
  {
    var v := w.(wires := w.wires[k := w.wires[k].(fate := fate)]);
    var i := w.wires[k].intent;
    forall j ensures IntentTrue(v, j) { assert IntentTrue(w, j); FateKeepsIntent(w, k, fate, j); }
    forall j: nat, s: nat ensures SentOnce(v, j, s) { assert SentOnce(w, j, s); }
    forall y ensures WorkerTrue(v, y) {
      assert WorkerTrue(w, y);
      match WorkerAt(w, y)
      case Claimed(j, token) =>
        assert j != i by { assert w.wires[k].fate == OnWire; }
        assert Unsent(v, j);
      case OnAir(j, token, s) => assert OnlyWire(v, j, s);
      case Committing(j, token, s, external, attempt) => assert OnlyWire(v, j, s);
      case _ =>
    }
    forall y, z ensures HoldersApart(v, y, z) { assert HoldersApart(w, y, z); }
  }

  lemma {:induction false} FateKeepsIntent(w: World, k: nat, fate: Fate, j: IntentId)
    requires k < |w.wires| && w.wires[k].fate == OnWire && IntentTrue(w, j)
    ensures IntentTrue(w.(wires := w.wires[k := w.wires[k].(fate := fate)]), j)
  {
    var v := w.(wires := w.wires[k := w.wires[k].(fate := fate)]);
    if w.wires[k].intent != j {
      assert Unsent(w, j) ==> Unsent(v, j);
    } else {
      assert !Unsent(w, j) by { assert w.wires[k].fate == OnWire; }
    }
    if j in w.db.intents && w.db.intents[j].external.Some? {
      var s :| 0 <= s < |w.wires| && w.wires[s] == Transmit(j, Reached(w.db.intents[j].external.value));
      assert v.wires[s] == w.wires[s];
      assert DeliveredAs(v, j, w.db.intents[j].external.value);
    }
  }

  lemma {:induction false} ReturnKeeps(w: World, x: WorkerId)
    requires WorldInv(w) && Enabled(w, TransmitReturns(x))
    ensures WorldInv(Next(w, TransmitReturns(x)))
  {
    assert WorkerTrue(w, x);
    StepOnKeeps(w, x, Next(w, TransmitReturns(x)).workers[x]);
  }

  /** The holder of an intent moves on with the same intent and transmission. */
  lemma {:induction false} StepOnKeeps(w: World, x: WorkerId, to: Worker)
    requires WorldInv(w) && to.Committing? && (WorkerAt(w, x).OnAir? || WorkerAt(w, x).Committing?)
    requires to.intent == WorkerAt(w, x).intent && to.token == WorkerAt(w, x).token && to.wire == WorkerAt(w, x).wire
    requires to.wire < |w.wires| && w.wires[to.wire] == Transmit(to.intent, Reached(to.external))
    ensures WorldInv(w.(workers := w.workers[x := to]))
  {
    var v := w.(workers := w.workers[x := to]);
    assert WorkerTrue(w, x);
    forall i ensures IntentTrue(v, i) { assert IntentTrue(w, i); SameWires(w, v, i); }
    forall j: nat, k: nat ensures SentOnce(v, j, k) { assert SentOnce(w, j, k); }
    forall y ensures WorkerTrue(v, y) {
      assert WorkerTrue(w, y);
      if y != x { SameWorker(w, v, y); } else { assert OnlyWire(v, to.intent, to.wire); }
    }
    forall y, z ensures HoldersApart(v, y, z) { assert HoldersApart(w, y, z); }
  }

  /** The holder lets go; a denial is only recorded of an intent whose transmissions all failed. */
  lemma {:induction false} FailKeeps(w: World, x: WorkerId, error: TransportError, transmitting: bool, wait: nat, now: Instant)
    requires WorldInv(w) && Holding(w, x).Some?
    requires EndingOf(error, transmitting) != EndUncertain ==> Unsent(w, Holding(w, x).value)
    ensures WorldInv(Fail(w, x, error, transmitting, wait, now))
  {
    var v := Fail(w, x, error, transmitting, wait, now);
    var i := w.workers[x].intent;
    assert WorkerTrue(w, x) && IntentTrue(w, i);
    WriteKeepsPairs(w.db, i, v.db.intents[i]);
    assert v.db.intents == w.db.intents[i := v.db.intents[i]];
    forall j ensures IntentTrue(v, j) {
      assert IntentTrue(w, j);
      assert Unsent(w, j) == Unsent(v, j);
      if j in w.db.intents && w.db.intents[j].external.Some? {
        assert DeliveredAs(w, j, w.db.intents[j].external.value) == DeliveredAs(v, j, w.db.intents[j].external.value);
      }
    }
    forall j: nat, k: nat ensures SentOnce(v, j, k) { assert SentOnce(w, j, k); }
    forall y ensures WorkerTrue(v, y) {
      assert WorkerTrue(w, y) && HoldersApart(w, x, y);
      if y != x { SameWorker(w, v, y); }
    }
    forall y, z ensures HoldersApart(v, y, z) { assert HoldersApart(w, y, z); }
  }

  lemma {:induction false} ThrowsKeeps(w: World, x: WorkerId, error: TransportError, wait: nat, now: Instant)
    requires WorldInv(w) && Enabled(w, TransmitThrows(x, error, wait, now))
    ensures WorldInv(Next(w, TransmitThrows(x, error, wait, now)))
  {
    assert WorkerTrue(w, x);
    FailKeeps(w, x, error, true, wait, now);
  }

  /** The acceptance of a worker that got the provider's answer applies, or was applied before. */
  lemma {:induction false} CommittedKeeps(w: World, x: WorkerId)
    requires WorldInv(w) && WorkerAt(w, x).Committing?
    ensures WorldInv(Committed(w, x))
    ensures WorkerAt(w, x).intent in Committed(w, x).db.intents
      && AcceptedAs(Committed(w, x).db.intents[WorkerAt(w, x).intent], WorkerAt(w, x).external)
  {
    var v := Committed(w, x);
    var me := w.workers[x];
    assert WorkerTrue(w, x) && IntentTrue(w, me.intent);
    if v != w {
      WriteKeepsPairs(w.db, me.intent, v.db.intents[me.intent]);
      forall j ensures IntentTrue(v, j) {
        assert IntentTrue(w, j);
        if j != me.intent { OtherIntent(w, v, j); } else { assert w.wires[me.wire] == v.wires[me.wire]; }
      }
      forall j: nat, k: nat ensures SentOnce(v, j, k) { assert SentOnce(w, j, k); }
      forall y ensures WorkerTrue(v, y) {
        assert WorkerTrue(w, y) && HoldersApart(w, x, y);
        if y != x { SameWorker(w, v, y); } else { assert OnlyWire(v, me.intent, me.wire); }
      }
      forall y, z ensures HoldersApart(v, y, z) { assert HoldersApart(w, y, z); }
    }
  }

  lemma {:induction false} TryCommitKeeps(w: World, x: WorkerId, wait: nat, now: Instant)
    requires WorldInv(w) && Enabled(w, TryCommit(x, wait, now))
    ensures WorldInv(Next(w, TryCommit(x, wait, now)))
  {
    CommittedKeeps(w, x);
    var seen := Committed(w, x);
    if seen.db == w.db {
      FailKeeps(w, x, UnknownError, true, wait, now);
      assert WorkerTrue(w, x);
    } else {
      MoveWorkerKeeps(seen, x, Idle);
    }
  }

  lemma {:induction false} CommitFailsKeeps(w: World, x: WorkerId, applied: bool, wait: nat, now: Instant)
    requires WorldInv(w) && Enabled(w, CommitFails(x, applied, wait, now))
    ensures WorldInv(Next(w, CommitFails(x, applied, wait, now)))
  {
    var me := w.workers[x];
    var seen := if applied then Committed(w, x) else w;
    CommittedKeeps(w, x);
    assert WorkerTrue(seen, x);
    if me.attempt >= MAX_COMMITS {
      FailKeeps(seen, x, UnknownError, true, wait, now);
    } else {
      StepOnKeeps(seen, x, me.(attempt := me.attempt + 1));
    }
  }

  lemma {:induction false} RecoverKeeps(w: World, page: set<IntentId>, now: Instant)
    requires WorldInv(w)
    ensures WorldInv(w.(db := Recover(w.db, page, now)))
  {
    var v := w.(db := Recover(w.db, page, now));
    forall j ensures IntentTrue(v, j) { assert IntentTrue(w, j); OtherIntent(w, v, j); }
    forall j: nat, k: nat ensures SentOnce(v, j, k) { assert SentOnce(w, j, k); }
    forall y ensures WorkerTrue(v, y) { assert WorkerTrue(w, y); RecoverKeepsWorker(w, page, now, y); }
    forall y, z ensures HoldersApart(v, y, z) { assert HoldersApart(w, y, z); }
    forall i, j ensures LiveIsLast(v.db, i, j) && GenerationsDiffer(v.db, i, j) {
      assert LiveIsLast(w.db, i, j) && GenerationsDiffer(w.db, i, j);
    }
  }

  lemma {:induction false} RecoverKeepsWorker(w: World, page: set<IntentId>, now: Instant, y: WorkerId)
    requires WorkerTrue(w, y)
    ensures WorkerTrue(w.(db := Recover(w.db, page, now)), y)
  {
    var v := w.(db := Recover(w.db, page, now));
    match WorkerAt(w, y)
    case Claimed(i, token) => assert Unsent(v, i);
    case OnAir(i, token, k) => assert OnlyWire(v, i, k);
    case Committing(i, token, k, external, attempt) => assert OnlyWire(v, i, k);
    case _ =>
  }
}
