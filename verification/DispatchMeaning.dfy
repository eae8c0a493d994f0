/**
 What every dispatch transaction does to its rows: when it applies, what it writes, what a
 confirmation may resume or close, and that nothing else changes.
 */
module DispatchMeaning {
  import opened Common
  import opened DispatchModel
  import opened DispatchWorld

  // ---- one intent ------------------------------------------------------------------------------

  predicate OnlyIntent(db: Db, after: Db, i: IntentId, x: Intent) { after == db.(intents := db.intents[i := x]) }

  /** A pending intent whose time came is claimed for a minute. */
  lemma {:induction false} ClaimMeans(db: Db, i: IntentId, token: Token, now: Instant)
    ensures var r := Claim(db, i, token, now);
      && (r.Some? <==> i in db.intents && db.intents[i].state == Pending && db.intents[i].nextAttempt <= now)
      && (r.Some? ==> OnlyIntent(db, r.value, i, db.intents[i].(
            state := Sending, lease := Some(token), leaseExpires := now + 60000, attempts := db.intents[i].attempts + 1)))
  {}

  /** Under this lease, or taken for lost while nobody else could claim it. */
  predicate StillProven(x: Intent, token: Token) {
    || (x.state == Sending && x.lease == Some(token))
    || (x.state == Uncertain && x.error == WorkerLost && x.external == None)
  }

  /** The acceptance is written by the holder of the lease, or after the claim was taken for lost. */
  lemma {:induction false} CommitMeans(db: Db, i: IntentId, token: Token, external: ExternalId)
    ensures var r := CommitAcceptance(db, i, token, external);
      && (r.Some? <==> i in db.intents && StillProven(db.intents[i], token))
      && (r.Some? ==> OnlyIntent(db, r.value, i, db.intents[i].(
            state := Accepted, transmission := WasAccepted, external := Some(external), lease := None, error := NoError)))
  {}

  /**
   Under the lease only. Once transmission began, an unknown error and an uncertain outcome leave the
   intent uncertain; else a rate limit, or a temporary error of a send that did not leave, puts it
   back, and anything else fails it as not sent.
   */
  lemma {:induction false} FailureMeans(db: Db, i: IntentId, token: Token, error: TransportError, transmitting: bool, wait: nat, now: Instant)
    ensures var after := RecordFailure(db, i, token, EndingOf(error, transmitting), wait, now);
      if i !in db.intents || db.intents[i].state != Sending || db.intents[i].lease != Some(token) then after == db
      else var freed := db.intents[i].(nextAttempt := now + wait, lease := None);
        if transmitting && (error == UnknownError || (exists kind :: error == Reported(kind, OutcomeUncertain)))
        then OnlyIntent(db, after, i, freed.(state := Uncertain, transmission := MaybeSent, error := DeliveryUncertain))
        else if (exists outcome :: error == Reported(RateLimit, outcome)) || error == Reported(Temporary, OutcomeNotSent)
        then OnlyIntent(db, after, i, freed.(state := Pending, transmission := NotSent, error := Waiting))
        else OnlyIntent(db, after, i, freed.(state := Failed, transmission := NotSent, error := Rejected))
  {}

  /** A claim of the page that ran out may have left; every other intent stays. */
  lemma {:induction false} RecoverMeans(db: Db, page: set<IntentId>, now: Instant, i: IntentId)
    ensures var after := Recover(db, page, now);
      && after == db.(intents := after.intents) && after.intents.Keys == db.intents.Keys
      && (i in db.intents ==>
           after.intents[i] == if i in page && db.intents[i].state == Sending && db.intents[i].leaseExpires < now
             then db.intents[i].(state := Uncertain, transmission := MaybeSent, error := WorkerLost, lease := None)
             else db.intents[i])
  {}

  // ---- holds -----------------------------------------------------------------------------------

  /** Nobody claimed it, or it is known not to have left. */
  predicate Stoppable(db: Db, intent: Option<IntentId>) {
    && intent.Some? && intent.value in db.intents
    && (db.intents[intent.value].state in {Pending, Blocked}
        || (db.intents[intent.value].state == Failed && db.intents[intent.value].transmission == NotSent))
  }

  /** An intent that can be stopped is, whatever the hold says. */
  lemma {:induction false} BlockStops(db: Db, key: Key, intent: Option<IntentId>, code: string, snapshot: Option<Snapshot>)
    ensures var after := Block(db, key, intent, code, snapshot);
      && after.reviews == db.reviews
      && (!Stoppable(db, intent) ==> after.intents == db.intents)
      && (Stoppable(db, intent) ==> after.intents == db.intents[intent.value :=
            db.intents[intent.value].(state := Blocked, error := Held(code), lease := None)])
  {}

  /** A first hold is made, a closed one stays, a repeated reason is counted and a new one takes the hold a version on. */
  lemma {:induction false} BlockHolds(db: Db, key: Key, intent: Option<IntentId>, code: string, snapshot: Option<Snapshot>)
    ensures var after := Block(db, key, intent, code, snapshot); var current := if Stoppable(db, intent) then intent else None;
      && (forall k :: k != key ==> (k in after.holds <==> k in db.holds) && (k in db.holds ==> after.holds[k] == db.holds[k]))
      && key in (if key in db.holds then db.holds else after.holds) && key in after.holds
      && (key !in db.holds ==> after.holds[key] == Hold(OnHold, code, snapshot, current, 1, 1))
      && (key in db.holds && db.holds[key].state == Closed ==> after.holds == db.holds)
      && (key in db.holds && db.holds[key].state != Closed ==>
           var was := db.holds[key];
           if was.state == OnHold && was.code == code && (current == None || was.currentIntent == current)
           then after.holds[key] == was.(occurrences := was.occurrences + 1)
           else after.holds[key] == Hold(OnHold, code, snapshot, if current.Some? then current else was.currentIntent,
                                         was.version + 1, was.occurrences + 1))
  {}

  // ---- reservations ------------------------------------------------------------------------------

  /** One past the highest generation of the key. */
  lemma {:induction false} GenerationMeans(db: Db, key: Key, current: Option<IntentId>)
    ensures var next := NextGeneration(db, key, current);
      && (forall j :: j in db.intents && db.intents[j].key == key ==> db.intents[j].generation < next)
      && ((exists j :: j in db.intents && db.intents[j].key == key) ==>
           exists j :: j in db.intents && db.intents[j].key == key && db.intents[j].generation + 1 == next)
      && ((forall j :: j in db.intents ==> db.intents[j].key != key) ==> next == if current.Some? then 1 else 0)
  {
    forall j | j in db.intents && db.intents[j].key == key ensures j in OfKey(db, key) {}
  }

  predicate LastOfKey(db: Db, key: Key, i: IntentId) {
    i in db.intents && db.intents[i].key == key
    && forall j :: j in db.intents && db.intents[j].key == key ==> db.intents[j].generation <= db.intents[i].generation
  }

  /** A new intent, due at once and never sent. */
  predicate Fresh(x: Intent, key: Key, now: Instant) {
    x.key == key && x.state == Pending && x.lease == None && x.leaseExpires == 0 && x.nextAttempt == now && x.attempts == 0
    && x.transmission == NotSent && x.error == NoError && x.external == None
  }

  /** A key is reserved once; only a failure that never left may be renewed, and a send not allowed is held instead. */
  lemma {:induction false} PrepareMeans(db: Db, key: Key, renew: bool, verdict: Verdict, i: IntentId, now: Instant)
    requires i !in db.intents && forall a, b {:trigger GenerationsDiffer(db, a, b)} :: GenerationsDiffer(db, a, b)
    ensures var after := Prepare(db, key, renew, verdict, i, now);
      var open := key !in db.holds && (forall l :: LastOfKey(db, key, l) ==>
        renew && db.intents[l].state == Failed && db.intents[l].transmission == NotSent);
      && (!open ==> after == db)
      && (open && verdict.Allowed? ==>
           && i in after.intents && after == db.(intents := db.intents[i := after.intents[i]]) && Fresh(after.intents[i], key, now)
           && forall j :: j in db.intents && db.intents[j].key == key ==> db.intents[j].generation < after.intents[i].generation)
      && (open && !verdict.Allowed? ==>
           after == db.(holds := db.holds[key := Hold(OnHold, verdict.reason, None, None, 1, 1)]))
  {
    GenerationMeans(db, key, None);
    var latest := LatestOf(db, key);
    forall l | LastOfKey(db, key, l) ensures latest == Some(l) {
      assert l in OfKey(db, key);
      assert GenerationsDiffer(db, l, latest.value);
    }
    if latest.Some? { assert LastOfKey(db, key, latest.value); }
  }

  // ---- evaluations ---------------------------------------------------------------------------------

  predicate AcceptedOf(db: Db, key: Key) { exists i :: i in db.intents && db.intents[i].key == key && db.intents[i].state == Accepted }

  predicate MayStillArrive(db: Db, key: Key) {
    exists i :: i in db.intents && db.intents[i].key == key && db.intents[i].state in {Pending, Sending, Accepted, Uncertain}
  }

  /** On hold, with nothing sent, on its way or in doubt. */
  predicate Free(db: Db, key: Key) { key in db.holds && db.holds[key].state == OnHold && !MayStillArrive(db, key) }

  /** Only a free hold follows the verdict: allowed it resumes, obsolete it closes; one accepted already closes, and any other waits. */
  lemma {:induction false} EvaluateMeans(db: Db, key: Key, verdict: Verdict)
    requires key in db.holds
    ensures var e := Evaluate(db, key, verdict); var held := db.holds[key].state == OnHold;
      && e.key == key && e.version == db.holds[key].version
      && (e.action == Resume <==> Free(db, key) && verdict.Allowed?)
      && (e.action == Finish <==> held && (AcceptedOf(db, key) || (Free(db, key) && verdict.Obsolete?)))
      && (e.action == Resume ==> e.snapshot == Some(verdict.snapshot))
      && (e.action != Resume ==> e.snapshot == None)
      && (Free(db, key) && !verdict.Allowed? ==> e.reason == verdict.reason)
      && (held && AcceptedOf(db, key) ==> e.reason == "ALREADY_SENT")
      && (held && !AcceptedOf(db, key) && MayStillArrive(db, key) ==> e.reason == "TRANSMISSION_UNKNOWN")
  {
    assert AnyAccepted(db, key) <==> AcceptedOf(db, key);
    assert AnyLive(db, key) <==> MayStillArrive(db, key);
    if AcceptedOf(db, key) { var i :| i in db.intents && db.intents[i].key == key && db.intents[i].state == Accepted; assert MayStillArrive(db, key); }
  }

  /** One to fifty different holds that exist; each stored as it is evaluated. */
  lemma {:induction false} PreviewMeans(db: Db, r: ReviewId, keys: seq<Key>, env: map<Key, Verdict>, expires: Instant)
    ensures var p := Preview(db, r, keys, env, expires);
      && (p.Some? <==> 1 <= |keys| <= 50 && (forall j, k :: 0 <= j < k < |keys| ==> keys[j] != keys[k]) && (forall k :: k in keys ==> k in db.holds))
      && (p.Some? ==>
           && r in p.value.reviews && p.value == db.(reviews := db.reviews[r := p.value.reviews[r]])
           && p.value.reviews[r].expires == expires && p.value.reviews[r].confirmation == None
           && |p.value.reviews[r].items| == |keys|
           && forall n :: 0 <= n < |keys| ==>
                p.value.reviews[r].items[n] == Evaluate(db, keys[n], if keys[n] in env then env[keys[n]] else Refused("VALUE_MISSING")))
  {}

  // ---- confirmations ----------------------------------------------------------------------------------

  /** An item that resumes or closes, among the first n. */
  predicate Acted(items: seq<Evaluation>, n: nat, key: Key)
    requires n <= |items|
  {
    exists m :: 0 <= m < n && items[m].key == key && items[m].action != KeepBlocked
  }

  /** The rows of a key. */
  predicate SameOfKey(db: Db, after: Db, key: Key) {
    && (key in after.holds <==> key in db.holds) && (key in db.holds ==> after.holds[key] == db.holds[key])
    && (forall i :: i in db.intents && db.intents[i].key == key ==> i in after.intents && after.intents[i] == db.intents[i])
    && (forall i :: i in after.intents && after.intents[i].key == key ==> i in db.intents && db.intents[i] == after.intents[i])
  }

  predicate ActedOnce(db: Db, here: Db, items: seq<Evaluation>, n: nat, key: Key)
    requires n <= |items|
  {
    && (!Acted(items, n, key) ==> SameOfKey(db, here, key))
    && (Acted(items, n, key) ==> key in here.holds && here.holds[key].state in {Resumed, Closed})
  }

  lemma {:induction false} StepActs(db: Db, items: seq<Evaluation>, ids: seq<IntentId>, env: map<Key, Verdict>, now: Instant, n: nat, key: Key)
    requires n < |items| && |ids| == |items| && FreshIds(db, ids) && Applied(db, items, ids, env, now, n + 1).Some?
    requires var here := Applied(db, items, ids, env, now, n).value.0; ids[n] !in here.intents && ActedOnce(db, here, items, n, key)
    ensures ActedOnce(db, Applied(db, items, ids, env, now, n + 1).value.0, items, n + 1, key)
  {
    var here := Applied(db, items, ids, env, now, n).value.0;
    var after := Applied(db, items, ids, env, now, n + 1).value.0;
    if items[n].key == key && items[n].action != KeepBlocked {
      assert Acted(items, n + 1, key);
    } else {
      assert Acted(items, n + 1, key) <==> Acted(items, n, key) by {
        if Acted(items, n + 1, key) { var m :| 0 <= m < n + 1 && items[m].key == key && items[m].action != KeepBlocked; assert m < n; }
      }
      assert SameOfKey(here, after, key);
    }
  }

  lemma {:induction false} KeysOnce(db: Db, items: seq<Evaluation>, ids: seq<IntentId>, env: map<Key, Verdict>, now: Instant, n: nat, key: Key)
    requires n <= |items| && |ids| == |items| && FreshIds(db, ids) && Applied(db, items, ids, env, now, n).Some?
    ensures ActedOnce(db, Applied(db, items, ids, env, now, n).value.0, items, n, key)
    ensures forall m :: n <= m < |ids| ==> ids[m] !in Applied(db, items, ids, env, now, n).value.0.intents
  {
    if n > 0 {
      KeysOnce(db, items, ids, env, now, n - 1, key);
      StepActs(db, items, ids, env, now, n - 1, key);
    }
  }

  /** What the environment says of a key when it is confirmed; silence refuses. */
  function SaidOf(env: map<Key, Verdict>, key: Key): Verdict { if key in env then env[key] else Refused("VALUE_MISSING") }

  /** What item m of a review did. */
  predicate ItemActs(db: Db, after: Db, items: seq<Evaluation>, ids: seq<IntentId>, env: map<Key, Verdict>, now: Instant, m: nat)
    requires m < |items| == |ids|
  {
    var key := items[m].key;
    && (items[m].action == Resume ==>
         && Free(db, key) && SaidOf(env, key).Allowed?
         && ids[m] in after.intents && Fresh(after.intents[ids[m]], key, now)
         && key in after.holds && after.holds[key] == db.holds[key].(
              state := Resumed, currentIntent := Some(ids[m]), version := db.holds[key].version + 1))
    && (items[m].action == Finish ==>
         && key in db.holds && db.holds[key].state == OnHold && (AcceptedOf(db, key) || (Free(db, key) && SaidOf(env, key).Obsolete?))
         && key in after.holds && after.holds[key] == db.holds[key].(state := Closed, version := db.holds[key].version + 1))
  }

  /** The intents there were, and one for each item that resumed. */
  predicate OnlySuccessors(db: Db, after: Db, items: seq<Evaluation>, ids: seq<IntentId>, n: nat)
    requires n <= |items| == |ids|
  {
    && (forall i :: i in db.intents ==> i in after.intents && after.intents[i] == db.intents[i])
    && (forall i :: i in after.intents && i !in db.intents ==> exists m :: 0 <= m < n && ids[m] == i && items[m].action == Resume)
  }

  ghost predicate Told(result: ResumeResult, items: seq<Evaluation>, ids: seq<IntentId>, n: nat)
    requires n <= |items| == |ids|
  {
    && (forall i :: i in result.intents <==> exists m :: 0 <= m < n && ids[m] == i && items[m].action == Resume)
    && (forall k :: k in result.closed <==> exists m :: 0 <= m < n && items[m].key == k && items[m].action == Finish)
  }

  lemma {:induction false} AppliesOnHold(db: Db, items: seq<Evaluation>, ids: seq<IntentId>, env: map<Key, Verdict>, now: Instant, n: nat)
    requires n < |items| && |ids| == |items| && FreshIds(db, ids) && Applied(db, items, ids, env, now, n + 1).Some?
    requires items[n].action != KeepBlocked
    ensures var here, key := Applied(db, items, ids, env, now, n).value.0, items[n].key;
      && !Acted(items, n, key) && SameOfKey(db, here, key) && key in db.holds && db.holds[key].state == OnHold
      && (items[n].action == Resume ==> Free(db, key) && SaidOf(env, key).Allowed?)
      && (items[n].action == Finish ==> AcceptedOf(db, key) || (Free(db, key) && SaidOf(env, key).Obsolete?))
  {
    var here, key := Applied(db, items, ids, env, now, n).value.0, items[n].key;
    KeysOnce(db, items, ids, env, now, n, key);
    EvaluateMeans(here, key, SaidOf(env, key));
    SameFree(db, here, key);
  }

  lemma {:induction false} SameFree(db: Db, here: Db, key: Key)
    ensures SameOfKey(db, here, key) ==> (Free(here, key) <==> Free(db, key)) && (AcceptedOf(here, key) <==> AcceptedOf(db, key))
  {
    if SameOfKey(db, here, key) {
      if MayStillArrive(db, key) {
        var i :| i in db.intents && db.intents[i].key == key && db.intents[i].state in {Pending, Sending, Accepted, Uncertain};
        assert here.intents[i] == db.intents[i];
      }
      if MayStillArrive(here, key) {
        var i :| i in here.intents && here.intents[i].key == key && here.intents[i].state in {Pending, Sending, Accepted, Uncertain};
        assert here.intents[i] == db.intents[i];
      }
      if AcceptedOf(db, key) {
        var i :| i in db.intents && db.intents[i].key == key && db.intents[i].state == Accepted;
        assert here.intents[i] == db.intents[i];
      }
      if AcceptedOf(here, key) {
        var i :| i in here.intents && here.intents[i].key == key && here.intents[i].state == Accepted;
        assert here.intents[i] == db.intents[i];
      }
    }
  }

  /** A later item leaves what an earlier one did. */
  lemma {:induction false} ActsStay(db: Db, items: seq<Evaluation>, ids: seq<IntentId>, env: map<Key, Verdict>, now: Instant, n: nat, m: nat)
    requires m < n < |items| && |ids| == |items| && FreshIds(db, ids) && Applied(db, items, ids, env, now, n + 1).Some?
    requires ItemActs(db, Applied(db, items, ids, env, now, n).value.0, items, ids, env, now, m)
    ensures ItemActs(db, Applied(db, items, ids, env, now, n + 1).value.0, items, ids, env, now, m)
  {
    if items[n].action != KeepBlocked {
      AppliesOnHold(db, items, ids, env, now, n);
      assert items[m].action != KeepBlocked ==> items[m].key != items[n].key;
    }
  }

  lemma {:induction false} AppliedActs(db: Db, items: seq<Evaluation>, ids: seq<IntentId>, env: map<Key, Verdict>, now: Instant, n: nat)
    requires n <= |items| && |ids| == |items| && FreshIds(db, ids) && Applied(db, items, ids, env, now, n).Some?
    ensures var (after, result) := Applied(db, items, ids, env, now, n).value;
      && (forall m :: 0 <= m < n ==> ItemActs(db, after, items, ids, env, now, m))
      && OnlySuccessors(db, after, items, ids, n) && Told(result, items, ids, n) && after.reviews == db.reviews
  {
    if n > 0 {
      AppliedActs(db, items, ids, env, now, n - 1);
      KeysOnce(db, items, ids, env, now, n - 1, items[n - 1].key);
      forall m | 0 <= m < n - 1 ensures ItemActs(db, Applied(db, items, ids, env, now, n).value.0, items, ids, env, now, m) {
        ActsStay(db, items, ids, env, now, n - 1, m);
      }
      if items[n - 1].action != KeepBlocked { AppliesOnHold(db, items, ids, env, now, n - 1); }
      LastTold(db, items, ids, env, now, n - 1);
    }
  }

  lemma {:induction false} LastTold(db: Db, items: seq<Evaluation>, ids: seq<IntentId>, env: map<Key, Verdict>, now: Instant, n: nat)
    requires n < |items| && |ids| == |items| && Applied(db, items, ids, env, now, n + 1).Some?
    requires Told(Applied(db, items, ids, env, now, n).value.1, items, ids, n)
    ensures Told(Applied(db, items, ids, env, now, n + 1).value.1, items, ids, n + 1)
  {}

  /**
   A first confirmation: every intent it makes is of a free hold whose send is allowed now, every hold
   it closes was sent or is obsolete, and the rows of every other key stay.
   */
  lemma {:induction false} ConfirmMeans(db: Db, r: ReviewId, confirmKey: string, now: Instant, env: map<Key, Verdict>, ids: seq<IntentId>, key: Key)
    requires FreshIds(db, ids) && (r in db.reviews ==> |ids| == |db.reviews[r].items|)
    requires Confirm(db, r, confirmKey, now, env, ids).Success? && db.reviews[r].confirmation == None
    ensures var (after, result) := Confirm(db, r, confirmKey, now, env, ids).value; var items := db.reviews[r].items;
      && (forall m :: 0 <= m < |items| ==> ItemActs(db, after, items, ids, env, now, m))
      && OnlySuccessors(db, after, items, ids, |items|) && Told(result, items, ids, |items|)
      && (!Acted(items, |items|, key) ==> SameOfKey(db, after, key))
      && (SaidOf(env, key).Refused? && !AcceptedOf(db, key) ==> SameOfKey(db, after, key))
      && after.reviews == db.reviews[r := db.reviews[r].(confirmation := Some((confirmKey, result)))]
  {
    var items := db.reviews[r].items;
    AppliedActs(db, items, ids, env, now, |items|);
    KeysOnce(db, items, ids, env, now, |items|, key);
    var applied := Applied(db, items, ids, env, now, |items|).value.0;
    forall m | 0 <= m < |items| ensures ItemActs(db, Confirm(db, r, confirmKey, now, env, ids).value.0, items, ids, env, now, m) {
      assert ItemActs(db, applied, items, ids, env, now, m);
    }
    if Acted(items, |items|, key) {
      var m :| 0 <= m < |items| && items[m].key == key && items[m].action != KeepBlocked;
      assert ItemActs(db, applied, items, ids, env, now, m);
    }
  }

  /** Whether a confirmation is answered, and why not: found, not confirmed by another key, key unused, not expired, nothing changed. */
  lemma {:induction false} ConfirmRefuses(db: Db, r: ReviewId, confirmKey: string, now: Instant, env: map<Key, Verdict>, ids: seq<IntentId>)
    requires r in db.reviews ==> |ids| == |db.reviews[r].items|
    ensures var c := Confirm(db, r, confirmKey, now, env, ids);
      if r !in db.reviews then c == Failure(ReviewNotFound)
      else if db.reviews[r].confirmation.Some? then
        c == (if db.reviews[r].confirmation.value.0 == confirmKey then Success((db, db.reviews[r].confirmation.value.1)) else Failure(AlreadyConfirmed))
      else if exists q :: q in db.reviews && db.reviews[q].confirmation.Some? && db.reviews[q].confirmation.value.0 == confirmKey then c == Failure(KeyReused)
      else if db.reviews[r].expires <= now then c == Failure(ReviewExpired)
      else c.Failure? ==> c.error == VersionChanged
  {}

  /** A review whose every hold is still evaluated as stored is confirmed. */
  lemma {:induction false} UnchangedConfirms(db: Db, items: seq<Evaluation>, ids: seq<IntentId>, env: map<Key, Verdict>, now: Instant, n: nat)
    requires n <= |items| && |ids| == |items| && FreshIds(db, ids)
    requires forall j, k :: 0 <= j < k < |items| ==> items[j].key != items[k].key
    requires forall m :: 0 <= m < |items| ==> items[m].key in db.holds && Evaluate(db, items[m].key, SaidOf(env, items[m].key)) == items[m]
    ensures Applied(db, items, ids, env, now, n).Some?
  {
    if n > 0 {
      UnchangedConfirms(db, items, ids, env, now, n - 1);
      var here, item := Applied(db, items, ids, env, now, n - 1).value.0, items[n - 1];
      KeysOnce(db, items, ids, env, now, n - 1, item.key);
      assert !Acted(items, n - 1, item.key);
      SameEvaluation(db, here, item.key, SaidOf(env, item.key));
    }
  }

  lemma {:induction false} SameEvaluation(db: Db, here: Db, key: Key, verdict: Verdict)
    requires key in db.holds && SameOfKey(db, here, key)
    ensures Evaluate(here, key, verdict) == Evaluate(db, key, verdict)
  {
    SameFree(db, here, key);
    assert AnyAccepted(db, key) <==> AcceptedOf(db, key);
    assert AnyAccepted(here, key) <==> AcceptedOf(here, key);
    assert AnyLive(db, key) <==> MayStillArrive(db, key);
    assert AnyLive(here, key) <==> MayStillArrive(here, key);
  }
}
