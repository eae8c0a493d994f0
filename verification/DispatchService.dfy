/**
 The dispatch services as they run: rows updated in place, one transaction a method, refused
 transactions leaving the rows as they were. DispatchTheorems proves what these rows satisfy.
 */
module DispatchService {
  import opened Common
  import opened DispatchModel
  import opened DispatchWorld
  import opened DispatchMeaning

  class DispatchStore {
    var intents: map<IntentId, Intent>
    var holds: map<Key, Hold>
    var reviews: map<ReviewId, Review>

    constructor ()
      ensures Valid() && Rows() == Db(map[], map[], map[])
    {
      intents, holds, reviews := map[], map[], map[];
    }

    function Rows(): Db
      reads this
    {
      Db(intents, holds, reviews)
    }

    /** The unique key over logical key and generation. */
    ghost predicate Valid()
      reads this
    {
      forall i, j {:trigger GenerationsDiffer(Rows(), i, j)} :: GenerationsDiffer(Rows(), i, j)
    }

    // ---- dispatch ------------------------------------------------------------------------

    method ClaimIntent(i: IntentId, token: Token, now: Instant) returns (claimed: bool)
      requires Valid()
      modifies this`intents
      ensures Valid()
      ensures claimed <==> Claim(old(Rows()), i, token, now).Some?
      ensures Rows() == if claimed then Claim(old(Rows()), i, token, now).value else old(Rows())
      ensures DbInv(old(Rows())) ==> DbInv(Rows())
    {
      if DbInv(Rows()) && Claim(Rows(), i, token, now).Some? { WritesKeep(Rows(), Claim(Rows(), i, token, now).value); }
      if i !in intents || intents[i].state != Pending || now < intents[i].nextAttempt { return false; }
      assert forall x, y {:trigger GenerationsDiffer(Rows(), x, y)} :: GenerationsDiffer(Rows(), x, y);
      ghost var was := Rows();
      intents := intents[i := intents[i].(
        state := Sending, lease := Some(token), leaseExpires := now + LEASE_MS, attempts := intents[i].attempts + 1)];
      GenerationsKept(was, Rows());
      return true;
    }

    method CommitOnce(i: IntentId, token: Token, external: ExternalId) returns (updated: bool)
      requires Valid()
      modifies this`intents
      ensures Valid()
      ensures updated <==> CommitAcceptance(old(Rows()), i, token, external).Some?
      ensures Rows() == if updated then CommitAcceptance(old(Rows()), i, token, external).value else old(Rows())
    {
      if i !in intents || !AcceptanceApplies(intents[i], token) { return false; }
      ghost var was := Rows();
      intents := intents[i := intents[i].(
        state := Accepted, transmission := WasAccepted, external := Some(external), lease := None, error := NoError)];
      GenerationsKept(was, Rows());
      return true;
    }

    /** `outage[n]` tells that transaction n + 1 fails before it changes anything. */
    method CommitWithRetry(i: IntentId, token: Token, external: ExternalId, outage: seq<bool>) returns (committed: bool)
      requires Valid() && |outage| == MAX_COMMITS
      modifies this`intents
      ensures Valid()
      ensures committed <==> (false in outage && CommitAcceptance(old(Rows()), i, token, external).Some?)
      ensures Rows() == if committed then CommitAcceptance(old(Rows()), i, token, external).value else old(Rows())
      ensures DbInv(old(Rows())) ==> DbInv(Rows())
    {
      if DbInv(Rows()) && CommitAcceptance(Rows(), i, token, external).Some? { WritesKeep(Rows(), CommitAcceptance(Rows(), i, token, external).value); }
      var commit := 1;
      while true
        invariant 1 <= commit <= MAX_COMMITS
        invariant Rows() == old(Rows()) && Valid()
        invariant forall n :: 0 <= n < commit - 1 ==> outage[n]
        decreases MAX_COMMITS - commit
      {
        if !outage[commit - 1] {
          committed := CommitOnce(i, token, external);
          return;
        }
        if commit >= MAX_COMMITS {
          assert forall n :: 0 <= n < MAX_COMMITS ==> outage[n];
          return false;
        }
        commit := commit + 1;
      }
    }

    method RecordSendFailure(i: IntentId, token: Token, error: TransportError, transmitting: bool, wait: nat, now: Instant)
      requires Valid()
      modifies this`intents
      ensures Valid()
      ensures Rows() == RecordFailure(old(Rows()), i, token, EndingOf(error, transmitting), wait, now)
      ensures DbInv(old(Rows())) ==> DbInv(Rows())
    {
      if DbInv(Rows()) { WritesKeep(Rows(), RecordFailure(Rows(), i, token, EndingOf(error, transmitting), wait, now)); }
      if i !in intents || intents[i].state != Sending || intents[i].lease != Some(token) { return; }
      var retry := error.Reported? && (error.kind == RateLimit || (error.kind == Temporary && error.outcome == OutcomeNotSent));
      var uncertain := transmitting && (error.UnknownError? || error.outcome == OutcomeUncertain);
      ghost var was := Rows();
      intents := intents[i := intents[i].(
        state := if uncertain then Uncertain else if retry then Pending else Failed,
        transmission := if uncertain then MaybeSent else NotSent,
        error := if uncertain then DeliveryUncertain else if retry then Waiting else Rejected,
        nextAttempt := now + wait,
        lease := None)];
      GenerationsKept(was, Rows());
    }

    method LoseClaim(i: IntentId, now: Instant)
      modifies this`intents
      ensures intents == if i in old(intents) then old(intents)[i := LoseOne(old(intents)[i], now)] else old(intents)
    {
      if i in intents && intents[i].state == Sending && intents[i].leaseExpires < now {
        intents := intents[i := intents[i].(state := Uncertain, transmission := MaybeSent, error := WorkerLost, lease := None)];
      }
    }

    method LoseClaims(page: set<IntentId>, now: Instant)
      modifies this`intents
      ensures intents == Recover(old(Rows()), page, now).intents
    {
      ghost var was := Rows();
      var todo := page;
      ghost var done: set<IntentId> := {};
      RecoverNone(was, now);
      while todo != {}
        invariant done + todo == page && done !! todo
        invariant intents == Recover(was, done, now).intents
        decreases |todo|
      {
        var i :| i in todo;
        LoseClaim(i, now);
        RecoverOneMore(was, done, i, now);
        todo, done := todo - {i}, done + {i};
      }
      assert done == page;
    }

    method RecoverExpired(page: set<IntentId>, now: Instant)
      requires Valid()
      modifies this`intents
      ensures Valid()
      ensures Rows() == Recover(old(Rows()), page, now)
      ensures DbInv(old(Rows())) ==> DbInv(Rows())
    {
      if DbInv(Rows()) { WritesKeep(Rows(), Recover(Rows(), page, now)); }
      ghost var was := Rows();
      LoseClaims(page, now);
      GenerationsKept(was, Rows());
    }

    // ---- holds ---------------------------------------------------------------------------

    method HoldAttempt(intent: Option<IntentId>, code: string) returns (held: Option<IntentId>)
      modifies this`intents
      ensures held == if Holdable(old(Rows()), intent) then intent else None
      ensures Rows() == if held.Some? then HoldIntent(old(Rows()), intent.value, code) else old(Rows())
    {
      if intent.None? || intent.value !in intents { return None; }
      var i := intent.value;
      if !(intents[i].state == Pending || (intents[i].state == Failed && intents[i].transmission == NotSent)
        || intents[i].state == Blocked)
      {
        return None;
      }
      intents := intents[i := intents[i].(state := Blocked, error := Held(code), lease := None)];
      return intent;
    }

    method BlockSend(key: Key, intent: Option<IntentId>, code: string, snapshot: Option<Snapshot>)
      requires Valid()
      modifies this`intents, this`holds
      ensures Valid()
      ensures Rows() == Block(old(Rows()), key, intent, code, snapshot)
      ensures DbInv(old(Rows())) ==> DbInv(Rows())
    {
      if DbInv(Rows()) { BlockServed(Rows(), key, intent, code, snapshot); }
      ghost var was := Rows();
      var current := HoldAttempt(intent, code);
      GenerationsKept(was, Rows());
      if key !in holds {
        holds := holds[key := Hold(OnHold, code, snapshot, current, 1, 1)];
      } else if holds[key].state != Closed {
        var row := holds[key];
        var changed := row.state != OnHold || row.code != code || (current.Some? && row.currentIntent != current);
        row := row.(occurrences := row.occurrences + 1);
        if changed {
          row := row.(state := OnHold, code := code, snapshot := snapshot, version := row.version + 1);
          if current.Some? { row := row.(currentIntent := current); }
        }
        holds := holds[key := row];
      }
      GenerationsKept(was, Rows());
    }

    method FindLatest(key: Key) returns (latest: Option<IntentId>)
      requires Valid()
      ensures latest == LatestOf(Rows(), key)
    {
      latest := None;
      var todo := intents.Keys;
      while todo != {}
        invariant todo <= intents.Keys
        invariant latest.Some? ==> latest.value in intents && intents[latest.value].key == key
        invariant forall j :: j in intents && j !in todo && intents[j].key == key ==>
          latest.Some? && intents[j].generation <= intents[latest.value].generation
        decreases |todo|
      {
        var i :| i in todo;
        if intents[i].key == key && (latest.None? || intents[latest.value].generation < intents[i].generation) {
          latest := Some(i);
        }
        todo := todo - {i};
      }
      var spec := LatestOf(Rows(), key);
      if latest.Some? {
        assert latest.value in OfKey(Rows(), key);
        assert GenerationsDiffer(Rows(), latest.value, spec.value);
      } else {
        assert OfKey(Rows(), key) == {};
      }
    }

    method SuccessorGeneration(key: Key, current: Option<IntentId>) returns (generation: nat)
      requires Valid()
      ensures generation == NextGeneration(Rows(), key, current)
    {
      var latest := FindLatest(key);
      if latest.Some? { return intents[latest.value].generation + 1; }
      return if current.Some? then 1 else 0;
    }

    method PrepareSend(key: Key, renew: bool, verdict: Verdict, i: IntentId, now: Instant)
      requires Valid() && i !in intents
      modifies this`intents, this`holds
      ensures Valid()
      ensures Rows() == Prepare(old(Rows()), key, renew, verdict, i, now)
      ensures DbInv(old(Rows())) ==> DbInv(Rows())
    {
      if DbInv(Rows()) { PrepareServed(Rows(), key, renew, verdict, i, now); }
      if key in holds { return; }
      var latest := FindLatest(key);
      if latest.Some? {
        var x := intents[latest.value];
        if !renew || x.state != Failed || x.transmission != NotSent { return; }
      }
      if !verdict.Allowed? {
        BlockSend(key, None, verdict.reason, None);
        return;
      }
      var generation := SuccessorGeneration(key, None);
      SuccessorDiffers(Rows(), key, None, i, now);
      intents := intents[i := NewIntent(key, generation, now)];
    }

    // ---- previews and confirmations ----------------------------------------------------------

    method LiveState(key: Key) returns (accepted: bool, live: bool)
      ensures accepted == AnyAccepted(Rows(), key) && live == AnyLive(Rows(), key)
    {
      accepted, live := false, false;
      var todo := intents.Keys;
      while todo != {}
        invariant todo <= intents.Keys
        invariant accepted ==> AnyAccepted(Rows(), key)
        invariant live ==> AnyLive(Rows(), key)
        invariant forall j :: j in intents && j !in todo && intents[j].key == key ==>
          (intents[j].state == Accepted ==> accepted) && (Live(intents[j].state) ==> live)
        decreases |todo|
      {
        var i :| i in todo;
        if intents[i].key == key {
          accepted := accepted || intents[i].state == Accepted;
          live := live || Live(intents[i].state);
        }
        todo := todo - {i};
      }
    }

    method EvaluateHold(key: Key, verdict: Verdict) returns (e: Evaluation)
      requires key in holds
      ensures e == Evaluate(Rows(), key, verdict)
      ensures e.action == Resume <==> Free(Rows(), key) && verdict.Allowed?
      ensures e.action == Resume ==> e.snapshot == Some(verdict.snapshot)
      ensures Free(Rows(), key) && verdict.Obsolete? ==> e.action == Finish && e.reason == verdict.reason
    {
      EvaluateMeans(Rows(), key, verdict);
      var version := holds[key].version;
      if holds[key].state == Resumed { return Evaluation(key, version, KeepBlocked, "PENDING_RESUMED", None); }
      if holds[key].state == Closed { return Evaluation(key, version, KeepBlocked, "PENDING_CLOSED", None); }
      var accepted, live := LiveState(key);
      if accepted { return Evaluation(key, version, Finish, "ALREADY_SENT", None); }
      if live { return Evaluation(key, version, KeepBlocked, "TRANSMISSION_UNKNOWN", None); }
      match verdict
      case Obsolete(reason) => return Evaluation(key, version, Finish, reason, None);
      case Refused(reason) => return Evaluation(key, version, KeepBlocked, reason, None);
      case Allowed(snapshot) => return Evaluation(key, version, Resume, "", Some(snapshot));
    }

    method PreviewHolds(r: ReviewId, keys: seq<Key>, env: map<Key, Verdict>, expires: Instant) returns (made: bool)
      requires Valid() && r !in reviews
      modifies this`reviews
      ensures Valid()
      ensures made <==> Preview(old(Rows()), r, keys, env, expires).Some?
      ensures Rows() == if made then Preview(old(Rows()), r, keys, env, expires).value else old(Rows())
    {
      if |keys| == 0 || |keys| > REVIEW_MAX_ITEMS || !Distinct(keys) { return false; }
      var items: seq<Evaluation> := [];
      for n := 0 to |keys|
        invariant |items| == n && Rows() == old(Rows())
        invariant forall m :: 0 <= m < n ==> keys[m] in holds && items[m] == Evaluate(Rows(), keys[m], Verdicts(keys[m], env))
      {
        if keys[n] !in holds {
          assert exists k :: k in keys && k !in holds;
          return false;
        }
        var item := EvaluateHold(keys[n], Verdicts(keys[n], env));
        items := items + [item];
      }
      ghost var was := Rows();
      assert forall k :: k in keys ==> k in holds;
      assert items == Evaluations(was, keys, env);
      reviews := reviews[r := Review(items, expires, None)];
      GenerationsKept(was, Rows());
      return true;
    }

    method ResumeHold(key: Key, i: IntentId, now: Instant)
      requires Valid() && key in holds && i !in intents
      modifies this`intents, this`holds
      ensures Valid()
      ensures Rows() == ResumeOne(old(Rows()), key, i, now)
    {
      var generation := SuccessorGeneration(key, holds[key].currentIntent);
      SuccessorDiffers(Rows(), key, holds[key].currentIntent, i, now);
      intents := intents[i := NewIntent(key, generation, now)];
      ghost var was := Rows();
      holds := holds[key := holds[key].(state := Resumed, currentIntent := Some(i), version := holds[key].version + 1)];
      GenerationsKept(was, Rows());
    }

    /** Revalidates and applies every item of a preview; the first one that changed undoes them all. */
    /** Whether the hold is evaluated otherwise now than when it was previewed. */
    method IsStale(item: Evaluation, env: map<Key, Verdict>) returns (stale: bool)
      ensures stale <==> item.key !in holds || Evaluate(Rows(), item.key, Verdicts(item.key, env)) != item
    {
      if item.key !in holds { return true; }
      var current := EvaluateHold(item.key, Verdicts(item.key, env));
      return current != item;
    }

    method ApplyItems(items: seq<Evaluation>, ids: seq<IntentId>, env: map<Key, Verdict>, now: Instant)
      returns (r: Option<ResumeResult>)
      requires Valid() && |ids| == |items| && FreshIds(Rows(), ids)
      modifies this`intents, this`holds
      ensures Valid()
      ensures match Applied(old(Rows()), items, ids, env, now, |items|)
        case None => r == None && Rows() == old(Rows())
        case Some((after, result)) => r == Some(result) && Rows() == after
    {
      ghost var was := Rows();
      var intentsBefore, holdsBefore := intents, holds;
      var result := ResumeResult([], []);
      for n := 0 to |items|
        invariant Valid() && reviews == old(reviews)
        invariant Applied(was, items, ids, env, now, n) == Some((Rows(), result))
        invariant forall m :: n <= m < |ids| ==> ids[m] !in intents
      {
        var item := items[n];
        var stale := IsStale(item, env);
        if stale {
          assert Applied(was, items, ids, env, now, n + 1).None?;
          StaleStops(was, items, ids, env, now, n + 1, |items|);
          intents, holds := intentsBefore, holdsBefore;
          assert Rows() == was;
          return None;
        }
        ghost var here := Rows();
        match item.action {
          case Resume =>
            ResumeHold(item.key, ids[n], now);
            result := result.(intents := result.intents + [ids[n]]);
          case Finish =>
            holds := holds[item.key := holds[item.key].(state := Closed, version := holds[item.key].version + 1)];
            result := result.(closed := result.closed + [item.key]);
            GenerationsKept(here, Rows());
          case KeepBlocked =>
        }
      }
      return Some(result);
    }

    method ConfirmReview(r: ReviewId, confirmKey: string, now: Instant, env: map<Key, Verdict>, ids: seq<IntentId>)
      returns (answer: Result<ResumeResult, ConfirmError>)
      requires Valid() && FreshIds(Rows(), ids) && (r in reviews ==> |ids| == |reviews[r].items|)
      modifies this
      ensures Valid()
      ensures match Confirm(old(Rows()), r, confirmKey, now, env, ids)
        case Success((after, result)) => answer == Success(result) && Rows() == after
        case Failure(error) => answer == Failure(error) && Rows() == old(Rows())
      ensures DbInv(old(Rows())) ==> DbInv(Rows())
    {
      if DbInv(Rows()) && Confirm(Rows(), r, confirmKey, now, env, ids).Success? { ConfirmServed(Rows(), r, confirmKey, now, env, ids); }
      if r !in reviews { return Failure(ReviewNotFound); }
      var review := reviews[r];
      if review.confirmation.Some? {
        return if review.confirmation.value.0 == confirmKey then Success(review.confirmation.value.1) else Failure(AlreadyConfirmed);
      }
      if exists x :: x in reviews && reviews[x].confirmation.Some? && reviews[x].confirmation.value.0 == confirmKey {
        return Failure(KeyReused);
      }
      if review.expires <= now { return Failure(ReviewExpired); }
      var applied := ApplyItems(review.items, ids, env, now);
      if applied.None? { return Failure(VersionChanged); }
      ghost var was := Rows();
      reviews := reviews[r := review.(confirmation := Some((confirmKey, applied.value)))];
      GenerationsKept(was, Rows());
      return Success(applied.value);
    }
  }

  // ---- steps of the loops ------------------------------------------------------------------

  lemma {:induction false} GenerationsKept(db: Db, after: Db)
    requires forall i, j {:trigger GenerationsDiffer(db, i, j)} :: GenerationsDiffer(db, i, j)
    requires forall i :: i in after.intents ==>
      i in db.intents && after.intents[i].key == db.intents[i].key && after.intents[i].generation == db.intents[i].generation
    ensures forall i, j {:trigger GenerationsDiffer(after, i, j)} :: GenerationsDiffer(after, i, j)
  {
    forall i, j ensures GenerationsDiffer(after, i, j) { assert GenerationsDiffer(db, i, j); }
  }

  lemma {:induction false} SuccessorDiffers(db: Db, key: Key, current: Option<IntentId>, i: IntentId, now: Instant)
    requires forall x, y {:trigger GenerationsDiffer(db, x, y)} :: GenerationsDiffer(db, x, y)
    requires i !in db.intents
    ensures var after := db.(intents := db.intents[i := NewIntent(key, NextGeneration(db, key, current), now)]);
      forall x, y {:trigger GenerationsDiffer(after, x, y)} :: GenerationsDiffer(after, x, y)
  {
    var after := db.(intents := db.intents[i := NewIntent(key, NextGeneration(db, key, current), now)]);
    forall x | x in db.intents && db.intents[x].key == key
      ensures db.intents[x].generation < after.intents[i].generation
    {
      assert x in OfKey(db, key);
    }
    forall x, y ensures GenerationsDiffer(after, x, y) { assert GenerationsDiffer(db, x, y); }
  }

  lemma {:induction false} RecoverOneMore(db: Db, done: set<IntentId>, i: IntentId, now: Instant)
    requires i !in done
    ensures var rows := Recover(db, done, now).intents;
      Recover(db, done + {i}, now).intents == if i in rows then rows[i := LoseOne(rows[i], now)] else rows
  {}

  lemma {:induction false} RecoverNone(db: Db, now: Instant)
    ensures Recover(db, {}, now) == db
  {}

  lemma {:induction false} StaleStops(db: Db, items: seq<Evaluation>, ids: seq<IntentId>, env: map<Key, Verdict>,
                                      now: Instant, n: nat, end: nat)
    requires n <= end <= |items| && |ids| == |items| && Applied(db, items, ids, env, now, n).None?
    ensures Applied(db, items, ids, env, now, end).None?
    decreases end - n
  {
    if n < end { StaleStops(db, items, ids, env, now, n + 1, end); }
  }
}
