/**
 Outbound messages: intents with their lease, holds of template sends and the reviews that
 resume them. One function a transaction; ids and lease tokens are random in the program,
 so a new one is a parameter no row uses yet.
 */
module DispatchModel {
  import opened Common

  type IntentId = nat
  type ReviewId = nat
  type Token = nat
  type Key = string
  type ExternalId = string
  type Instant = int
  /** Template, revisions and rendered context chosen for a send. */
  type Snapshot = nat

  const LEASE_MS := 60000
  const MAX_COMMITS := 3
  const REVIEW_MAX_ITEMS := 50

  datatype IntentState = Pending | Sending | Accepted | Uncertain | Failed | Blocked

  datatype Transmission = NotSent | MaybeSent | WasAccepted

  datatype ErrorCode = NoError | WorkerLost | DeliveryUncertain | Waiting | Rejected | Held(code: string)

  datatype Intent = Intent(
    key: Key, generation: nat, state: IntentState, lease: Option<Token>, leaseExpires: Instant,
    nextAttempt: Instant, attempts: nat, transmission: Transmission, error: ErrorCode,
    external: Option<ExternalId>)

  datatype HoldState = OnHold | Resumed | Closed

  /** One row a logical communication. */
  datatype Hold = Hold(
    state: HoldState, code: string, snapshot: Option<Snapshot>, currentIntent: Option<IntentId>,
    version: nat, occurrences: nat)

  datatype Action = Resume | Finish | KeepBlocked

  /** What a preview stores of each hold, and what the confirmation must find again. */
  datatype Evaluation = Evaluation(key: Key, version: nat, action: Action, reason: string, snapshot: Option<Snapshot>)

  datatype ResumeResult = ResumeResult(intents: seq<IntentId>, closed: seq<Key>)

  datatype Review = Review(items: seq<Evaluation>, expires: Instant, confirmation: Option<(string, ResumeResult)>)

  datatype Db = Db(intents: map<IntentId, Intent>, holds: map<Key, Hold>, reviews: map<ReviewId, Review>)

  /** What invoice, activation, approval, policy and rendering say about a request now. */
  datatype Verdict = Obsolete(reason: string) | Refused(reason: string) | Allowed(snapshot: Snapshot)

  /** In flight, uncertain or accepted: another send of the same communication may duplicate it. */
  predicate Live(s: IntentState) { s == Pending || s == Sending || s == Accepted || s == Uncertain }

  predicate MayHaveLeft(s: IntentState) { s == Sending || s == Accepted || s == Uncertain }

  function NewIntent(key: Key, generation: nat, now: Instant): Intent {
    Intent(key, generation, Pending, None, 0, now, 0, NotSent, NoError, None)
  }

  // ---- generations -----------------------------------------------------------------------

  function OfKey(db: Db, key: Key): set<IntentId> {
    set i | i in db.intents && db.intents[i].key == key
  }

  predicate Latest(db: Db, i: IntentId) {
    i in db.intents && forall j :: j in db.intents && db.intents[j].key == db.intents[i].key ==>
      db.intents[j].generation <= db.intents[i].generation
  }

  lemma {:induction false} LatestExists(db: Db, key: Key, among: set<IntentId>) returns (i: IntentId)
    requires among <= OfKey(db, key) && among != {}
    ensures i in among && forall j :: j in among ==> db.intents[j].generation <= db.intents[i].generation
    decreases |among|
  {
    i :| i in among;
    if among != {i} {
      var j := LatestExists(db, key, among - {i});
      if db.intents[i].generation < db.intents[j].generation { i := j; }
    }
  }

  ghost function LatestOf(db: Db, key: Key): (r: Option<IntentId>)
    ensures r.None? <==> OfKey(db, key) == {}
    ensures r.Some? ==> Latest(db, r.value) && db.intents[r.value].key == key
  {
    if OfKey(db, key) == {} then None else
    assert exists i :: i in OfKey(db, key) && Latest(db, i) by {
      var i := LatestExists(db, key, OfKey(db, key));
      assert Latest(db, i);
    }
    var i :| i in OfKey(db, key) && Latest(db, i);
    Some(i)
  }

  /** A successor keeps the attempts before it as history. */
  ghost function NextGeneration(db: Db, key: Key, current: Option<IntentId>): nat {
    var latest := LatestOf(db, key);
    if latest.Some? then db.intents[latest.value].generation + 1 else if current.Some? then 1 else 0
  }

  // ---- holds -----------------------------------------------------------------------------

  /** Only an intent claimed by nobody or known not to have left is held. */
  predicate MayHold(x: Intent) {
    x.state == Pending || (x.state == Failed && x.transmission == NotSent) || x.state == Blocked
  }

  function Holdable(db: Db, intent: Option<IntentId>): bool {
    intent.Some? && intent.value in db.intents && MayHold(db.intents[intent.value])
  }

  function HoldIntent(db: Db, i: IntentId, code: string): Db
    requires i in db.intents
  {
    db.(intents := db.intents[i := db.intents[i].(state := Blocked, error := Held(code), lease := None)])
  }

  function Block(db: Db, key: Key, intent: Option<IntentId>, code: string, snapshot: Option<Snapshot>): Db {
    var held := Holdable(db, intent);
    var stopped := if held then HoldIntent(db, intent.value, code) else db;
    var current := if held then intent else None;
    if key !in db.holds then
      stopped.(holds := db.holds[key := Hold(OnHold, code, snapshot, current, 1, 1)])
    else if db.holds[key].state == Closed then stopped
    else
      var row := db.holds[key];
      var changed := row.state != OnHold || row.code != code || (current.Some? && row.currentIntent != current);
      var counted := row.(occurrences := row.occurrences + 1);
      stopped.(holds := db.holds[key :=
        if !changed then counted else counted.(
          state := OnHold, code := code, snapshot := snapshot, version := row.version + 1,
          currentIntent := if current.Some? then current else row.currentIntent)])
  }

  // ---- first reservation and renewal ------------------------------------------------------

  /** Repeated producers get what exists; only a rejection that never left may be renewed. */
  ghost function Prepare(db: Db, key: Key, renew: bool, verdict: Verdict, i: IntentId, now: Instant): Db {
    if key in db.holds then db else
    var latest := LatestOf(db, key);
    if latest.Some? && !(renew && db.intents[latest.value].state == Failed && db.intents[latest.value].transmission == NotSent)
    then db
    else if !verdict.Allowed? then Block(db, key, None, verdict.reason, None)
    else db.(intents := db.intents[i := NewIntent(key, NextGeneration(db, key, None), now)])
  }

  // ---- dispatch --------------------------------------------------------------------------

  function Claim(db: Db, i: IntentId, token: Token, now: Instant): Option<Db> {
    if i in db.intents && db.intents[i].state == Pending && db.intents[i].nextAttempt <= now then
      Some(db.(intents := db.intents[i := db.intents[i].(
        state := Sending, lease := Some(token), leaseExpires := now + LEASE_MS, attempts := db.intents[i].attempts + 1)]))
    else None
  }

  /** Whoever still holds the proof may record it after the lease ran out: nobody can have claimed the intent since. */
  predicate AcceptanceApplies(x: Intent, token: Token) {
    (x.state == Sending && x.lease == Some(token)) || (x.state == Uncertain && x.error == WorkerLost && x.external == None)
  }

  function CommitAcceptance(db: Db, i: IntentId, token: Token, external: ExternalId): Option<Db> {
    if i in db.intents && AcceptanceApplies(db.intents[i], token) then
      Some(db.(intents := db.intents[i := db.intents[i].(
        state := Accepted, transmission := WasAccepted, external := Some(external),
        lease := None, error := NoError)]))
    else None
  }

  /** How a send that did not commit ended: the state and what is known of the transmission. */
  datatype Ending = EndUncertain | EndRetry | EndFailed

  function RecordFailure(db: Db, i: IntentId, token: Token, ending: Ending, wait: nat, now: Instant): Db {
    if i in db.intents && db.intents[i].state == Sending && db.intents[i].lease == Some(token) then
      db.(intents := db.intents[i := db.intents[i].(
        state := match ending case EndUncertain => Uncertain case EndRetry => Pending case EndFailed => Failed,
        transmission := if ending == EndUncertain then MaybeSent else NotSent,
        error := match ending case EndUncertain => DeliveryUncertain case EndRetry => Waiting case EndFailed => Rejected,
        nextAttempt := now + wait,
        lease := None)])
    else db
  }

  function LoseOne(x: Intent, now: Instant): Intent {
    if x.state == Sending && x.leaseExpires < now
    then x.(state := Uncertain, transmission := MaybeSent, error := WorkerLost, lease := None)
    else x
  }

  /** Claims whose lease expired may have left; `expired` is the page of the scan. */
  function Recover(db: Db, expired: set<IntentId>, now: Instant): Db {
    db.(intents := map i | i in db.intents :: if i in expired then LoseOne(db.intents[i], now) else db.intents[i])
  }

  // ---- resume ----------------------------------------------------------------------------

  predicate AnyLive(db: Db, key: Key) {
    exists i :: i in db.intents && db.intents[i].key == key && Live(db.intents[i].state)
  }

  predicate AnyAccepted(db: Db, key: Key) {
    exists i :: i in db.intents && db.intents[i].key == key && db.intents[i].state == Accepted
  }

  function Evaluate(db: Db, key: Key, verdict: Verdict): Evaluation
    requires key in db.holds
  {
    var version := db.holds[key].version;
    if db.holds[key].state == Resumed then Evaluation(key, version, KeepBlocked, "PENDING_RESUMED", None)
    else if db.holds[key].state == Closed then Evaluation(key, version, KeepBlocked, "PENDING_CLOSED", None)
    else if AnyAccepted(db, key) then Evaluation(key, version, Finish, "ALREADY_SENT", None)
    else if AnyLive(db, key) then Evaluation(key, version, KeepBlocked, "TRANSMISSION_UNKNOWN", None)
    else match verdict
      case Obsolete(reason) => Evaluation(key, version, Finish, reason, None)
      case Refused(reason) => Evaluation(key, version, KeepBlocked, reason, None)
      case Allowed(snapshot) => Evaluation(key, version, Resume, "", Some(snapshot))
  }

  function Verdicts(key: Key, env: map<Key, Verdict>): Verdict {
    if key in env then env[key] else Refused("VALUE_MISSING")
  }

  predicate Distinct(keys: seq<Key>) {
    forall j, k :: 0 <= j < k < |keys| ==> keys[j] != keys[k]
  }

  function Evaluations(db: Db, keys: seq<Key>, env: map<Key, Verdict>): seq<Evaluation>
    requires forall k :: k in keys ==> k in db.holds
  {
    seq(|keys|, n requires 0 <= n < |keys| => Evaluate(db, keys[n], Verdicts(keys[n], env)))
  }

  function Preview(db: Db, r: ReviewId, keys: seq<Key>, env: map<Key, Verdict>, expires: Instant): Option<Db> {
    if |keys| == 0 || |keys| > REVIEW_MAX_ITEMS || !Distinct(keys) then None
    else if exists k :: k in keys && k !in db.holds then None
    else Some(db.(reviews := db.reviews[r := Review(Evaluations(db, keys, env), expires, None)]))
  }

  datatype ConfirmError = ReviewNotFound | AlreadyConfirmed | KeyReused | ReviewExpired | VersionChanged

  ghost function ResumeOne(db: Db, key: Key, i: IntentId, now: Instant): Db
    requires key in db.holds
  {
    var row := db.holds[key];
    db.(intents := db.intents[i := NewIntent(key, NextGeneration(db, key, row.currentIntent), now)],
        holds := db.holds[key := row.(state := Resumed, currentIntent := Some(i), version := row.version + 1)])
  }

  function CloseOne(db: Db, key: Key): Db
    requires key in db.holds
  {
    db.(holds := db.holds[key := db.holds[key].(state := Closed, version := db.holds[key].version + 1)])
  }

  /** Revalidates and applies the first `n` items; `ids` are the successors' ids, one an item. */
  ghost function Applied(db: Db, items: seq<Evaluation>, ids: seq<IntentId>, env: map<Key, Verdict>, now: Instant, n: nat)
    : Option<(Db, ResumeResult)>
    requires n <= |items| && |ids| == |items|
  {
    if n == 0 then Some((db, ResumeResult([], []))) else
    var before := Applied(db, items, ids, env, now, n - 1);
    if before.None? then None else
    var (here, result) := before.value;
    var item := items[n - 1];
    if item.key !in here.holds || Evaluate(here, item.key, Verdicts(item.key, env)) != item then None
    else match item.action
      case Resume => Some((ResumeOne(here, item.key, ids[n - 1], now), result.(intents := result.intents + [ids[n - 1]])))
      case Finish => Some((CloseOne(here, item.key), result.(closed := result.closed + [item.key])))
      case KeepBlocked => Some((here, result))
  }

  predicate KeyUsed(db: Db, confirmKey: string) {
    exists r :: r in db.reviews && db.reviews[r].confirmation.Some? && db.reviews[r].confirmation.value.0 == confirmKey
  }

  ghost function Confirm(db: Db, r: ReviewId, confirmKey: string, now: Instant, env: map<Key, Verdict>, ids: seq<IntentId>)
    : Result<(Db, ResumeResult), ConfirmError>
    requires r in db.reviews ==> |ids| == |db.reviews[r].items|
  {
    if r !in db.reviews then Failure(ReviewNotFound) else
    var review := db.reviews[r];
    if review.confirmation.Some? then
      if review.confirmation.value.0 == confirmKey then Success((db, review.confirmation.value.1))
      else Failure(AlreadyConfirmed)
    else if KeyUsed(db, confirmKey) then Failure(KeyReused)
    else if review.expires <= now then Failure(ReviewExpired)
    else
      var applied := Applied(db, review.items, ids, env, now, |review.items|);
      if applied.None? then Failure(VersionChanged) else
      var (after, result) := applied.value;
      Success((after.(reviews := after.reviews[r := review.(confirmation := Some((confirmKey, result)))]), result))
  }
}
