/**
 What a re-evaluation of the replies to a message has done so far: which threads it went
 through, what it left settled there, what it did not touch and what it logged.
 */
module ReplyThreads {
  import opened Common
  import opened ReplyModel

  datatype Audit = Audit(message: MessageId, oldContext: Context, newContext: Context, how: Attribution, revision: nat)

  /** In the thread of one of the replies `tops`, fewer than `levels` citations below it. */
  ghost predicate Under(db: Rows, tops: set<MessageId>, levels: nat, i: MessageId) {
    exists k: nat {:trigger Up(db, i, k)} :: k < levels && Up(db, i, k).Some? && Up(db, i, k).value in tops
  }

  /** The message it cites has another row now. */
  ghost predicate ParentChanged(before: Rows, now: Rows, i: MessageId) {
    Parent(before, i).Some? && Parent(before, i).value in now && now[Parent(before, i).value] != before[Parent(before, i).value]
  }

  /** Resolved again: one of the replies, or a reply to a message that changed, within the levels. */
  ghost predicate Reached(before: Rows, now: Rows, tops: set<MessageId>, levels: nat, i: MessageId) {
    Under(before, tops, levels, i) && (i in tops || ParentChanged(before, now, i))
  }

  predicate Renewed(x: Message, y: Message) { y.context != x.context || y.how != x.how }

  ghost predicate KeptOutside(before: Rows, now: Rows, tops: set<MessageId>, levels: nat, i: MessageId) {
    i in before && i in now && now[i] != before[i] ==>
      Automatic(before[i]) && Automatic(now[i]) && Renewed(before[i], now[i]) && Reached(before, now, tops, levels, i)
  }

  ghost predicate SettledWithin(before: Rows, now: Rows, facts: Facts, tops: set<MessageId>, levels: nat, i: MessageId) {
    i in before && i in now && Automatic(before[i]) && Reached(before, now, tops, levels, i) ==>
      now[i].channel.Some? && Settled(now, facts, i)
  }

  ghost predicate AuditTrue(before: Rows, now: Rows, a: Audit) {
    && a.message in before && a.message in now
    && a.oldContext == before[a.message].context && a.newContext == now[a.message].context
    && a.how == now[a.message].how
    && a.revision == now[a.message].revision == before[a.message].revision + 1
  }

  predicate Mentions(audits: seq<Audit>, i: MessageId) {
    exists n :: 0 <= n < |audits| && audits[n].message == i
  }

  /** One entry for every row that changed, each telling its old and its new context. */
  ghost predicate Logged(before: Rows, now: Rows, audits: seq<Audit>) {
    && (forall n {:trigger AuditTrue(before, now, audits[n])} :: 0 <= n < |audits| ==> AuditTrue(before, now, audits[n]))
    && (forall m, n :: 0 <= m < n < |audits| ==> audits[m].message != audits[n].message)
    && (forall i {:trigger Mentions(audits, i)} :: i in before && i in now && now[i] != before[i] ==> Mentions(audits, i))
  }

  ghost predicate Progress(before: Rows, now: Rows, facts: Facts, tops: set<MessageId>, levels: nat, audits: seq<Audit>) {
    && SameThreads(before, now)
    && (forall i {:trigger KeptOutside(before, now, tops, levels, i)} :: KeptOutside(before, now, tops, levels, i))
    && (forall i {:trigger SettledWithin(before, now, facts, tops, levels, i)} :: SettledWithin(before, now, facts, tops, levels, i))
    && Logged(before, now, audits)
  }

  ghost function Dependents(db: Rows, m: MessageId): set<MessageId> {
    set i | i in db && m in db && Cites(db[i], db[m]) && Automatic(db[i])
  }

  function Levels(depth: nat): nat { if depth >= MAX_REPLY_DEPTH then 0 else MAX_REPLY_DEPTH - depth }

  lemma {:induction false} NoLevels(db: Rows, facts: Facts, tops: set<MessageId>)
    ensures Progress(db, db, facts, tops, 0, [])
  {}

  // ---- rows outside the visited threads -------------------------------------------------------

  /** A reply in the thread of `d`, or `m` itself, is untouched while other replies to `m` are visited. */
  lemma {:induction false} Untouched(before: Rows, now: Rows, facts: Facts, m: MessageId, tops: set<MessageId>, levels: nat, audits: seq<Audit>,
                                     i: MessageId, d: MessageId, k: nat)
    requires UniqueExternal(before) && Acyclic(before) && Progress(before, now, facts, tops, levels, audits)
    requires forall c :: c in tops ==> Parent(before, c) == Some(m)
    requires i == m || (Up(before, i, k) == Some(d) && d !in tops && Parent(before, d) == Some(m))
    requires i in before
    ensures now[i] == before[i]
  {
    assert KeptOutside(before, now, tops, levels, i);
    if now[i] != before[i] {
      var j: nat :| j < levels && Up(before, i, j).Some? && Up(before, i, j).value in tops;
      var c := Up(before, i, j).value;
      if i == m {
        assert Up(before, c, 1) == Up(before, m, 0);
        UpAdds(before, m, j, 1);
        assert false;
      } else {
        ThreadsDisjoint(before, m, i, c, j, d, k);
        assert false;
      }
    }
  }

  lemma {:induction false} SameDependents(before: Rows, now: Rows, facts: Facts, m: MessageId, tops: set<MessageId>, levels: nat, audits: seq<Audit>)
    requires Progress(before, now, facts, tops, levels, audits)
    ensures Dependents(now, m) == Dependents(before, m)
  {
    forall i ensures i in Dependents(now, m) <==> i in Dependents(before, m) {
      assert KeptOutside(before, now, tops, levels, i);
      if i in before && m in before { assert LinksKept(before, now, i) && LinksKept(before, now, m); }
    }
  }

  /** Before the turn of `d` it is as it was and still resolves as `m` does. */
  lemma {:induction false} TurnReady(before: Rows, now: Rows, facts: Facts, m: MessageId, tops: set<MessageId>, levels: nat, audits: seq<Audit>,
                                     d: MessageId)
    requires UniqueExternal(before) && Acyclic(before) && m in before
    requires Progress(before, now, facts, tops, levels, audits) && tops <= Dependents(before, m)
    requires d in Dependents(before, m) && d !in tops
    ensures UniqueExternal(now) && Acyclic(now) && now[d] == before[d]
    ensures Settled(now, facts, d) == Settled(before, facts, d)
    ensures Resolve(now, facts, ReferenceOf(facts, now[d])) == Resolve(before, facts, ReferenceOf(facts, before[d]))
  {
    SameParent(before, now, d);
    SameAcyclic(before, now);
    forall c | c in Dependents(before, m) ensures Parent(before, c) == Some(m) { ParentIs(before, m, c); }
    Untouched(before, now, facts, m, tops, levels, audits, d, d, 0);
    Untouched(before, now, facts, m, tops, levels, audits, m, d, 0);
    SettledKept(before, now, facts, d);
    SameFind(before, now, before[d].replyTo.value);
  }

  // ---- one reply -------------------------------------------------------------------------

  /** A reply found settled is passed over, and nothing below it is looked at. */
  lemma {:induction false} Skipped(db: Rows, facts: Facts, d: MessageId, levels: nat)
    requires d in db && Automatic(db[d]) && Settled(db, facts, d)
    ensures Progress(db, db, facts, {d}, levels, [])
  {}

  function Reattributed(x: Message, to: Resolved): Message {
    x.(context := to.context, how := to.how, revision := x.revision + 1)
  }

  /** The row of this reply is the only one that changed, and it is settled now. */
  ghost predicate Changed(db: Rows, now: Rows, facts: Facts, d: MessageId) {
    && d in db && d in now && SameThreads(db, now) && now == db[d := now[d]]
    && Automatic(now[d]) && Settled(now, facts, d) && Renewed(db[d], now[d])
  }

  /** The reply itself is settled by its update. */
  lemma {:induction false} UpdateSettles(db: Rows, facts: Facts, m: MessageId, d: MessageId, to: Resolved)
    requires UniqueExternal(db) && Acyclic(db) && m in db && d in Dependents(db, m)
    requires to == Resolve(db, facts, ReferenceOf(facts, db[d]))
    ensures var now := db[d := Reattributed(db[d], to)];
      && SameThreads(db, now) && UniqueExternal(now) && Acyclic(now) && Automatic(now[d]) && Settled(now, facts, d)
  {
    var now := db[d := Reattributed(db[d], to)];
    SameParent(db, now, d);
    SameAcyclic(db, now);
    ParentIs(db, m, d);
    assert Up(db, d, 1) == Up(db, m, 0);
    SameFind(db, now, db[d].replyTo.value);
  }

  lemma {:induction false} OneWay(db: Rows, i: MessageId, d: MessageId, a: nat, b: nat)
    requires Acyclic(db) && Up(db, i, a) == Some(d) && Up(db, i, b) == Some(d)
    ensures a == b
  {
    if a < b { UpAdds(db, i, a, b - a); assert false; }
    if b < a { UpAdds(db, i, b, a - b); assert false; }
  }

  /** Updating a reply and re-evaluating the replies to it settles its thread one level further. */
  lemma {:induction false} Descended(db: Rows, now: Rows, after: Rows, facts: Facts, m: MessageId, d: MessageId, levels: nat,
                                     audit: Audit, audits: seq<Audit>)
    requires UniqueExternal(db) && Acyclic(db) && m in db && d in Dependents(db, m) && levels >= 1
    requires Changed(db, now, facts, d)
    requires Progress(now, after, facts, Dependents(now, d), levels - 1, audits)
    requires AuditTrue(db, now, audit) && audit.message == d
    ensures Progress(db, after, facts, {d}, levels, [audit] + audits)
  {
    SameParent(db, now, d);
    SameAcyclic(db, now);
    ParentIs(db, m, d);
    forall c | c in Dependents(now, d) ensures Parent(now, c) == Some(d) { ParentIs(now, d, c); }
    Untouched(now, after, facts, d, Dependents(now, d), levels - 1, audits, d, d, 0);
    forall i ensures LinksKept(db, after, i) { assert LinksKept(db, now, i) && LinksKept(now, after, i); }
    forall i ensures KeptOutside(db, after, {d}, levels, i) {
      assert KeptOutside(now, after, Dependents(now, d), levels - 1, i);
      if i in db && after[i] != db[i] { DescendedReach(db, now, after, facts, d, levels, audits, i); }
    }
    forall i ensures SettledWithin(db, after, facts, {d}, levels, i) {
      if i in db && Automatic(db[i]) && Reached(db, after, {d}, levels, i) {
        DescendedSettled(db, now, after, facts, m, d, levels, audits, i);
      }
    }
    assert Logged(db, after, [audit] + audits) by {
      forall n | 0 <= n < |audits| ensures audits[n].message != d {
        assert AuditTrue(now, after, audits[n]);
      }
      LoggedOneMore(db, now, after, d, audit, audits);
    }
  }

  lemma {:induction false} LoggedOneMore(db: Rows, now: Rows, after: Rows, d: MessageId, audit: Audit, audits: seq<Audit>)
    requires d in now && d in db && now == db[d := now[d]] && now.Keys == after.Keys && after[d] == now[d]
    requires AuditTrue(db, now, audit) && audit.message == d && Logged(now, after, audits)
    requires forall n :: 0 <= n < |audits| ==> audits[n].message != d
    ensures Logged(db, after, [audit] + audits)
  {
    var all := [audit] + audits;
    forall n | 0 <= n < |all| ensures AuditTrue(db, after, all[n]) {
      if n > 0 { assert AuditTrue(now, after, audits[n - 1]); }
    }
    forall i | i in db && i in after && after[i] != db[i] ensures Mentions(all, i) {
      if i == d { assert all[0].message == i; }
      else {
        assert Mentions(audits, i);
        var n :| 0 <= n < |audits| && audits[n].message == i;
        assert all[n + 1].message == i;
      }
    }
  }

  lemma {:induction false} DescendedReach(db: Rows, now: Rows, after: Rows, facts: Facts, d: MessageId, levels: nat, audits: seq<Audit>, i: MessageId)
    requires UniqueExternal(db) && levels >= 1 && d in now && SameThreads(db, now) && now == db[d := now[d]]
    requires Automatic(now[d]) && d in db && Automatic(db[d]) && Renewed(db[d], now[d]) && d in after && after[d] == now[d]
    requires Progress(now, after, facts, Dependents(now, d), levels - 1, audits)
    requires i in db && after[i] != db[i]
    ensures Automatic(db[i]) && Automatic(after[i]) && Renewed(db[i], after[i]) && Reached(db, after, {d}, levels, i)
  {
    SameParent(db, now, d);
    assert KeptOutside(now, after, Dependents(now, d), levels - 1, i);
    if after[i] != now[i] {
      var k: nat :| k < levels - 1 && Up(now, i, k).Some? && Up(now, i, k).value in Dependents(now, d);
      var c := Up(now, i, k).value;
      ParentIs(now, d, c);
      assert Up(now, c, 1) == Up(now, d, 0);
      UpAdds(now, i, k, 1);
      SameUp(db, now, i, k + 1);
      SameParent(db, now, i);
      if i in Dependents(now, d) { ParentIs(now, d, i); }
    } else {
      assert i == d && Up(db, d, 0) == Some(d);
    }
  }

  lemma {:induction false} DescendedSettled(db: Rows, now: Rows, after: Rows, facts: Facts, m: MessageId, d: MessageId, levels: nat,
                                            audits: seq<Audit>, i: MessageId)
    requires UniqueExternal(db) && Acyclic(db) && UniqueExternal(now) && Acyclic(now) && levels >= 1
    requires d in db && d in now && d in after && SameThreads(db, now) && now == db[d := now[d]]
    requires Automatic(now[d]) && after[d] == now[d] && Settled(now, facts, d) && Parent(now, d) == Some(m)
    requires Progress(now, after, facts, Dependents(now, d), levels - 1, audits)
    requires forall c :: c in Dependents(now, d) ==> Parent(now, c) == Some(d)
    requires i in db && Automatic(db[i]) && Reached(db, after, {d}, levels, i)
    ensures after[i].channel.Some? && Settled(after, facts, i)
  {
    if i == d {
      ParentUntouched(now, after, facts, m, d, levels - 1, audits);
      SettledKept(now, after, facts, d);
    } else {
      var k: nat :| k < levels && Up(db, i, k).Some? && Up(db, i, k).value in {d};
      SameUp(db, now, i, k);
      SameParent(db, now, i);
      ReplyReached(now, after, facts, d, levels - 1, audits, i, k);
      assert SettledWithin(now, after, facts, Dependents(now, d), levels - 1, i);
    }
  }

  /** A reply below `d` whose cited message changed is reached through the replies to `d`. */
  lemma {:induction false} ReplyReached(now: Rows, after: Rows, facts: Facts, d: MessageId, levels: nat, audits: seq<Audit>, i: MessageId, k: nat)
    requires UniqueExternal(now) && Acyclic(now) && d in now && d in after && after[d] == now[d]
    requires Progress(now, after, facts, Dependents(now, d), levels, audits)
    requires forall c :: c in Dependents(now, d) ==> Parent(now, c) == Some(d)
    requires i in now && i != d && Automatic(now[i]) && Up(now, i, k) == Some(d) && k <= levels
    requires Parent(now, i) == Some(d) || ParentChanged(now, after, i)
    ensures Reached(now, after, Dependents(now, d), levels, i)
  {
    var p := Parent(now, i).value;
    ParentIs(now, d, i);
    assert Up(now, i, 0) == Some(i);
    if p != d {
      assert KeptOutside(now, after, Dependents(now, d), levels, p);
      var j: nat :| j < levels && Up(now, p, j).Some? && Up(now, p, j).value in Dependents(now, d);
      var c := Up(now, p, j).value;
      assert Up(now, i, j + 1) == Some(c) && Up(now, c, 1) == Up(now, d, 0);
      UpAdds(now, i, j + 1, 1);
      OneWay(now, i, d, j + 2, k);
    }
  }

  /** The message cited by `d` is above its thread. */
  lemma {:induction false} ParentUntouched(now: Rows, after: Rows, facts: Facts, m: MessageId, d: MessageId, levels: nat, audits: seq<Audit>)
    requires UniqueExternal(now) && Acyclic(now) && d in now && Parent(now, d) == Some(m)
    requires Progress(now, after, facts, Dependents(now, d), levels, audits)
    requires forall c :: c in Dependents(now, d) ==> Parent(now, c) == Some(d)
    ensures after[m] == now[m]
  {
    assert KeptOutside(now, after, Dependents(now, d), levels, m);
    if after[m] != now[m] {
      var k: nat :| k < levels && Up(now, m, k).Some? && Up(now, m, k).value in Dependents(now, d);
      var c := Up(now, m, k).value;
      assert Up(now, c, 1) == Up(now, d, 0) && Up(now, d, 1) == Up(now, m, 0);
      UpAdds(now, c, 1, 1);
      UpAdds(now, m, k, 2);
      assert false;
    }
  }

  // ---- one reply after the other -------------------------------------------------------------

  lemma {:induction false} Composed(before: Rows, now: Rows, after: Rows, facts: Facts, m: MessageId, tops: set<MessageId>, d: MessageId,
                                    levels: nat, first: seq<Audit>, second: seq<Audit>)
    requires UniqueExternal(before) && Acyclic(before) && m in before
    requires tops <= Dependents(before, m) && d in Dependents(before, m) && d !in tops
    requires Progress(before, now, facts, tops, levels, first) && Progress(now, after, facts, {d}, levels, second)
    ensures Progress(before, after, facts, tops + {d}, levels, first + second)
  {
    forall c | c in Dependents(before, m) ensures Parent(before, c) == Some(m) { ParentIs(before, m, c); }
    SameAcyclic(before, now);
    SameParent(before, now, d);
    forall i ensures LinksKept(before, after, i) { assert LinksKept(before, now, i) && LinksKept(now, after, i); }
    forall i ensures KeptOutside(before, after, tops + {d}, levels, i) {
      if i in before && after[i] != before[i] { ComposedReach(before, now, after, facts, m, tops, d, levels, first, second, i); }
    }
    forall i ensures SettledWithin(before, after, facts, tops + {d}, levels, i) {
      if i in before && Automatic(before[i]) && Reached(before, after, tops + {d}, levels, i) {
        ComposedSettled(before, now, after, facts, m, tops, d, levels, first, second, i);
      }
    }
    ComposedLog(before, now, after, facts, m, tops, d, levels, first, second);
  }

  lemma {:induction false} ComposedReach(before: Rows, now: Rows, after: Rows, facts: Facts, m: MessageId, tops: set<MessageId>, d: MessageId,
                                         levels: nat, first: seq<Audit>, second: seq<Audit>, i: MessageId)
    requires UniqueExternal(before) && Acyclic(before) && UniqueExternal(now) && Acyclic(now) && m in before
    requires d !in tops && Parent(before, d) == Some(m)
    requires forall c :: c in tops ==> Parent(before, c) == Some(m)
    requires Progress(before, now, facts, tops, levels, first) && Progress(now, after, facts, {d}, levels, second)
    requires i in before && after[i] != before[i]
    ensures Automatic(before[i]) && Automatic(after[i]) && Renewed(before[i], after[i]) && Reached(before, after, tops + {d}, levels, i)
  {
    if now[i] != before[i] {
      ReachedFirst(before, now, after, facts, m, tops, d, levels, first, second, i);
    } else {
      ReachedSecond(before, now, after, facts, m, tops, d, levels, first, second, i);
    }
  }

  lemma {:induction false} ReachedFirst(before: Rows, now: Rows, after: Rows, facts: Facts, m: MessageId, tops: set<MessageId>, d: MessageId,
                                        levels: nat, first: seq<Audit>, second: seq<Audit>, i: MessageId)
    requires UniqueExternal(before) && Acyclic(before) && UniqueExternal(now) && Acyclic(now) && m in before
    requires d !in tops && Parent(before, d) == Some(m)
    requires forall c :: c in tops ==> Parent(before, c) == Some(m)
    requires Progress(before, now, facts, tops, levels, first) && Progress(now, after, facts, {d}, levels, second)
    requires i in before && now[i] != before[i]
    ensures Automatic(before[i]) && Automatic(after[i]) && Renewed(before[i], after[i]) && Reached(before, after, tops + {d}, levels, i)
  {
    assert KeptOutside(before, now, tops, levels, i);
    var k: nat :| k < levels && Up(before, i, k).Some? && Up(before, i, k).value in tops;
    var c := Up(before, i, k).value;
    SameUp(before, now, i, k);
    SameParent(before, now, i);
    SameParent(before, now, d);
    SameParent(before, now, c);
    Untouched(now, after, facts, m, {d}, levels, second, i, c, k);
    if i !in tops { Untouched(now, after, facts, m, {d}, levels, second, Parent(before, i).value, c, k - 1); }
  }

  lemma {:induction false} ReachedSecond(before: Rows, now: Rows, after: Rows, facts: Facts, m: MessageId, tops: set<MessageId>, d: MessageId,
                                         levels: nat, first: seq<Audit>, second: seq<Audit>, i: MessageId)
    requires UniqueExternal(before) && Acyclic(before) && UniqueExternal(now) && Acyclic(now) && m in before
    requires d !in tops && Parent(before, d) == Some(m)
    requires forall c :: c in tops ==> Parent(before, c) == Some(m)
    requires Progress(before, now, facts, tops, levels, first) && Progress(now, after, facts, {d}, levels, second)
    requires i in before && now[i] == before[i] && after[i] != now[i]
    ensures Automatic(before[i]) && Automatic(after[i]) && Renewed(before[i], after[i]) && Reached(before, after, tops + {d}, levels, i)
  {
    assert KeptOutside(now, after, {d}, levels, i);
    SameParent(before, now, i);
    var k: nat :| k < levels && Up(now, i, k).Some? && Up(now, i, k).value in {d};
    SameUp(before, now, i, k);
    if i != d { Untouched(before, now, facts, m, tops, levels, first, Parent(before, i).value, d, k - 1); }
  }

  lemma {:induction false} ComposedSettled(before: Rows, now: Rows, after: Rows, facts: Facts, m: MessageId, tops: set<MessageId>, d: MessageId,
                                           levels: nat, first: seq<Audit>, second: seq<Audit>, i: MessageId)
    requires UniqueExternal(before) && Acyclic(before) && UniqueExternal(now) && Acyclic(now) && m in before
    requires d !in tops && Parent(before, d) == Some(m)
    requires forall c :: c in tops ==> Parent(before, c) == Some(m)
    requires Progress(before, now, facts, tops, levels, first) && Progress(now, after, facts, {d}, levels, second)
    requires i in before && Automatic(before[i]) && Reached(before, after, tops + {d}, levels, i)
    ensures after[i].channel.Some? && Settled(after, facts, i)
  {
    var k: nat :| k < levels && Up(before, i, k).Some? && Up(before, i, k).value in tops + {d};
    if Up(before, i, k).value == d {
      SettledSecond(before, now, after, facts, m, tops, d, levels, first, second, i, k);
    } else {
      SettledFirst(before, now, after, facts, m, tops, d, levels, first, second, i, k);
    }
  }

  lemma {:induction false} SettledSecond(before: Rows, now: Rows, after: Rows, facts: Facts, m: MessageId, tops: set<MessageId>, d: MessageId,
                                         levels: nat, first: seq<Audit>, second: seq<Audit>, i: MessageId, k: nat)
    requires UniqueExternal(before) && Acyclic(before) && m in before
    requires d !in tops && Parent(before, d) == Some(m)
    requires forall c :: c in tops ==> Parent(before, c) == Some(m)
    requires Progress(before, now, facts, tops, levels, first) && Progress(now, after, facts, {d}, levels, second)
    requires i in before && Automatic(before[i]) && k < levels && Up(before, i, k) == Some(d)
    requires i in tops + {d} || ParentChanged(before, after, i)
    ensures after[i].channel.Some? && Settled(after, facts, i)
  {
    SameUp(before, now, i, k);
    SameParent(before, now, i);
    Untouched(before, now, facts, m, tops, levels, first, i, d, k);
    if i in tops { ThreadsDisjoint(before, m, i, i, 0, d, k); }
    if i != d { Untouched(before, now, facts, m, tops, levels, first, Parent(before, i).value, d, k - 1); }
    assert SettledWithin(now, after, facts, {d}, levels, i);
  }

  lemma {:induction false} SettledFirst(before: Rows, now: Rows, after: Rows, facts: Facts, m: MessageId, tops: set<MessageId>, d: MessageId,
                                        levels: nat, first: seq<Audit>, second: seq<Audit>, i: MessageId, k: nat)
    requires UniqueExternal(before) && Acyclic(before) && UniqueExternal(now) && Acyclic(now) && m in before
    requires d !in tops && Parent(before, d) == Some(m)
    requires forall c :: c in tops ==> Parent(before, c) == Some(m)
    requires Progress(before, now, facts, tops, levels, first) && Progress(now, after, facts, {d}, levels, second)
    requires i in before && Automatic(before[i]) && k < levels && Up(before, i, k).Some? && Up(before, i, k).value in tops
    requires i in tops + {d} || ParentChanged(before, after, i)
    ensures after[i].channel.Some? && Settled(after, facts, i)
  {
    var c := Up(before, i, k).value;
    SameUp(before, now, i, k);
    SameParent(before, now, i);
    SameParent(before, now, c);
    SameParent(before, now, d);
    if i == d { ThreadsDisjoint(before, m, i, c, k, d, 0); }
    Untouched(now, after, facts, m, {d}, levels, second, i, c, k);
    if k == 0 {
      Untouched(now, after, facts, m, {d}, levels, second, m, c, 0);
    } else {
      Untouched(now, after, facts, m, {d}, levels, second, Parent(now, i).value, c, k - 1);
    }
    assert KeptOutside(before, now, tops, levels, i) && SettledWithin(before, now, facts, tops, levels, i);
    SettledKept(now, after, facts, i);
  }

  /** No row is logged twice: the threads visited before are not entered again. */
  lemma {:induction false} ComposedLog(before: Rows, now: Rows, after: Rows, facts: Facts, m: MessageId, tops: set<MessageId>, d: MessageId,
                                       levels: nat, first: seq<Audit>, second: seq<Audit>)
    requires UniqueExternal(before) && Acyclic(before) && UniqueExternal(now)
    requires d !in tops && Parent(before, d) == Some(m)
    requires forall c :: c in tops ==> Parent(before, c) == Some(m)
    requires Progress(before, now, facts, tops, levels, first) && Progress(now, after, facts, {d}, levels, second)
    ensures Logged(before, after, first + second)
  {
    forall i | i in before && now[i] != before[i] ensures after[i] == now[i] {
      assert KeptOutside(before, now, tops, levels, i) && KeptOutside(now, after, {d}, levels, i);
      if after[i] != now[i] {
        var k: nat :| k < levels && Up(now, i, k).Some? && Up(now, i, k).value in {d};
        SameUp(before, now, i, k);
        Untouched(before, now, facts, m, tops, levels, first, i, d, k);
        assert false;
      }
    }
    LoggedTogether(before, now, after, first, second);
  }

  lemma {:induction false} LoggedTogether(before: Rows, now: Rows, after: Rows, first: seq<Audit>, second: seq<Audit>)
    requires before.Keys == now.Keys == after.Keys && Logged(before, now, first) && Logged(now, after, second)
    requires forall i :: i in before && now[i] != before[i] ==> after[i] == now[i]
    ensures Logged(before, after, first + second)
  {
    var all := first + second;
    forall n | 0 <= n < |all| ensures AuditTrue(before, after, all[n]) {
      if n < |first| { assert AuditTrue(before, now, first[n]); }
      else { assert AuditTrue(now, after, second[n - |first|]); }
    }
    forall a, b | 0 <= a < b < |all| ensures all[a].message != all[b].message {
      if a < |first| <= b { assert AuditTrue(before, now, first[a]) && AuditTrue(now, after, second[b - |first|]); }
    }
    forall i | i in before && after[i] != before[i] ensures Mentions(all, i) {
      if now[i] != before[i] {
        assert Mentions(first, i);
        var n :| 0 <= n < |first| && first[n].message == i;
        assert all[n].message == i;
      } else {
        assert Mentions(second, i);
        var n :| 0 <= n < |second| && second[n].message == i;
        assert all[|first| + n].message == i;
      }
    }
  }

  // ---- the whole re-evaluation ---------------------------------------------------------------

  /** One citation below the last level, under a message that changed. */
  ghost predicate JustBelow(before: Rows, now: Rows, m: MessageId, i: MessageId) {
    Up(before, i, MAX_REPLY_DEPTH + 1) == Some(m) && ParentChanged(before, now, i)
  }

  /**
   What becomes of an automatic reply: settled if `m` or another message it cites changed, left
   as it was if not; only one citation below the last level is it left although its message changed.
   */
  lemma {:induction false} AfterReevaluation(before: Rows, now: Rows, facts: Facts, m: MessageId, audits: seq<Audit>, i: MessageId)
    requires UniqueExternal(before) && Acyclic(before) && m in before
    requires Progress(before, now, facts, Dependents(before, m), MAX_REPLY_DEPTH, audits)
    requires i in before && Automatic(before[i])
    ensures now[m] == before[m] && Automatic(now[i])
    ensures JustBelow(before, now, m, i) ==> now[i] == before[i] && i !in Dependents(before, m)
    ensures (i in Dependents(before, m) || ParentChanged(before, now, i)) && !JustBelow(before, now, m, i) ==> Settled(now, facts, i)
    ensures i !in Dependents(before, m) && !ParentChanged(before, now, i) ==>
      now[i] == before[i] && Settled(now, facts, i) == Settled(before, facts, i)
  {
    forall c | c in Dependents(before, m) ensures Parent(before, c) == Some(m) { ParentIs(before, m, c); }
    Untouched(before, now, facts, m, Dependents(before, m), MAX_REPLY_DEPTH, audits, m, m, 0);
    assert KeptOutside(before, now, Dependents(before, m), MAX_REPLY_DEPTH, i);
    assert SettledWithin(before, now, facts, Dependents(before, m), MAX_REPLY_DEPTH, i);
    assert Up(before, i, 0) == Some(i);
    if JustBelow(before, now, m, i) {
      BelowTheLimit(before, m, i);
    } else if ParentChanged(before, now, i) {
      ReachedOrJustBelow(before, now, facts, m, audits, i);
    } else if i !in Dependents(before, m) {
      SettledKept(before, now, facts, i);
    }
  }

  lemma {:induction false} ReachedOrJustBelow(before: Rows, now: Rows, facts: Facts, m: MessageId, audits: seq<Audit>, i: MessageId)
    requires UniqueExternal(before) && Acyclic(before) && m in before
    requires forall c :: c in Dependents(before, m) ==> Parent(before, c) == Some(m)
    requires Progress(before, now, facts, Dependents(before, m), MAX_REPLY_DEPTH, audits)
    requires i in before && ParentChanged(before, now, i)
    ensures Under(before, Dependents(before, m), MAX_REPLY_DEPTH, i) || JustBelow(before, now, m, i)
  {
    var p := Parent(before, i).value;
    assert KeptOutside(before, now, Dependents(before, m), MAX_REPLY_DEPTH, p);
    var k: nat :| k < MAX_REPLY_DEPTH && Up(before, p, k).Some? && Up(before, p, k).value in Dependents(before, m);
    var c := Up(before, p, k).value;
    assert Up(before, i, k + 1) == Some(c) && Up(before, c, 1) == Up(before, m, 0);
    UpAdds(before, i, k + 1, 1);
    assert Up(before, i, k + 2) == Some(m);
  }

  lemma {:induction false} BelowTheLimit(db: Rows, m: MessageId, i: MessageId)
    requires UniqueExternal(db) && Acyclic(db) && Up(db, i, MAX_REPLY_DEPTH + 1) == Some(m)
    ensures !Under(db, Dependents(db, m), MAX_REPLY_DEPTH, i) && i !in Dependents(db, m)
  {
    forall k: nat | k < MAX_REPLY_DEPTH && Up(db, i, k).Some? ensures Up(db, i, k).value !in Dependents(db, m) {
      var c := Up(db, i, k).value;
      UpAdds(db, i, k, MAX_REPLY_DEPTH + 1 - k);
      if c in Dependents(db, m) { ShortWay(db, m, c, MAX_REPLY_DEPTH + 1 - k); }
    }
    assert Up(db, i, 0) == Some(i);
  }

  lemma {:induction false} ShortWay(db: Rows, m: MessageId, c: MessageId, k: nat)
    requires UniqueExternal(db) && Acyclic(db) && c in Dependents(db, m) && Up(db, c, k) == Some(m) && k >= 1
    ensures k == 1
  {
    ParentIs(db, m, c);
    assert Up(db, m, k - 1) == Some(m);
  }

  // ---- what is stale afterwards ----------------------------------------------------------------

  /** Only replies to `m` itself may be stale. */
  ghost predicate OthersSettled(db: Rows, facts: Facts, m: MessageId) {
    forall x {:trigger Parent(db, x)} :: x in db && Automatic(db[x]) && Parent(db, x) != Some(m) ==> Settled(db, facts, x)
  }

  /** A reply to a settled reply resolves to the same attribution, until the message it cites expires. */
  lemma {:induction false} FollowsSettled(db: Rows, facts: Facts, i: MessageId)
    requires UniqueExternal(db) && i in db && Automatic(db[i]) && Parent(db, i).Some?
    requires var p := Parent(db, i).value; Automatic(db[p]) && Settled(db, facts, p)
    ensures var p := db[Parent(db, i).value];
      Resolve(db, facts, ReferenceOf(facts, db[i])) == if p.expires > facts.now then Resolved(p.context, p.how) else Resolved(NO_CONTEXT, Unassigned)
  {
    var p := Parent(db, i).value;
    if db[p].how == ReplyContext {
      var source := db[Find(db, db[p].replyTo.value).value];
      ValidateCoherent(facts, source.context, RecipientOf(facts, db[p].conversation));
    }
  }

  /**
   If only replies to `m` were stale before, a reply is stale afterwards exactly when it is one
   citation below the last level, under a message that changed and has not expired.
   */
  lemma {:induction false} StaleExactly(before: Rows, now: Rows, facts: Facts, m: MessageId, audits: seq<Audit>, i: MessageId)
    requires UniqueExternal(before) && Acyclic(before) && m in before && OthersSettled(before, facts, m)
    requires Progress(before, now, facts, Dependents(before, m), MAX_REPLY_DEPTH, audits)
    requires i in before && Automatic(before[i])
    ensures Automatic(now[i])
    ensures !Settled(now, facts, i) <==> JustBelow(before, now, m, i) && before[Parent(before, i).value].expires > facts.now
  {
    AfterReevaluation(before, now, facts, m, audits, i);
    if JustBelow(before, now, m, i) {
      JustBelowStale(before, now, facts, m, audits, i);
    } else if i !in Dependents(before, m) && !ParentChanged(before, now, i) {
      ParentIs(before, m, i);
      assert Parent(before, i) != Some(m);
    }
  }

  lemma {:induction false} JustBelowStale(before: Rows, now: Rows, facts: Facts, m: MessageId, audits: seq<Audit>, i: MessageId)
    requires UniqueExternal(before) && Acyclic(before) && m in before && OthersSettled(before, facts, m)
    requires Progress(before, now, facts, Dependents(before, m), MAX_REPLY_DEPTH, audits)
    requires i in before && Automatic(before[i]) && now[i] == before[i] && JustBelow(before, now, m, i)
    ensures Settled(now, facts, i) <==> before[Parent(before, i).value].expires <= facts.now
  {
    var p := Parent(before, i).value;
    assert Up(before, p, MAX_REPLY_DEPTH) == Some(m) && Up(before, p, 0) == Some(p);
    NotNear(before, m, i, MAX_REPLY_DEPTH + 1);
    NotNear(before, m, p, MAX_REPLY_DEPTH);
    assert KeptOutside(before, now, Dependents(before, m), MAX_REPLY_DEPTH, p);
    assert LinksKept(before, now, p) && LinksKept(before, now, i);
    AfterReevaluation(before, now, facts, m, audits, p);
    OneWayOnly(before, now, m, p);
    SameParent(before, now, i);
    FollowsSettled(before, facts, i);
    FollowsSettled(now, facts, i);
  }

  lemma {:induction false} NotNear(db: Rows, m: MessageId, i: MessageId, k: nat)
    requires Acyclic(db) && Up(db, i, k) == Some(m) && k > 1
    ensures Parent(db, i) != Some(m)
  {
    if Parent(db, i).Some? { assert Up(db, Parent(db, i).value, k - 1) == Some(m); }
  }

  lemma {:induction false} OneWayOnly(before: Rows, now: Rows, m: MessageId, p: MessageId)
    requires Acyclic(before) && Up(before, p, MAX_REPLY_DEPTH) == Some(m)
    ensures !JustBelow(before, now, m, p)
  {
    if Up(before, p, MAX_REPLY_DEPTH + 1) == Some(m) { OneWay(before, p, m, MAX_REPLY_DEPTH, MAX_REPLY_DEPTH + 1); }
  }

  /** With no automatic reply exactly six citations below `m`, every automatic reply is settled afterwards. */
  lemma {:induction false} ShallowThreadsSettle(before: Rows, now: Rows, facts: Facts, m: MessageId, audits: seq<Audit>, i: MessageId)
    requires UniqueExternal(before) && Acyclic(before) && m in before && OthersSettled(before, facts, m)
    requires Progress(before, now, facts, Dependents(before, m), MAX_REPLY_DEPTH, audits)
    requires forall x {:trigger Up(before, x, MAX_REPLY_DEPTH + 1)} :: x in before && Automatic(before[x]) ==>
      Up(before, x, MAX_REPLY_DEPTH + 1) != Some(m)
    requires i in before && Automatic(before[i])
    ensures Automatic(now[i]) && Settled(now, facts, i)
  {
    StaleExactly(before, now, facts, m, audits, i);
  }

  // ---- how far a context gets ------------------------------------------------------------------

  /** From i up to its k-th ancestor, each message is an automatic reply within its retention. */
  ghost predicate ChainOpen(db: Rows, facts: Facts, i: MessageId, k: nat)
    decreases k
  {
    k == 0 || (
      && i in db && Automatic(db[i]) && db[i].expires > facts.now
      && Parent(db, i).Some? && ChainOpen(db, facts, Parent(db, i).value, k - 1))
  }

  /** A message others may inherit from, with a context that validates for its contact. */
  predicate Inheritable(db: Rows, facts: Facts, m: MessageId) {
    && m in db && db[m].context.company.Some? && !db[m].anonymized && db[m].expires > facts.now
    && Validate(facts, db[m].context, RecipientOf(facts, db[m].conversation)).Some?
  }

  /** What the replies to a message take from it. */
  function Handed(db: Rows, facts: Facts, m: MessageId): Resolved
    requires Inheritable(db, facts, m)
  {
    Resolved(Validate(facts, db[m].context, RecipientOf(facts, db[m].conversation)).value, ReplyContext)
  }

  /** Down to the last level every reply of an open chain carries what `m` hands on. */
  lemma {:induction false} ChainFollows(before: Rows, now: Rows, facts: Facts, m: MessageId, audits: seq<Audit>, i: MessageId, k: nat)
    requires UniqueExternal(before) && Acyclic(before) && Inheritable(before, facts, m) && OthersSettled(before, facts, m)
    requires Progress(before, now, facts, Dependents(before, m), MAX_REPLY_DEPTH, audits)
    requires 1 <= k <= MAX_REPLY_DEPTH && Up(before, i, k) == Some(m) && ChainOpen(before, facts, i, k)
    ensures i in now && Automatic(now[i]) && Settled(now, facts, i)
    ensures Resolved(now[i].context, now[i].how) == Handed(before, facts, m)
    decreases k
  {
    var p := Parent(before, i).value;
    SameParent(before, now, i);
    assert LinksKept(before, now, i);
    AfterReevaluation(before, now, facts, m, audits, i);
    StaleExactly(before, now, facts, m, audits, i);
    if Up(before, i, MAX_REPLY_DEPTH + 1) == Some(m) { OneWay(before, i, m, k, MAX_REPLY_DEPTH + 1); }
    if k == 1 {
      assert p == m by { assert Up(before, p, 0) == Some(m); }
    } else {
      assert LinksKept(before, now, p);
      ChainFollows(before, now, facts, m, audits, p, k - 1);
      FollowsSettled(now, facts, i);
    }
  }

  /** One citation further down the old attribution stays, and it is right exactly if it says what `m` hands on. */
  lemma {:induction false} SixthReplyStays(before: Rows, now: Rows, facts: Facts, m: MessageId, audits: seq<Audit>, i: MessageId)
    requires UniqueExternal(before) && Acyclic(before) && Inheritable(before, facts, m) && OthersSettled(before, facts, m)
    requires Progress(before, now, facts, Dependents(before, m), MAX_REPLY_DEPTH, audits)
    requires Up(before, i, MAX_REPLY_DEPTH + 1) == Some(m) && ChainOpen(before, facts, i, MAX_REPLY_DEPTH + 1)
    ensures now[i] == before[i]
    ensures Settled(now, facts, i) <==> Resolved(before[i].context, before[i].how) == Handed(before, facts, m)
  {
    var p := Parent(before, i).value;
    assert Up(before, p, MAX_REPLY_DEPTH) == Some(m);
    ChainFollows(before, now, facts, m, audits, p, MAX_REPLY_DEPTH);
    SameParent(before, now, i);
    assert LinksKept(before, now, p) && LinksKept(before, now, i);
    AfterReevaluation(before, now, facts, m, audits, i);
    BelowTheLimit(before, m, i);
    FollowsSettled(now, facts, i);
  }
}
