/** A conversation of seven messages, each citing the one before, whose first message gets a company. */
module ReplyRuns {
  import opened Common
  import opened ReplyModel
  import opened ReplyThreads
  import opened ReplyService

  const COMPANY := Context(Some(1), None, None)
  const FACTS := Facts(map[0 := Recipient(0, true)], {1}, map[], map[], map[], 0)

  /** Message i, kept far into the future. */
  function Link(i: MessageId, context: Context, how: Attribution, revision: nat): Message {
    Message(Some(i), 0, Some(0), if i == 0 then None else Some(i - 1), context, how, revision, false, false, false, 1000)
  }

  function Thread(): Rows { map i: MessageId | 0 <= i < 7 :: Link(i, NO_CONTEXT, Unassigned, 0) }

  lemma {:induction false} ThreadParents(db: Rows, i: MessageId)
    requires db == Thread()
    ensures UniqueExternal(db)
    ensures Parent(db, i) == if 1 <= i < 7 then Some(i - 1) else None
  {
    if 1 <= i < 7 { assert Cites(db[i], db[i - 1]); ParentIs(db, i - 1, i); }
  }

  lemma {:induction false} ThreadUp(db: Rows, i: MessageId, k: nat)
    requires db == Thread()
    ensures k > 0 ==> Up(db, i, k) == if k <= i < 7 then Some(i - k) else None
    decreases k
  {
    ThreadParents(db, i);
    if k > 1 && 1 <= i < 7 { ThreadUp(db, i - 1, k - 1); }
  }

  lemma {:induction false} ThreadSettled(db: Rows)
    requires db == Thread()
    ensures UniqueExternal(db) && Acyclic(db) && AllSettled(db, FACTS)
  {
    ThreadParents(db, 0);
    forall i: nat, k: nat ensures k > 0 ==> Up(db, i, k) != Some(i) { ThreadUp(db, i, k); }
  }

  /** The i-th reply took the company. */
  lemma {:induction false} TakesCompany(was: Rows, end: Rows, i: MessageId)
    requires was == Thread() && 1 <= i <= MAX_REPLY_DEPTH
    requires Spread(was, end, FACTS, 0, Resolved(COMPANY, Manual))
    ensures Automatic(end[i]) && Settled(end, FACTS, i) && end[i].context == COMPANY && end[i].how == ReplyContext
    decreases i
  {
    ThreadParents(was, i);
    ThreadUp(was, i, MAX_REPLY_DEPTH + 1);
    SameParent(was, end, i);
    assert LinksKept(was, end, i) && LinksKept(was, end, i - 1);
    if i > 1 { TakesCompany(was, end, i - 1); }
    assert SpreadRow(was, end, FACTS, 0, i);
    if i > 1 { FollowsSettled(end, FACTS, i); }
  }

  /** Five replies take the company, the sixth is left without it although resolving it now would give it. */
  method SevenMessages() returns (was: Rows, end: Rows)
    ensures |was| == 7 && UniqueExternal(was) && Acyclic(was) && AllSettled(was, FACTS)
    ensures Spread(was, end, FACTS, 0, Resolved(COMPANY, Manual))
    ensures forall i :: 1 <= i <= MAX_REPLY_DEPTH ==> i in end && end[i].context == COMPANY && end[i].how == ReplyContext
    ensures 6 in end && end[6] == was[6] && Automatic(end[6]) && !Settled(end, FACTS, 6)
  {
    was := Thread();
    ThreadSettled(was);
    SevenRows(was);
    var store := new ReplyStore(FACTS, was);
    var accepted := store.AssignContext(0, 0, COMPANY, Manual);
    end := store.messages;
    SixthLeft(was, end);
  }

  lemma {:induction false} SixthLeft(was: Rows, end: Rows)
    requires was == Thread() && Spread(was, end, FACTS, 0, Resolved(COMPANY, Manual))
    ensures forall i :: 1 <= i <= MAX_REPLY_DEPTH ==> i in end && end[i].context == COMPANY && end[i].how == ReplyContext
    ensures 6 in end && end[6] == was[6] && Automatic(end[6]) && !Settled(end, FACTS, 6)
  {
    ThreadSettled(was);
    forall i | 1 <= i <= MAX_REPLY_DEPTH ensures i in end && end[i].context == COMPANY && end[i].how == ReplyContext {
      TakesCompany(was, end, i);
    }
    ThreadUp(was, 6, MAX_REPLY_DEPTH + 1);
    ThreadParents(was, 6);
    AssignedSettles(was, end, FACTS, 0, Resolved(COMPANY, Manual), 6);
    assert SpreadRow(was, end, FACTS, 0, 6);
  }

  lemma {:induction false} SevenRows(db: Rows)
    requires db == Thread()
    ensures |db| == 7
  {
    assert db.Keys == {0, 1, 2, 3, 4, 5, 6};
    assert |db.Keys| == |db|;
  }
}
