/**
 The re-evaluation as it runs: dependents read in id pages, each updated only if nobody
 changed it meanwhile, each change logged and followed to the replies that cite it.
 */
module ReplyService {
  import opened Common
  import opened ReplyModel
  import opened ReplyThreads

  /** A dependent as its page read it. */
  datatype Seen = Seen(id: MessageId, row: Message)

  predicate Ascending(page: seq<Seen>) {
    forall a, b :: 0 <= a < b < |page| ==> page[a].id < page[b].id
  }

  function Ids(page: seq<Seen>): set<MessageId> { set n | 0 <= n < |page| :: page[n].id }

  class ReplyStore {
    var messages: Rows
    var audits: seq<Audit>
    const facts: Facts

    constructor (facts: Facts, messages: Rows)
      ensures this.facts == facts && this.messages == messages && audits == []
    {
      this.facts, this.messages, audits := facts, messages, [];
    }

    method FindExternal(external: ExternalId) returns (r: Option<MessageId>)
      requires UniqueExternal(messages)
      ensures r == Find(messages, external)
    {
      var todo := messages.Keys;
      while todo != {}
        invariant todo <= messages.Keys
        invariant forall i :: i in messages && i !in todo ==> messages[i].external != Some(external)
        decreases |todo|
      {
        var i :| i in todo;
        if messages[i].external == Some(external) { return Some(i); }
        todo := todo - {i};
      }
      return None;
    }

    method InheritFrom(source: Option<Message>, ref: Reference) returns (r: Option<Context>)
      ensures r == Inherit(facts, source, ref)
    {
      if source.None? || source.value.context.company.None? || source.value.conversation != ref.conversation
        || source.value.channel.None? || source.value.channel.value != ref.channel
        || source.value.anonymized || source.value.expires <= facts.now
      {
        return None;
      }
      r := Validate(facts, source.value.context, ref.recipient);
    }

    method ResolveInbound(ref: Reference) returns (r: Resolved)
      requires UniqueExternal(messages)
      ensures r == Resolve(messages, facts, ref)
    {
      if ref.token.Some? && ref.token.value in facts.tokens {
        var issued := Row(messages, Some(facts.tokens[ref.token.value]));
        if issued.Some? && issued.value.outbound {
          var context := InheritFrom(issued, ref);
          if context.Some? { return Resolved(context.value, InteractiveContext); }
        }
      }
      if ref.replyTo.Some? {
        var cited := FindExternal(ref.replyTo.value);
        var context := InheritFrom(Row(messages, cited), ref);
        if context.Some? { return Resolved(context.value, ReplyContext); }
      }
      return Resolved(NO_CONTEXT, Unassigned);
    }

    /** The next `take` dependents by id. */
    method FindDependents(source: Message, after: int, take: nat) returns (page: seq<Seen>)
      requires take >= 1
      ensures |page| <= take && Ascending(page)
      ensures forall n :: 0 <= n < |page| ==> page[n].id in messages && page[n].row == messages[page[n].id]
      ensures forall n :: 0 <= n < |page| ==> after < page[n].id && Cites(page[n].row, source) && Automatic(page[n].row)
      ensures forall i :: i in messages && after < i && Cites(messages[i], source) && Automatic(messages[i]) ==>
        i in Ids(page) || (|page| == take && page[|page| - 1].id < i)
    {
      var all := set i | i in messages && after < i && Cites(messages[i], source) && Automatic(messages[i]);
      var ids := Smallest(all, take);
      page := seq(|ids|, n requires 0 <= n < |ids| && ids[n] in messages reads this => Seen(ids[n], messages[ids[n]]));
      forall i | i in ids ensures i in Ids(page) {
        var n :| 0 <= n < |ids| && ids[n] == i;
        assert page[n].id == i;
      }
    }

    method NextPage(source: Message, after: int, take: nat, ghost m: MessageId, ghost before: Rows,
                    ghost levels: nat, ghost logged: seq<Audit>, ghost to: Resolved) returns (page: seq<Seen>)
      requires UniqueExternal(before) && Acyclic(before) && m in before && source == before[m] && take >= 1
      requires Progress(before, messages, facts, UpTo(before, m, after), levels, logged) && ResolvesTo(before, facts, source, to)
      ensures IsPage(before, facts, m, UpTo(before, m, after), page, to) && PageEnds(before, m, after, page, take)
    {
      page := FindDependents(source, after, take);
      PageIsNext(before, messages, facts, m, UpTo(before, m, after), levels, logged, page, source, after, take);
      SamePage(before, facts, m, UpTo(before, m, after), page, to);
    }

    /** Nothing happens to a dependent somebody changed since it was read. */
    method UpdateAttribution(seen: Seen, to: Resolved) returns (updated: bool)
      modifies this
      ensures updated <==> (
        && seen.id in old(messages) && old(messages)[seen.id].revision == seen.row.revision
        && old(messages)[seen.id].how == seen.row.how)
      ensures !updated ==> messages == old(messages) && audits == old(audits)
      ensures updated ==>
        && messages == old(messages)[seen.id := Reattributed(old(messages)[seen.id], to)]
        && audits == old(audits) + [Audit(seen.id, seen.row.context, to.context, to.how, seen.row.revision + 1)]
    {
      if seen.id !in messages || messages[seen.id].revision != seen.row.revision || messages[seen.id].how != seen.row.how {
        return false;
      }
      var x := messages[seen.id];
      messages := messages[seen.id := x.(context := to.context, how := to.how, revision := x.revision + 1)];
      audits := audits + [Audit(seen.id, seen.row.context, to.context, to.how, seen.row.revision + 1)];
      return true;
    }

    /** The reply itself takes what it resolves to, and its change is logged. */
    method ChangeReply(seen: Seen, to: Resolved, ghost m: MessageId) returns (ghost audit: Audit)
      requires UniqueExternal(messages) && Acyclic(messages)
      requires m in messages && seen.id in Dependents(messages, m) && seen.row == messages[seen.id]
      requires to == Resolve(messages, facts, ReferenceOf(facts, seen.row)) && (to.how != seen.row.how || to.context != seen.row.context)
      modifies this
      ensures Changed(old(messages), messages, facts, seen.id) && UniqueExternal(messages) && Acyclic(messages)
      ensures AuditTrue(old(messages), messages, audit) && audit.message == seen.id && audits == old(audits) + [audit]
    {
      UpdateSettles(messages, facts, m, seen.id, to);
      var updated := UpdateAttribution(seen, to);
      audit := Audit(seen.id, seen.row.context, to.context, to.how, seen.row.revision + 1);
    }

    method VisitReply(seen: Seen, to: Resolved, depth: nat, take: nat, ghost m: MessageId) returns (ghost logged: seq<Audit>)
      requires UniqueExternal(messages) && Acyclic(messages) && take >= 1 && depth < MAX_REPLY_DEPTH
      requires m in messages && seen.id in Dependents(messages, m) && seen.row == messages[seen.id]
      requires to == Resolve(messages, facts, ReferenceOf(facts, seen.row))
      modifies this
      ensures Progress(old(messages), messages, facts, {seen.id}, Levels(depth), logged)
      ensures audits == old(audits) + logged
      decreases Levels(depth), 0
    {
      if to.how == seen.row.how && to.context == seen.row.context {
        Skipped(messages, facts, seen.id, Levels(depth));
        return [];
      }
      ghost var was := messages;
      ghost var audit := ChangeReply(seen, to, m);
      ghost var now := messages;
      ghost var below := ReevaluateReplies(seen.id, depth + 1, take);
      Descended(was, now, messages, facts, m, seen.id, Levels(depth), audit, below);
      logged := [audit] + below;
      Regrouped(old(audits), [audit], below);
    }

    /** Row n of a page; `logged` grows by what it and its thread log. */
    method VisitNth(page: seq<Seen>, n: nat, to: Resolved, depth: nat, take: nat, ghost m: MessageId, ghost before: Rows,
                    ghost tops: set<MessageId>, ghost first: seq<Audit>, ghost logged: seq<Audit>, ghost start: seq<Audit>)
      returns (ghost all: seq<Audit>)
      requires UniqueExternal(before) && Acyclic(before) && take >= 1 && depth < MAX_REPLY_DEPTH
      requires IsPage(before, facts, m, tops, page, to) && n < |page| && audits == start + logged
      requires Progress(before, messages, facts, tops + Ids(page[..n]), Levels(depth), first + logged)
      modifies this
      ensures Progress(before, messages, facts, tops + Ids(page[..n + 1]), Levels(depth), first + all) && audits == start + all
      decreases Levels(depth), 1
    {
      ghost var visited := tops + Ids(page[..n]);
      PageStep(page, n);
      PageSeen(before, facts, m, tops, page, to, n);
      TurnReady(before, messages, facts, m, visited, Levels(depth), first + logged, page[n].id);
      SameDependents(before, messages, facts, m, visited, Levels(depth), first + logged);
      ghost var now := messages;
      ghost var more := VisitReply(page[n], to, depth, take, m);
      Composed(before, now, messages, facts, m, visited, page[n].id, Levels(depth), first + logged, more);
      all := logged + more;
      Regrouped(first, logged, more);
      Regrouped(start, logged, more);
      assert visited + {page[n].id} == tops + Ids(page[..n + 1]);
    }

    method VisitPage(page: seq<Seen>, to: Resolved, depth: nat, take: nat, ghost m: MessageId,
                     ghost before: Rows, ghost tops: set<MessageId>, ghost first: seq<Audit>) returns (ghost logged: seq<Audit>)
      requires UniqueExternal(before) && Acyclic(before) && take >= 1 && depth < MAX_REPLY_DEPTH
      requires IsPage(before, facts, m, tops, page, to)
      requires Progress(before, messages, facts, tops, Levels(depth), first)
      modifies this
      ensures Progress(before, messages, facts, tops + Ids(page), Levels(depth), first + logged)
      ensures audits == old(audits) + logged
      decreases Levels(depth), 2
    {
      logged := [];
      assert first + logged == first && tops + Ids(page[..0]) == tops;
      for n := 0 to |page|
        invariant Progress(before, messages, facts, tops + Ids(page[..n]), Levels(depth), first + logged)
        invariant audits == old(audits) + logged
      {
        logged := VisitNth(page, n, to, depth, take, m, before, tops, first, logged, old(audits));
      }
      assert page[..|page|] == page;
    }

    /** Re-resolves every automatic reply to `m`, and on from those that changed. */
    method ReevaluateReplies(m: MessageId, depth: nat, take: nat) returns (ghost logged: seq<Audit>)
      requires UniqueExternal(messages) && Acyclic(messages) && take >= 1
      modifies this
      ensures Progress(old(messages), messages, facts, Dependents(old(messages), m), Levels(depth), logged)
      ensures audits == old(audits) + logged
      decreases Levels(depth), 5
    {
      if depth >= MAX_REPLY_DEPTH {
        NoLevels(messages, facts, Dependents(messages, m));
        return [];
      }
      if m !in messages || messages[m].external.None? || messages[m].channel.None? {
        NoDependents(messages, facts, m, Levels(depth));
        return [];
      }
      var source := messages[m];
      var to := ResolveInbound(Reference(
        source.conversation, RecipientOf(facts, source.conversation), source.channel.value, source.external, None));
      logged := VisitDependents(m, source, to, depth, take);
    }

    /** One page after another in id order; `last` is where the next one starts. */
    method VisitNextPage(source: Message, to: Resolved, depth: nat, take: nat, after: int, ghost m: MessageId, ghost before: Rows,
                         ghost logged: seq<Audit>, ghost start: seq<Audit>) returns (last: Option<int>, ghost all: seq<Audit>)
      requires UniqueExternal(before) && Acyclic(before) && take >= 1 && depth < MAX_REPLY_DEPTH
      requires m in before && source == before[m] && ResolvesTo(before, facts, source, to) && audits == start + logged
      requires Progress(before, messages, facts, UpTo(before, m, after), Levels(depth), logged)
      modifies this
      ensures Progress(before, messages, facts, Passed(before, m, last), Levels(depth), all) && audits == start + all
      ensures last.Some? ==> |UpTo(before, m, after)| < |UpTo(before, m, last.value)| <= |Dependents(before, m)|
      decreases Levels(depth), 3
    {
      var page := NextPage(source, after, take, m, before, Levels(depth), logged, to);
      ghost var more := VisitPage(page, to, depth, take, m, before, UpTo(before, m, after), logged);
      Regrouped(start, logged, more);
      all := logged + more;
      PageDone(before, facts, m, after, page, take, to);
      last := if |page| < take then None else Some(page[|page| - 1].id);
    }

    method VisitDependents(m: MessageId, source: Message, to: Resolved, depth: nat, take: nat) returns (ghost logged: seq<Audit>)
      requires UniqueExternal(messages) && Acyclic(messages) && take >= 1 && depth < MAX_REPLY_DEPTH
      requires m in messages && source == messages[m] && ResolvesTo(messages, facts, source, to)
      modifies this
      ensures Progress(old(messages), messages, facts, Dependents(old(messages), m), Levels(depth), logged)
      ensures audits == old(audits) + logged
      decreases Levels(depth), 4
    {
      ghost var before := messages;
      var after: int := -1;
      logged := [];
      NoTops(messages, facts, m, Levels(depth));
      while true
        invariant Progress(before, messages, facts, UpTo(before, m, after), Levels(depth), logged)
        invariant audits == old(audits) + logged
        decreases |Dependents(before, m)| - |UpTo(before, m, after)|
      {
        var last;
        last, logged := VisitNextPage(source, to, depth, take, after, m, before, logged, old(audits));
        if last.None? { return; }
        after := last.value;
      }
    }

    method SetContext(m: MessageId, expectedRevision: nat, context: Context, how: Attribution) returns (accepted: bool)
      modifies this
      ensures accepted <==> Assignable(old(messages), facts, m, expectedRevision, context, how)
      ensures !accepted ==> messages == old(messages) && audits == old(audits)
      ensures accepted ==>
        && messages == old(messages)[m := Reattributed(old(messages)[m], AssignedTo(old(messages), facts, m, context, how))]
        && audits == old(audits) + [Audit(m, old(messages)[m].context, messages[m].context, how, expectedRevision + 1)]
    {
      if m !in messages || messages[m].hasIntent || messages[m].anonymized || messages[m].expires <= facts.now {
        return false;
      }
      var valid := Validate(facts, context, RecipientOf(facts, messages[m].conversation));
      if valid.None? || messages[m].revision != expectedRevision { return false; }
      if how == Unassigned && valid.value.company.Some? { return false; }
      var x := messages[m];
      messages := messages[m := x.(context := valid.value, how := how, revision := x.revision + 1)];
      audits := audits + [Audit(m, x.context, valid.value, how, expectedRevision + 1)];
      return true;
    }

    /** A changed context spreads at once to the replies that follow it, whatever was stale before. */
    method AssignContext(m: MessageId, expectedRevision: nat, context: Context, how: Attribution) returns (accepted: bool)
      requires UniqueExternal(messages) && Acyclic(messages)
      modifies this
      ensures accepted <==> Assignable(old(messages), facts, m, expectedRevision, context, how)
      ensures !accepted ==> messages == old(messages) && audits == old(audits)
      ensures accepted ==> Spread(old(messages), messages, facts, m, AssignedTo(old(messages), facts, m, context, how))
    {
      ghost var was := messages;
      accepted := SetContext(m, expectedRevision, context, how);
      if !accepted { return; }
      ghost var now := messages;
      SameParent(was, now, m);
      SameAcyclic(was, now);
      ghost var logged := ReevaluateReplies(m, 0, REPLY_BATCH);
      AssignSpreads(was, now, messages, facts, m, AssignedTo(was, facts, m, context, how), logged);
    }
  }

  ghost predicate AllSettled(db: Rows, facts: Facts) {
    forall x :: x in db && Automatic(db[x]) ==> Settled(db, facts, x)
  }

  /** No method says unassigned for a message that has a company. */
  predicate Assignable(db: Rows, facts: Facts, m: MessageId, expectedRevision: nat, context: Context, how: Attribution) {
    && m in db && !db[m].hasIntent && !db[m].anonymized && db[m].expires > facts.now && db[m].revision == expectedRevision
    && var valid := Validate(facts, context, RecipientOf(facts, db[m].conversation));
       valid.Some? && (how == Unassigned ==> valid.value.company.None?)
  }

  function AssignedTo(db: Rows, facts: Facts, m: MessageId, context: Context, how: Attribution): Resolved
    requires m in db && Validate(facts, context, RecipientOf(facts, db[m].conversation)).Some?
  {
    Resolved(Validate(facts, context, RecipientOf(facts, db[m].conversation)).value, how)
  }

  /** One row after a new context of `m`: a reply is settled if the message it cites changed, except one citation below the last level. */
  ghost predicate SpreadRow(was: Rows, end: Rows, facts: Facts, m: MessageId, x: MessageId) {
    x in was && x in end && x != m ==>
      && (end[x] != was[x] ==>
           && Automatic(was[x]) && Automatic(end[x]) && Renewed(was[x], end[x])
           && ParentChanged(was, end, x) && Under(was, Dependents(was, m), MAX_REPLY_DEPTH, x))
      && (Automatic(was[x]) ==>
           && (JustBelow(was, end, m, x) ==> end[x] == was[x])
           && (ParentChanged(was, end, x) && !JustBelow(was, end, m, x) ==> Automatic(end[x]) && Settled(end, facts, x))
           && (!ParentChanged(was, end, x) ==> Settled(end, facts, x) == Settled(was, facts, x)))
  }

  /** `m` got its context; only automatic replies in the threads below it followed, five levels down. */
  ghost predicate Spread(was: Rows, end: Rows, facts: Facts, m: MessageId, to: Resolved) {
    && m in was && SameThreads(was, end) && end[m] == Reattributed(was[m], to)
    && (forall x {:trigger SpreadRow(was, end, facts, m, x)} :: SpreadRow(was, end, facts, m, x))
  }

  /** The `take` smallest ids, in order. */
  method Smallest(all: set<MessageId>, take: nat) returns (ids: seq<MessageId>)
    ensures |ids| <= take && forall n :: 0 <= n < |ids| ==> ids[n] in all
    ensures forall a, b :: 0 <= a < b < |ids| ==> ids[a] < ids[b]
    ensures forall i :: i in all && i !in ids ==> |ids| == take && forall n :: 0 <= n < |ids| ==> ids[n] < i
  {
    var rest := all;
    ids := [];
    while rest != {} && |ids| < take
      invariant |ids| <= take && rest <= all
      invariant forall n :: 0 <= n < |ids| ==> ids[n] in all
      invariant forall a, b :: 0 <= a < b < |ids| ==> ids[a] < ids[b]
      invariant forall i :: i in all && i !in rest ==> i in ids
      invariant forall i, n :: i in rest && 0 <= n < |ids| ==> ids[n] < i
      decreases |rest|
    {
      var i := Least(rest);
      ids := ids + [i];
      rest := rest - {i};
    }
  }

  method Least(s: set<MessageId>) returns (i: MessageId)
    requires s != {}
    ensures i in s && forall j :: j in s ==> i <= j
  {
    i :| i in s;
    var rest := s - {i};
    while rest != {}
      invariant i in s && rest <= s && forall j :: j in s && j !in rest ==> i <= j
      decreases |rest|
    {
      var j :| j in rest;
      if j < i { i := j; }
      rest := rest - {j};
    }
  }

  /** The replies to the message resolve to this. */
  ghost predicate ResolvesTo(db: Rows, facts: Facts, source: Message, to: Resolved) {
    && source.external.Some? && source.channel.Some?
    && to == Resolve(db, facts, Reference(
         source.conversation, RecipientOf(facts, source.conversation), source.channel.value, source.external, None))
  }

  /** As read, and resolving as the whole page does. */
  ghost predicate PageRow(db: Rows, facts: Facts, seen: Seen, to: Resolved) {
    && seen.id in db && seen.row == db[seen.id] && seen.row.channel.Some?
    && to == Resolve(db, facts, ReferenceOf(facts, seen.row))
  }

  /** Replies to `m` not visited before, in id order. */
  ghost predicate IsPage(db: Rows, facts: Facts, m: MessageId, tops: set<MessageId>, page: seq<Seen>, to: Resolved) {
    && m in db && tops <= Dependents(db, m) && Ascending(page) && Ids(page) <= Dependents(db, m) && Ids(page) !! tops
    && (forall n :: 0 <= n < |page| ==> PageRow(db, facts, page[n], to))
  }

  /** What the page leaves out comes after it, and only a full page leaves anything out. */
  ghost predicate PageEnds(db: Rows, m: MessageId, after: int, page: seq<Seen>, take: nat)
    requires take >= 1
  {
    |page| <= take && forall i :: i in Dependents(db, m) && i !in UpTo(db, m, after) ==>
      i in Ids(page) || (|page| == take && page[|page| - 1].id < i)
  }

  lemma {:induction false} PageSeen(db: Rows, facts: Facts, m: MessageId, tops: set<MessageId>, page: seq<Seen>, to: Resolved, n: nat)
    requires IsPage(db, facts, m, tops, page, to) && n < |page|
    ensures page[n].id in Dependents(db, m) && page[n].id !in tops && tops + Ids(page[..n]) <= Dependents(db, m) && PageRow(db, facts, page[n], to)
  {
    assert page[n].id in Ids(page) && PageRow(db, facts, page[n], to);
    forall i | i in Ids(page[..n]) ensures i in Ids(page) { var k :| 0 <= k < n && page[..n][k].id == i; assert page[k].id == i; }
  }

  // ---- pages -----------------------------------------------------------------------------

  lemma {:induction false} IdsGrow(page: seq<Seen>, seen: Seen)
    ensures Ids(page + [seen]) == Ids(page) + {seen.id}
  {
    var all := page + [seen];
    forall i | i in Ids(page) + {seen.id} ensures i in Ids(all) {
      if i == seen.id { assert all[|page|].id == i; }
      else { var n :| 0 <= n < |page| && page[n].id == i; assert all[n].id == i; }
    }
  }

  lemma {:induction false} PageStep(page: seq<Seen>, n: nat)
    requires n < |page| && Ascending(page)
    ensures Ids(page[..n + 1]) == Ids(page[..n]) + {page[n].id} && page[n].id !in Ids(page[..n])
  {
    IdsGrow(page[..n], page[n]);
    assert page[..n + 1] == page[..n] + [page[n]];
  }

  lemma {:induction false} NoTops(db: Rows, facts: Facts, m: MessageId, levels: nat)
    ensures Progress(db, db, facts, UpTo(db, m, -1), levels, [])
  {
    assert UpTo(db, m, -1) == {};
  }

  lemma {:induction false} NoDependents(db: Rows, facts: Facts, m: MessageId, levels: nat)
    requires m !in db || db[m].external.None? || db[m].channel.None?
    ensures Progress(db, db, facts, Dependents(db, m), levels, [])
  {
    assert Dependents(db, m) == {};
  }

  /** A page holds the next dependents, unchanged since the start. */
  lemma {:induction false} PageIsNext(before: Rows, now: Rows, facts: Facts, m: MessageId, tops: set<MessageId>, levels: nat, audits: seq<Audit>,
                                      page: seq<Seen>, source: Message, after: int, take: nat)
    requires UniqueExternal(before) && Acyclic(before) && m in before && source == before[m]
    requires Progress(before, now, facts, tops, levels, audits)
    requires tops == UpTo(before, m, after)
    requires forall n :: 0 <= n < |page| ==> (
      && page[n].id in now && page[n].row == now[page[n].id]
      && after < page[n].id && Cites(page[n].row, source) && Automatic(page[n].row))
    requires take >= 1
    requires forall i :: i in now && after < i && Cites(now[i], source) && Automatic(now[i]) ==>
      i in Ids(page) || (|page| == take && page[|page| - 1].id < i)
    ensures Ids(page) <= Dependents(before, m) && Ids(page) !! tops
    ensures forall n :: 0 <= n < |page| ==> (
      && page[n].id in before && page[n].row == before[page[n].id] && page[n].row.channel.Some?)
    ensures forall i :: i in Dependents(before, m) && i !in tops ==>
      i in Ids(page) || (|page| == take && page[|page| - 1].id < i)
  {
    SameDependents(before, now, facts, m, tops, levels, audits);
    forall c | c in Dependents(before, m) ensures Parent(before, c) == Some(m) { ParentIs(before, m, c); }
    Untouched(before, now, facts, m, tops, levels, audits, m, m, 0);
    forall n | 0 <= n < |page| ensures page[n].id in Dependents(before, m) && page[n].row == before[page[n].id] {
      assert page[n].id in Dependents(now, m);
      Untouched(before, now, facts, m, tops, levels, audits, page[n].id, page[n].id, 0);
    }
    forall i | i in Dependents(before, m) && i !in tops ensures i in Ids(page) || (|page| == take && page[|page| - 1].id < i) {
      assert i in Dependents(now, m);
    }
  }

  lemma {:induction false} Regrouped(a: seq<Audit>, b: seq<Audit>, c: seq<Audit>)
    ensures a + b + c == a + (b + c)
  {}

  lemma {:induction false} SamePage(db: Rows, facts: Facts, m: MessageId, tops: set<MessageId>, page: seq<Seen>, to: Resolved)
    requires m in db && tops <= Dependents(db, m) && Ascending(page) && Ids(page) <= Dependents(db, m) && Ids(page) !! tops
    requires forall n :: 0 <= n < |page| ==> (
      && page[n].id in db && page[n].row == db[page[n].id] && page[n].row.channel.Some?)
    requires ResolvesTo(db, facts, db[m], to)
    ensures IsPage(db, facts, m, tops, page, to)
  {
    forall n | 0 <= n < |page| ensures PageRow(db, facts, page[n], to) {
      assert page[n].id in Ids(page);
      RepliesAlike(db, facts, m, page[n].id);
    }
  }

  ghost function UpTo(db: Rows, m: MessageId, after: int): set<MessageId> {
    set i | i in Dependents(db, m) && i <= after
  }

  ghost function Passed(db: Rows, m: MessageId, last: Option<int>): set<MessageId> {
    if last.None? then Dependents(db, m) else UpTo(db, m, last.value)
  }

  /** A full page moves on to its last id; a page that is not full was the last one. */
  lemma {:induction false} PageDone(db: Rows, facts: Facts, m: MessageId, after: int, page: seq<Seen>, take: nat, to: Resolved)
    requires take >= 1 && IsPage(db, facts, m, UpTo(db, m, after), page, to) && PageEnds(db, m, after, page, take)
    ensures |page| < take ==> UpTo(db, m, after) + Ids(page) == Dependents(db, m)
    ensures |page| == take ==> (
      && UpTo(db, m, after) + Ids(page) == UpTo(db, m, page[take - 1].id)
      && |UpTo(db, m, after)| < |UpTo(db, m, page[take - 1].id)| <= |Dependents(db, m)|)
  {
    if |page| == take {
      var last := page[take - 1].id;
      assert last in Ids(page);
      forall i | i in Ids(page) ensures i <= last { var n :| 0 <= n < |page| && page[n].id == i; }
      forall i | i in UpTo(db, m, after) ensures i <= last { assert last !in UpTo(db, m, after); }
      assert UpTo(db, m, after) + Ids(page) == UpTo(db, m, last);
      SubsetSize(UpTo(db, m, after) + {last}, UpTo(db, m, last));
      SubsetSize(UpTo(db, m, last), Dependents(db, m));
    }
  }

  lemma {:induction false} SubsetSize(a: set<MessageId>, b: set<MessageId>)
    requires a <= b
    ensures |a| <= |b|
  {
    assert b == a + (b - a);
  }

  // ---- assignment ------------------------------------------------------------------------

  lemma {:induction false} AssignSpreads(was: Rows, now: Rows, end: Rows, facts: Facts, m: MessageId, to: Resolved, logged: seq<Audit>)
    requires UniqueExternal(was) && Acyclic(was) && UniqueExternal(now) && Acyclic(now) && SameThreads(was, now) && m in was
    requires now == was[m := Reattributed(was[m], to)]
    requires Progress(now, end, facts, Dependents(now, m), MAX_REPLY_DEPTH, logged)
    ensures Spread(was, end, facts, m, to)
  {
    forall i ensures LinksKept(was, end, i) { assert LinksKept(was, now, i) && LinksKept(now, end, i); }
    forall c | c in Dependents(now, m) ensures Parent(now, c) == Some(m) { ParentIs(now, m, c); }
    Untouched(now, end, facts, m, Dependents(now, m), MAX_REPLY_DEPTH, logged, m, m, 0);
    forall x ensures SpreadRow(was, end, facts, m, x) {
      if x in was && x in end && x != m { RowSpreads(was, now, end, facts, m, logged, x); }
    }
  }

  lemma {:induction false} RowSpreads(was: Rows, now: Rows, end: Rows, facts: Facts, m: MessageId, logged: seq<Audit>, x: MessageId)
    requires UniqueExternal(was) && Acyclic(was) && UniqueExternal(now) && Acyclic(now) && SameThreads(was, now) && m in was
    requires m in now && now == was[m := now[m]] && now[m] != was[m] && m in end && end[m] == now[m]
    requires Progress(now, end, facts, Dependents(now, m), MAX_REPLY_DEPTH, logged)
    requires x in was && x in end && x != m
    ensures SpreadRow(was, end, facts, m, x)
  {
    SameParent(was, now, x);
    SameUp(was, now, x, MAX_REPLY_DEPTH + 1);
    ParentIs(now, m, x);
    assert x in Dependents(now, m) <==> Automatic(now[x]) && Parent(now, x) == Some(m);
    assert KeptOutside(now, end, Dependents(now, m), MAX_REPLY_DEPTH, x);
    if end[x] != was[x] { SameUnder(was, now, m, x); }
    if Automatic(was[x]) {
      AfterReevaluation(now, end, facts, m, logged, x);
      if !ParentChanged(was, end, x) { SettledKept(was, now, facts, x); }
      if JustBelow(was, end, m, x) && Parent(was, x) == Some(m) { NotNear(was, m, x, MAX_REPLY_DEPTH + 1); }
    }
  }

  lemma {:induction false} NotItsOwn(db: Rows, m: MessageId)
    requires UniqueExternal(db) && Acyclic(db) && m in db
    ensures !Cites(db[m], db[m])
  {
    ParentIs(db, m, m);
    assert Up(db, m, 1) == if Parent(db, m).Some? then Up(db, Parent(db, m).value, 0) else None;
  }

  lemma {:induction false} SameUnder(was: Rows, now: Rows, m: MessageId, x: MessageId)
    requires UniqueExternal(was) && Acyclic(was) && SameThreads(was, now) && m in was && m in now && now == was[m := now[m]]
    requires Under(now, Dependents(now, m), MAX_REPLY_DEPTH, x)
    ensures Under(was, Dependents(was, m), MAX_REPLY_DEPTH, x)
  {
    var k: nat :| k < MAX_REPLY_DEPTH && Up(now, x, k).Some? && Up(now, x, k).value in Dependents(now, m);
    SameUp(was, now, x, k);
    assert LinksKept(was, now, m);
    NotItsOwn(was, m);
    assert Dependents(now, m) <= Dependents(was, m);
  }

  /** From a settled database, all of it is settled again but for replies one citation below the last level under a changed, unexpired message. */
  lemma {:induction false} AssignedSettles(was: Rows, end: Rows, facts: Facts, m: MessageId, to: Resolved, x: MessageId)
    requires UniqueExternal(was) && Acyclic(was) && AllSettled(was, facts) && Spread(was, end, facts, m, to)
    requires x in was && x != m && Automatic(was[x])
    ensures Automatic(end[x])
    ensures !Settled(end, facts, x) <==> JustBelow(was, end, m, x) && was[Parent(was, x).value].expires > facts.now
  {
    assert SpreadRow(was, end, facts, m, x) && LinksKept(was, end, x);
    if JustBelow(was, end, m, x) {
      var p := Parent(was, x).value;
      assert Up(was, p, MAX_REPLY_DEPTH) == Some(m) && Up(was, p, 0) == Some(p);
      assert SpreadRow(was, end, facts, m, p) && LinksKept(was, end, p);
      OneWayOnly(was, end, m, p);
      SameParent(was, end, x);
      FollowsSettled(was, facts, x);
      FollowsSettled(end, facts, x);
    }
  }
}
