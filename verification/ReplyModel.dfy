/**
 Attribution of inbound messages. A reply takes its company, invoice and debtor from the
 message it cites, and citations are the only thing a context spreads along.
 */
module ReplyModel {
  import opened Common

  type MessageId = nat
  type ExternalId = nat
  type ConversationId = nat
  type ChannelId = nat
  type EntityId = nat
  type Hash = nat
  type TokenHash = nat

  const MAX_REPLY_DEPTH := 5
  const REPLY_BATCH := 100

  datatype Context = Context(company: Option<EntityId>, invoice: Option<EntityId>, debtor: Option<EntityId>)

  datatype Attribution = Unassigned | OutboundContext | ReplyContext | InteractiveContext | Manual | Legacy

  datatype Message = Message(
    external: Option<ExternalId>, conversation: ConversationId, channel: Option<ChannelId>,
    replyTo: Option<ExternalId>, context: Context, how: Attribution, revision: nat,
    outbound: bool, hasIntent: bool, anonymized: bool, expires: int)

  datatype Recipient = Recipient(hash: Hash, phone: bool)

  datatype Invoice = Invoice(company: EntityId, debtor: EntityId)

  datatype Debtor = Debtor(company: EntityId, phone: Option<Hash>)

  /** What the transaction reads besides messages; none of it changes while it runs. */
  datatype Facts = Facts(
    conversations: map<ConversationId, Recipient>, companies: set<EntityId>,
    invoices: map<EntityId, Invoice>, debtors: map<EntityId, Debtor>,
    tokens: map<TokenHash, MessageId>, now: int)

  type Rows = map<MessageId, Message>

  datatype Reference = Reference(
    conversation: ConversationId, recipient: Recipient, channel: ChannelId,
    replyTo: Option<ExternalId>, token: Option<TokenHash>)

  datatype Resolved = Resolved(context: Context, how: Attribution)

  const NO_CONTEXT := Context(None, None, None)

  /** The context completed with the debtor of its invoice, or nothing where rows and contact contradict it. */
  function Validate(facts: Facts, c: Context, to: Recipient): Option<Context> {
    if c.company.None? then if c.invoice.Some? || c.debtor.Some? then None else Some(c)
    else if !to.phone || c.company.value !in facts.companies then None
    else if c.invoice.None? then Belongs(facts, c, to)
    else if c.invoice.value !in facts.invoices then None
    else
      var invoice := facts.invoices[c.invoice.value];
      if invoice.company != c.company.value || (c.debtor.Some? && c.debtor.value != invoice.debtor) then None
      else Belongs(facts, c.(debtor := Some(invoice.debtor)), to)
  }

  function Belongs(facts: Facts, c: Context, to: Recipient): Option<Context>
    requires c.company.Some?
  {
    if c.debtor.None? then Some(c)
    else if c.debtor.value !in facts.debtors then None
    else
      var debtor := facts.debtors[c.debtor.value];
      if debtor.company != c.company.value || debtor.phone != Some(to.hash) then None else Some(c)
  }

  function Inherit(facts: Facts, source: Option<Message>, ref: Reference): Option<Context> {
    if source.None? || source.value.context.company.None? || source.value.conversation != ref.conversation
      || source.value.channel != Some(ref.channel) || source.value.anonymized || source.value.expires <= facts.now
    then None
    else Validate(facts, source.value.context, ref.recipient)
  }

  /** External ids are unique. */
  ghost predicate UniqueExternal(db: Rows) {
    forall i, j :: i in db && j in db && db[i].external.Some? && db[i].external == db[j].external ==> i == j
  }

  ghost function Find(db: Rows, external: ExternalId): (r: Option<MessageId>)
    ensures r.Some? ==> r.value in db && db[r.value].external == Some(external)
    ensures r.None? ==> forall i :: i in db ==> db[i].external != Some(external)
  {
    if i :| i in db && db[i].external == Some(external) then Some(i) else None
  }

  function Row(db: Rows, i: Option<MessageId>): Option<Message> {
    if i.Some? && i.value in db then Some(db[i.value]) else None
  }

  ghost function ByReply(db: Rows, facts: Facts, ref: Reference): Resolved {
    var context := if ref.replyTo.Some? then Inherit(facts, Row(db, Find(db, ref.replyTo.value)), ref) else None;
    if context.Some? then Resolved(context.value, ReplyContext) else Resolved(NO_CONTEXT, Unassigned)
  }

  ghost function Resolve(db: Rows, facts: Facts, ref: Reference): Resolved {
    var issued := if ref.token.Some? && ref.token.value in facts.tokens then Row(db, Some(facts.tokens[ref.token.value])) else None;
    var context := if issued.Some? && issued.value.outbound then Inherit(facts, issued, ref) else None;
    if context.Some? then Resolved(context.value, InteractiveContext) else ByReply(db, facts, ref)
  }

  function RecipientOf(facts: Facts, conversation: ConversationId): Recipient {
    if conversation in facts.conversations then facts.conversations[conversation] else Recipient(0, false)
  }

  function ReferenceOf(facts: Facts, x: Message): Reference
    requires x.channel.Some?
  {
    Reference(x.conversation, RecipientOf(facts, x.conversation), x.channel.value, x.replyTo, None)
  }

  /** Resolved by the program and still open to be resolved again. */
  predicate Automatic(x: Message) {
    x.how in {Unassigned, ReplyContext} && !x.hasIntent && !x.anonymized && x.channel.Some?
  }

  /** The stored attribution is what resolving the message now would give. */
  ghost predicate Settled(db: Rows, facts: Facts, i: MessageId)
    requires i in db && db[i].channel.Some?
  {
    Resolved(db[i].context, db[i].how) == Resolve(db, facts, ReferenceOf(facts, db[i]))
  }

  predicate Cites(x: Message, source: Message) {
    && source.external.Some? && source.channel.Some?
    && x.replyTo == source.external && x.conversation == source.conversation && x.channel == source.channel
  }

  // ---- citations -------------------------------------------------------------------------

  ghost function Parent(db: Rows, i: MessageId): (r: Option<MessageId>)
    ensures r.Some? ==> i in db && r.value in db && Cites(db[i], db[r.value])
  {
    if i in db && db[i].replyTo.Some? && Find(db, db[i].replyTo.value).Some?
      && Cites(db[i], db[Find(db, db[i].replyTo.value).value])
    then Find(db, db[i].replyTo.value) else None
  }

  ghost function Up(db: Rows, i: MessageId, k: nat): Option<MessageId>
    decreases k
  {
    if k == 0 then Some(i) else
    var parent := Parent(db, i);
    if parent.None? then None else Up(db, parent.value, k - 1)
  }

  /** No message cites itself, directly or through others. */
  ghost predicate Acyclic(db: Rows) {
    forall i: nat, k: nat {:trigger Up(db, i, k)} :: k > 0 ==> Up(db, i, k) != Some(i)
  }

  lemma {:induction false} UpAdds(db: Rows, i: MessageId, a: nat, b: nat)
    requires Up(db, i, a).Some?
    ensures Up(db, i, a + b) == Up(db, Up(db, i, a).value, b)
    decreases a
  {
    if a > 0 { UpAdds(db, Parent(db, i).value, a - 1, b); }
  }

  /** The replies to one message have disjoint threads below them. */
  lemma {:induction false} ThreadsDisjoint(db: Rows, m: MessageId, i: MessageId, c: MessageId, a: nat, d: MessageId, b: nat)
    requires Acyclic(db) && Up(db, i, a) == Some(c) && Up(db, i, b) == Some(d)
    requires Parent(db, c) == Some(m) && Parent(db, d) == Some(m)
    ensures c == d && a == b
  {
    assert Up(db, c, 1) == Up(db, m, 0) && Up(db, d, 1) == Up(db, m, 0);
    UpAdds(db, i, a, 1);
    UpAdds(db, i, b, 1);
    if a < b { UpAdds(db, i, a + 1, b - a); assert false; }
    if b < a { UpAdds(db, i, b + 1, a - b); assert false; }
  }

  /** Only attributions differ. */
  predicate SameLinks(x: Message, y: Message) {
    y == x.(context := y.context, how := y.how, revision := y.revision)
  }

  predicate LinksKept(before: Rows, now: Rows, i: MessageId) {
    i in before && i in now ==> SameLinks(before[i], now[i])
  }

  ghost predicate SameThreads(before: Rows, now: Rows) {
    && before.Keys == now.Keys
    && (forall i {:trigger LinksKept(before, now, i)} :: LinksKept(before, now, i))
  }

  lemma {:induction false} SameParent(before: Rows, now: Rows, i: MessageId)
    requires UniqueExternal(before) && SameThreads(before, now)
    ensures UniqueExternal(now) && Parent(now, i) == Parent(before, i)
  {
    forall x, y | x in now && y in now && now[x].external.Some? && now[x].external == now[y].external ensures x == y {
      assert LinksKept(before, now, x) && LinksKept(before, now, y);
    }
    assert LinksKept(before, now, i);
    if i in before && before[i].replyTo.Some? {
      SameFind(before, now, before[i].replyTo.value);
      var cited := Find(before, before[i].replyTo.value);
      if cited.Some? { assert LinksKept(before, now, cited.value); }
    }
  }

  lemma {:induction false} SameFind(before: Rows, now: Rows, external: ExternalId)
    requires UniqueExternal(before) && SameThreads(before, now)
    ensures Find(now, external) == Find(before, external)
  {
    forall i | i in before ensures now[i].external == before[i].external { assert LinksKept(before, now, i); }
  }

  lemma {:induction false} SameUp(before: Rows, now: Rows, i: MessageId, k: nat)
    requires UniqueExternal(before) && SameThreads(before, now)
    ensures Up(now, i, k) == Up(before, i, k)
    decreases k
  {
    SameParent(before, now, i);
    if k > 0 && Parent(before, i).Some? { SameUp(before, now, Parent(before, i).value, k - 1); }
  }

  lemma {:induction false} SameAcyclic(before: Rows, now: Rows)
    requires UniqueExternal(before) && SameThreads(before, now) && Acyclic(before)
    ensures Acyclic(now)
  {
    forall i: nat, k: nat ensures k > 0 ==> Up(now, i, k) != Some(i) { SameUp(before, now, i, k); }
  }

  /** A reply stays settled while it and the message it cites keep their rows. */
  lemma {:induction false} SettledKept(before: Rows, now: Rows, facts: Facts, i: MessageId)
    requires UniqueExternal(before) && SameThreads(before, now)
    requires i in before && before[i].channel.Some? && now[i] == before[i]
    requires Parent(before, i).Some? ==> now[Parent(before, i).value] == before[Parent(before, i).value]
    ensures Settled(now, facts, i) == Settled(before, facts, i)
  {
    if before[i].replyTo.Some? {
      var external := before[i].replyTo.value;
      SameFind(before, now, external);
      var source := Find(before, external);
      if source.Some? && !Cites(before[i], before[source.value]) {
        assert LinksKept(before, now, source.value);
        assert Inherit(facts, Row(before, source), ReferenceOf(facts, before[i])) == None;
        assert Inherit(facts, Row(now, source), ReferenceOf(facts, before[i])) == None;
      }
    }
  }

  /** All replies to one message resolve alike. */
  lemma {:induction false} RepliesAlike(db: Rows, facts: Facts, m: MessageId, i: MessageId)
    requires m in db && i in db && Cites(db[i], db[m])
    ensures Resolve(db, facts, ReferenceOf(facts, db[i])) ==
      Resolve(db, facts, Reference(db[m].conversation, RecipientOf(facts, db[m].conversation), db[m].channel.value, db[m].external, None))
  {}

  lemma {:induction false} ParentIs(db: Rows, m: MessageId, i: MessageId)
    requires UniqueExternal(db) && m in db && i in db
    ensures Parent(db, i) == Some(m) <==> Cites(db[i], db[m])
  {}

  // ---- what an inherited context guarantees ------------------------------------------------

  /** Context that belongs together and to the recipient, with the debtor of its invoice. */
  predicate Coherent(facts: Facts, c: Context, to: Recipient) {
    && c.company.Some? && c.company.value in facts.companies && to.phone
    && (c.invoice.Some? ==>
         && c.invoice.value in facts.invoices && facts.invoices[c.invoice.value].company == c.company.value
         && c.debtor == Some(facts.invoices[c.invoice.value].debtor))
    && (c.debtor.Some? ==>
         && c.debtor.value in facts.debtors && facts.debtors[c.debtor.value].company == c.company.value
         && facts.debtors[c.debtor.value].phone == Some(to.hash))
  }

  /** Validation keeps company and invoice, completes the debtor, and is done once and for all. */
  lemma {:induction false} ValidateCoherent(facts: Facts, c: Context, to: Recipient)
    requires Validate(facts, c, to).Some? && c.company.Some?
    ensures var v := Validate(facts, c, to).value;
      && Coherent(facts, v, to) && v.company == c.company && v.invoice == c.invoice
      && (c.debtor.Some? ==> v.debtor == c.debtor)
      && Validate(facts, v, to) == Some(v)
  {}

  /**
   A settled reply either carries nothing, or the company and invoice of the message it cites,
   which belong together and to the contact of the conversation.
   */
  lemma {:induction false} SettledBelongs(db: Rows, facts: Facts, i: MessageId)
    requires UniqueExternal(db) && i in db && Automatic(db[i]) && Settled(db, facts, i)
    ensures db[i].how == Unassigned ==> db[i].context == NO_CONTEXT
    ensures db[i].how == ReplyContext ==>
      && Parent(db, i).Some?
      && var source := db[Parent(db, i).value];
         && Coherent(facts, db[i].context, RecipientOf(facts, db[i].conversation))
         && db[i].context.company == source.context.company && db[i].context.invoice == source.context.invoice
         && !source.anonymized && source.expires > facts.now
  {
    if db[i].how == ReplyContext {
      var source := db[Find(db, db[i].replyTo.value).value];
      ValidateCoherent(facts, source.context, RecipientOf(facts, db[i].conversation));
    }
  }
}
