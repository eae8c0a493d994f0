/** When a context is valid, when a message hands it on, and what a message resolves to, condition by condition. */
module ReplyMeaning {
  import opened Common
  import opened ReplyModel
  import opened ReplyThreads

  /** The context with the debtor its invoice has. */
  function Completed(facts: Facts, c: Context): Context {
    if c.company.Some? && c.invoice.Some? && c.invoice.value in facts.invoices
    then c.(debtor := Some(facts.invoices[c.invoice.value].debtor)) else c
  }

  /** Nothing at all is valid; with a company, exactly what completed belongs together and to the contact, and keeps a debtor that was given. */
  lemma {:induction false} ValidateMeans(facts: Facts, c: Context, to: Recipient)
    ensures c.company.None? ==> Validate(facts, c, to) == if c == NO_CONTEXT then Some(c) else None
    ensures c.company.Some? ==> var whole := Completed(facts, c);
      Validate(facts, c, to) == if Coherent(facts, whole, to) && (c.debtor.Some? ==> whole.debtor == c.debtor) then Some(whole) else None
  {}

  /** A message hands its company on within its conversation and channel, while it is kept. */
  predicate HandsOn(facts: Facts, source: Message, ref: Reference) {
    && source.context.company.Some? && source.conversation == ref.conversation && source.channel == Some(ref.channel)
    && !source.anonymized && facts.now < source.expires
  }

  lemma {:induction false} InheritMeans(facts: Facts, source: Option<Message>, ref: Reference)
    ensures Inherit(facts, source, ref) ==
      if source.Some? && HandsOn(facts, source.value, ref) then Validate(facts, source.value.context, ref.recipient) else None
  {}

  /** The message a button was issued with, or else the one cited, decides; without either there is nothing. */
  lemma {:induction false} ResolveMeans(db: Rows, facts: Facts, ref: Reference, cited: MessageId)
    requires UniqueExternal(db)
    ensures var r := Resolve(db, facts, ref);
      var issued := if ref.token.Some? && ref.token.value in facts.tokens && facts.tokens[ref.token.value] in db
                    then Some(db[facts.tokens[ref.token.value]]) else None;
      var pressed := issued.Some? && issued.value.outbound && Inherit(facts, issued, ref).Some?;
      var answers := cited in db && ref.replyTo.Some? && db[cited].external == ref.replyTo;
      && (pressed ==> r == Resolved(Inherit(facts, issued, ref).value, InteractiveContext))
      && (!pressed && answers && Inherit(facts, Some(db[cited]), ref).Some? ==> r == Resolved(Inherit(facts, Some(db[cited]), ref).value, ReplyContext))
      && (!pressed && answers && Inherit(facts, Some(db[cited]), ref).None? ==> r == Resolved(NO_CONTEXT, Unassigned))
      && (!pressed && (forall i :: i in db && db[i].external.Some? ==> db[i].external != ref.replyTo) ==> r == Resolved(NO_CONTEXT, Unassigned))
  {}

  /** What a re-evaluation may change: what the program resolved itself, of no send of its own, kept and with a channel. */
  lemma {:induction false} AutomaticMeans(x: Message)
    ensures Automatic(x) <==> (x.how == Unassigned || x.how == ReplyContext) && !x.hasIntent && !x.anonymized && x.channel.Some?
  {}

  /** The message cited is the one whose provider id is answered, of that conversation and channel. */
  lemma {:induction false} ParentMeans(db: Rows, i: MessageId, p: MessageId)
    requires UniqueExternal(db) && i in db && p in db
    ensures Parent(db, i) == Some(p) <==> (
      && db[p].external.Some? && db[i].replyTo == db[p].external && db[i].conversation == db[p].conversation
      && db[p].channel.Some? && db[i].channel == db[p].channel)
  {
    ParentIs(db, p, i);
  }

  /** A new attribution counts the revision on and leaves the message itself; five levels are looked at below the first message. */
  lemma {:induction false} UpdateMeans(x: Message, to: Resolved, depth: nat)
    ensures Reattributed(x, to) == x.(context := to.context, how := to.how, revision := Reattributed(x, to).revision)
    ensures Reattributed(x, to).revision - x.revision == 1
    ensures Levels(depth) == if depth < 5 then 5 - depth else 0
  {}
}
