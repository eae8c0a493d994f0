/**
 The content an approval binds: equal digests stand for equal contents here, so the digest is
 the content itself, with its lines as a multiset because their order is normalized away.
 */
module PaymentContent {
  import opened Common

  type ItemId = nat
  type AccountId = nat

  datatype Destination = Destination(
    documentType: string, document: string, pixKey: Option<string>,
    bankIspb: Option<string>, bankAgency: Option<string>,
    bankAccount: Option<string>, bankAccountType: Option<string>)

  datatype HashedItem = HashedItem(destination: Destination, amountCents: nat)

  /** Items are sorted by document before hashing, so only the collection of items counts. */
  datatype Content = Content(
    reference: string, issuer: AccountId, totalCents: nat, items: multiset<HashedItem>)

  ghost function Pick(m: map<ItemId, HashedItem>): (k: ItemId)
    requires m != map[]
    ensures k in m
  {
    var k :| k in m; k
  }

  ghost function Lines(m: map<ItemId, HashedItem>): (r: multiset<HashedItem>)
    decreases |m|
  {
    if m == map[] then multiset{} else
      var k := Pick(m);
      multiset{m[k]} + Lines(m - {k})
  }

  ghost function Total(m: map<ItemId, HashedItem>): (r: nat)
    decreases |m|
  {
    if m == map[] then 0 else
      var k := Pick(m);
      m[k].amountCents + Total(m - {k})
  }

  ghost function ContentOf(reference: string, issuer: AccountId, m: map<ItemId, HashedItem>): Content {
    Content(reference, issuer, Total(m), Lines(m))
  }

  /** Which item is taken out first does not matter. */
  lemma {:induction false} TakeOneTotal(m: map<ItemId, HashedItem>, k: ItemId)
    requires k in m
    ensures Total(m) == m[k].amountCents + Total(m - {k})
    decreases |m|
  {
    var j := Pick(m);
    if j != k {
      TakeOneTotal(m - {j}, k);
      assert m - {j} - {k} == m - {k} - {j};
      TakeOneTotal(m - {k}, j);
    }
  }

  lemma {:induction false} TakeOneLine(m: map<ItemId, HashedItem>, k: ItemId)
    requires k in m
    ensures Lines(m) == multiset{m[k]} + Lines(m - {k})
    decreases |m|
  {
    var j := Pick(m);
    if j != k {
      var rest := m - {j} - {k};
      assert rest == m - {k} - {j};
      TakeOneLine(m - {j}, k);
      TakeOneLine(m - {k}, j);
      Exchanged(m[j], m[k], Lines(m), Lines(m - {j}), Lines(m - {k}), Lines(rest));
    }
  }

  lemma {:induction false} Exchanged(x: HashedItem, y: HashedItem, all: multiset<HashedItem>, withoutX: multiset<HashedItem>,
                                     withoutY: multiset<HashedItem>, rest: multiset<HashedItem>)
    requires all == multiset{x} + withoutX && withoutX == multiset{y} + rest && withoutY == multiset{x} + rest
    ensures all == multiset{y} + withoutY
  {}

  /** A part of the items never adds up to more than all of them. */
  lemma {:induction false} PartOfTotal(part: map<ItemId, HashedItem>, m: map<ItemId, HashedItem>)
    requires part.Keys <= m.Keys && forall k :: k in part ==> part[k] == m[k]
    ensures Total(part) <= Total(m)
    decreases |m|
  {
    if part != map[] {
      var k :| k in part;
      TakeOneTotal(part, k);
      TakeOneTotal(m, k);
      PartOfTotal(part - {k}, m - {k});
    }
  }

  /** Every item of the batch is one of the authorized lines. */
  lemma {:induction false} LineIsListed(m: map<ItemId, HashedItem>, k: ItemId)
    requires k in m
    ensures m[k] in Lines(m)
  {
    TakeOneLine(m, k);
  }

  /** The total is decided by the lines alone, whichever ids the items have. */
  lemma {:induction false} LinesFixTotal(m: map<ItemId, HashedItem>, n: map<ItemId, HashedItem>)
    requires Lines(m) == Lines(n)
    ensures Total(m) == Total(n)
    decreases |m|
  {
    if m == map[] {
      if k :| k in n {
        LineIsListed(n, k);
        assert false;
      }
    } else {
      var k := Pick(m);
      LineIsListed(m, k);
      var j := FindLine(n, m[k]);
      TakeOneTotal(n, j);
      TakeOneLine(n, j);
      SameRest(Lines(m - {k}), Lines(n - {j}), m[k]);
      LinesFixTotal(m - {k}, n - {j});
    }
  }

  lemma {:induction false} SameRest(a: multiset<HashedItem>, b: multiset<HashedItem>, line: HashedItem)
    requires multiset{line} + a == multiset{line} + b
    ensures a == b
  {
    assert a == multiset{line} + a - multiset{line};
    assert b == multiset{line} + b - multiset{line};
  }

  lemma {:induction false} FindLine(m: map<ItemId, HashedItem>, line: HashedItem) returns (k: ItemId)
    requires line in Lines(m)
    ensures k in m && m[k] == line
    decreases |m|
  {
    var j :| j in m;
    TakeOneLine(m, j);
    if m[j] == line {
      k := j;
    } else {
      k := FindLine(m - {j}, line);
    }
  }
}
