/**
 The canonical payload: a walk over a graph of objects that refuses cycles, depth beyond 64
 and anything that is not plain JSON, and prints the value the graph stands for.
 */
module CanonicalJson {
  import opened Common
  import opened JsonText

  type Ref = nat

  const MAX_DEPTH := 64

  /** What a property or an argument can hold; `Other` is undefined, a function, NaN, a bigint or a symbol. */
  datatype Value =
    | NullValue
    | Boolean(truth: bool)
    | Number(digits: Text)
    | Chars(text: Text)
    | Other
    | Object(ref: Ref)

  /** An array, a record of own enumerable keys in insertion order, or an instance of some class. */
  datatype Cell =
    | Array(items: seq<Value>, symbols: bool)
    | Plain(fields: seq<(Text, Value)>, symbols: bool)
    | Instance

  type Heap = map<Ref, Cell>

  /** Keys of one object differ, and numbers print as their canonical digits. */
  predicate CellFits(c: Cell) {
    match c
    case Array(items, _) => forall k :: 0 <= k < |items| ==> ValueFits(items[k])
    case Plain(fields, _) =>
      && (forall k :: 0 <= k < |fields| ==> ValueFits(fields[k].1))
      && (forall a, b :: 0 <= a < b < |fields| ==> fields[a].0 != fields[b].0)
    case Instance => true
  }

  predicate ValueFits(v: Value) { v.Number? ==> NumberText(v.digits) }

  predicate HeapFits(heap: Heap) { forall r :: r in heap ==> CellFits(heap[r]) }

  // ---- the value a graph stands for ----------------------------------------------------------

  /** The JSON value found at a depth, if all of it is plain JSON no deeper than MAX_DEPTH. */
  function Denote(heap: Heap, v: Value, depth: nat): Option<Json>
    decreases if depth > MAX_DEPTH then 0 else MAX_DEPTH + 1 - depth, 1, 0
  {
    if depth > MAX_DEPTH then None else
    match v
    case NullValue => Some(Null)
    case Boolean(truth) => Some(Bool(truth))
    case Number(digits) => Some(Num(digits))
    case Chars(text) => Some(Str(text))
    case Other => None
    case Object(ref) =>
      if ref !in heap then None else
      match heap[ref]
      case Instance => None
      case Array(items, symbols) =>
        var list := DenoteItems(heap, items, depth);
        if symbols || list.None? then None else Some(List(list.value))
      case Plain(fields, symbols) =>
        var record := DenoteFields(heap, fields, depth);
        if symbols || record.None? then None else Some(Record(record.value))
  }

  function DenoteItems(heap: Heap, items: seq<Value>, depth: nat): (r: Option<seq<Json>>)
    requires depth <= MAX_DEPTH
    ensures r.Some? ==> |r.value| == |items|
    decreases MAX_DEPTH + 1 - depth, 0, |items|
  {
    if items == [] then Some([]) else
    var front := DenoteItems(heap, items[..|items| - 1], depth);
    var last := Denote(heap, items[|items| - 1], depth + 1);
    if front.None? || last.None? then None else Some(front.value + [last.value])
  }

  function DenoteFields(heap: Heap, fields: seq<(Text, Value)>, depth: nat): Option<map<Text, Json>>
    requires depth <= MAX_DEPTH
    decreases MAX_DEPTH + 1 - depth, 0, |fields|
  {
    if fields == [] then Some(map[]) else
    var front := DenoteFields(heap, fields[..|fields| - 1], depth);
    var last := Denote(heap, fields[|fields| - 1].1, depth + 1);
    if front.None? || last.None? then None else Some(front.value[fields[|fields| - 1].0 := last.value])
  }

  lemma {:induction false} ItemsDenoted(heap: Heap, items: seq<Value>, depth: nat)
    requires depth <= MAX_DEPTH
    ensures DenoteItems(heap, items, depth).Some? <==> forall k :: 0 <= k < |items| ==> Denote(heap, items[k], depth + 1).Some?
    ensures DenoteItems(heap, items, depth).Some? ==> forall k :: 0 <= k < |items| ==>
      Denote(heap, items[k], depth + 1) == Some(DenoteItems(heap, items, depth).value[k])
    decreases |items|
  {
    if items != [] {
      var front := items[..|items| - 1];
      ItemsDenoted(heap, front, depth);
      forall k | 0 <= k < |front| ensures front[k] == items[k] {}
    }
  }

  lemma {:induction false} FieldsDenoted(heap: Heap, fields: seq<(Text, Value)>, depth: nat)
    requires depth <= MAX_DEPTH && forall a, b :: 0 <= a < b < |fields| ==> fields[a].0 != fields[b].0
    ensures DenoteFields(heap, fields, depth).Some? <==> forall k :: 0 <= k < |fields| ==> Denote(heap, fields[k].1, depth + 1).Some?
    ensures DenoteFields(heap, fields, depth).Some? ==>
      var record := DenoteFields(heap, fields, depth).value;
      && (forall key :: key in record <==> HasKey(fields, key))
      && (forall k :: 0 <= k < |fields| ==> fields[k].0 in record && Denote(heap, fields[k].1, depth + 1) == Some(record[fields[k].0]))
    decreases |fields|
  {
    if fields != [] {
      var front := fields[..|fields| - 1];
      FieldsDenoted(heap, front, depth);
      forall k | 0 <= k < |front| ensures front[k] == fields[k] {}
      if DenoteFields(heap, fields, depth).Some? {
        var record := DenoteFields(heap, fields, depth).value;
        forall key ensures key in record <==> HasKey(fields, key) { KeyAdded(fields, key); }
      }
    }
  }

  lemma {:induction false} KeyAdded(fields: seq<(Text, Value)>, key: Text)
    requires fields != []
    ensures HasKey(fields, key) <==> HasKey(fields[..|fields| - 1], key) || key == fields[|fields| - 1].0
  {
    var front := fields[..|fields| - 1];
    if HasKey(front, key) {
      var k :| 0 <= k < |front| && front[k].0 == key;
      assert fields[k].0 == key;
    }
    if HasKey(fields, key) && key != fields[|fields| - 1].0 {
      var k :| 0 <= k < |fields| && fields[k].0 == key;
      assert front[k].0 == key;
    }
  }

  /** What is denoted is proper JSON. */
  lemma {:induction false} DenotedProper(heap: Heap, v: Value, depth: nat)
    requires HeapFits(heap) && ValueFits(v) && Denote(heap, v, depth).Some?
    ensures Proper(Denote(heap, v, depth).value)
    decreases MAX_DEPTH + 1 - depth
  {
    if v.Object? && heap[v.ref].Array? {
      var items := heap[v.ref].items;
      ItemsDenoted(heap, items, depth);
      forall k | 0 <= k < |items| ensures Proper(DenoteItems(heap, items, depth).value[k]) { DenotedProper(heap, items[k], depth + 1); }
    } else if v.Object? {
      var fields := heap[v.ref].fields;
      FieldsDenoted(heap, fields, depth);
      var record := DenoteFields(heap, fields, depth).value;
      forall key | key in record ensures Proper(record[key]) {
        assert HasKey(fields, key);
        var k :| 0 <= k < |fields| && fields[k].0 == key;
        DenotedProper(heap, fields[k].1, depth + 1);
      }
    }
  }

  /** Two accepted payloads have the same text exactly when they are the same JSON up to key order. */
  lemma {:induction false} CanonicalInjective(heap: Heap, v: Value, other: Heap, w: Value)
    requires HeapFits(heap) && ValueFits(v) && Denote(heap, v, 0).Some?
    requires HeapFits(other) && ValueFits(w) && Denote(other, w, 0).Some?
    ensures Print(Denote(heap, v, 0).value) == Print(Denote(other, w, 0).value) <==> Denote(heap, v, 0) == Denote(other, w, 0)
  {
    DenotedProper(heap, v, 0);
    DenotedProper(other, w, 0);
    PrintInjective(Denote(heap, v, 0).value, Denote(other, w, 0).value);
  }

  // ---- cycles ----------------------------------------------------------------------------

  predicate Holds(heap: Heap, r: Ref, v: Value) {
    r in heap && match heap[r]
      case Array(items, _) => v in items
      case Plain(fields, _) => exists k :: 0 <= k < |fields| && fields[k].1 == v
      case Instance => false
  }

  /** Each object of the path holds the next one, and the last holds v. */
  predicate Leads(heap: Heap, path: seq<Ref>, v: Value) {
    && (forall k :: 0 <= k < |path| - 1 ==> Holds(heap, path[k], Object(path[k + 1])))
    && (path != [] ==> Holds(heap, path[|path| - 1], v))
  }

  lemma {:induction false} PartDenoted(heap: Heap, r: Ref, v: Value, depth: nat)
    requires HeapFits(heap) && Holds(heap, r, v) && Denote(heap, Object(r), depth).Some?
    ensures Denote(heap, v, depth + 1).Some?
  {
    match heap[r]
    case Array(items, _) =>
      ItemsDenoted(heap, items, depth);
      var k :| 0 <= k < |items| && items[k] == v;
      assert Denote(heap, items[k], depth + 1).Some?;
    case Plain(fields, _) =>
      FieldsDenoted(heap, fields, depth);
      var k :| 0 <= k < |fields| && fields[k].1 == v;
      assert Denote(heap, fields[k].1, depth + 1).Some?;
  }

  lemma {:induction false} PathDenoted(heap: Heap, path: seq<Ref>, v: Value, depth: nat)
    requires HeapFits(heap) && path != [] && Leads(heap, path, v) && Denote(heap, Object(path[0]), depth).Some?
    ensures Denote(heap, v, depth + |path|).Some?
    decreases |path|
  {
    if |path| == 1 {
      PartDenoted(heap, path[0], v, depth);
    } else {
      assert Holds(heap, path[0], Object(path[0 + 1]));
      PartDenoted(heap, path[0], Object(path[1]), depth);
      var rest := path[1..];
      forall k | 0 <= k < |rest| - 1 ensures Holds(heap, rest[k], Object(rest[k + 1])) {
        assert Holds(heap, path[k + 1], Object(path[k + 1 + 1]));
      }
      PathDenoted(heap, rest, v, depth + 1);
    }
  }

  /** An object inside itself stands for no JSON value, at any depth. */
  lemma {:induction false} CycleRejected(heap: Heap, path: seq<Ref>, depth: nat)
    requires HeapFits(heap) && path != [] && Leads(heap, path, Object(path[0]))
    ensures Denote(heap, Object(path[0]), depth).None?
    decreases MAX_DEPTH + 1 - Min(depth, MAX_DEPTH + 1)
  {
    if depth <= MAX_DEPTH {
      CycleRejected(heap, path, depth + |path|);
      if Denote(heap, Object(path[0]), depth).Some? { PathDenoted(heap, path, Object(path[0]), depth); }
    }
  }

  // ---- the walk --------------------------------------------------------------------------

  datatype Refused = TooDeep | NotJson

  ghost predicate PathOf(path: seq<Ref>, refs: set<Ref>) {
    && (forall a, b :: 0 <= a < b < |path| ==> path[a] != path[b])
    && (forall r :: r in refs <==> r in path)
  }

  class Canonicalizer {
    const heap: Heap
    var ancestors: set<Ref>

    constructor (heap: Heap)
      ensures this.heap == heap && ancestors == {}
    {
      this.heap, ancestors := heap, {};
    }

    /** Prints v, or refuses exactly what denotes no JSON; the ancestors are as before. */
    method Visit(v: Value, depth: nat, ghost path: seq<Ref>) returns (r: Result<Text, Refused>)
      requires HeapFits(heap) && ValueFits(v) && |path| == depth <= MAX_DEPTH + 1
      requires Leads(heap, path, v) && PathOf(path, ancestors)
      modifies this
      ensures r.Success? <==> Denote(heap, v, depth).Some?
      ensures r.Success? ==> r.value == Print(Denote(heap, v, depth).value) && ancestors == old(ancestors)
      ensures r.Failure? ==> Offends(heap, path, r.error)
      decreases MAX_DEPTH + 1 - depth, 2
    {
      if depth > MAX_DEPTH { assert Faulty(heap, path, v, TooDeep); return Failure(TooDeep); }
      assert Refusable(heap, path, v) ==> Faulty(heap, path, v, NotJson);
      match v
      case NullValue => return Success(NULL);
      case Boolean(truth) => return Success(if truth then TRUE else FALSE);
      case Number(digits) => return Success(digits);
      case Chars(text) => return Success(Quoted(text));
      case Other => return Failure(NotJson);
      case Object(ref) =>
        if ref in ancestors {
          InsideItself(heap, path, ref, depth);
          return Failure(NotJson);
        }
        if ref !in heap || heap[ref].Instance? || heap[ref].symbols { return Failure(NotJson); }
        ancestors := ancestors + {ref};
        LeadsOn(heap, path, ref);
        if heap[ref].Array? {
          r := VisitItems(heap[ref].items, depth, ref, path + [ref]);
        } else {
          r := VisitFields(heap[ref].fields, depth, ref, path + [ref]);
        }
        if r.Success? { ancestors := ancestors - {ref}; }
    }

    method VisitItems(items: seq<Value>, depth: nat, ref: Ref, ghost path: seq<Ref>) returns (r: Result<Text, Refused>)
      requires HeapFits(heap) && ref in heap && heap[ref].Array? && heap[ref].items == items && !heap[ref].symbols
      requires |path| == depth + 1 <= MAX_DEPTH + 1 && path[depth] == ref && Inside(heap, path) && PathOf(path, ancestors)
      modifies this
      ensures r.Success? <==> Denote(heap, Object(ref), depth).Some?
      ensures r.Success? ==> r.value == Print(Denote(heap, Object(ref), depth).value) && ancestors == old(ancestors)
      ensures r.Failure? ==> Offends(heap, path, r.error)
      decreases MAX_DEPTH + 1 - depth, 0
    {
      ItemsDenoted(heap, items, depth);
      assert CellFits(heap[ref]);
      var texts: seq<Text> := [];
      for n := 0 to |items|
        invariant ancestors == old(ancestors) && |texts| == n
        invariant forall k :: 0 <= k < n ==> Denote(heap, items[k], depth + 1).Some? && texts[k] == Print(Denote(heap, items[k], depth + 1).value)
      {
        assert Leads(heap, path, items[n]);
        var text := Visit(items[n], depth + 1, path);
        if text.Failure? { return text; }
        texts := texts + [text.value];
      }
      ListText(Denote(heap, Object(ref), depth).value, texts, 0);
      return Success([OPEN_LIST] + Join(texts) + [CLOSE_LIST]);
    }

    method VisitFields(fields: seq<(Text, Value)>, depth: nat, ref: Ref, ghost path: seq<Ref>) returns (r: Result<Text, Refused>)
      requires HeapFits(heap) && ref in heap && heap[ref].Plain? && heap[ref].fields == fields && !heap[ref].symbols
      requires |path| == depth + 1 <= MAX_DEPTH + 1 && path[depth] == ref && Inside(heap, path) && PathOf(path, ancestors)
      modifies this
      ensures r.Success? <==> Denote(heap, Object(ref), depth).Some?
      ensures r.Success? ==> r.value == Print(Denote(heap, Object(ref), depth).value) && ancestors == old(ancestors)
      ensures r.Failure? ==> Offends(heap, path, r.error)
      decreases MAX_DEPTH + 1 - depth, 1
    {
      assert CellFits(heap[ref]);
      var keys := SortedKeys(fields);
      var texts := VisitKeys(fields, keys, depth, ref, path);
      if texts.Failure? { return Failure(texts.error); }
      FieldsPrinted(heap, ref, depth, keys, texts.value);
      return Success([OPEN_RECORD] + Join(texts.value) + [CLOSE_RECORD]);
    }

    method VisitKeys(fields: seq<(Text, Value)>, keys: seq<Text>, depth: nat, ref: Ref, ghost path: seq<Ref>)
      returns (r: Result<seq<Text>, Refused>)
      requires HeapFits(heap) && ref in heap && heap[ref].Plain? && heap[ref].fields == fields && !heap[ref].symbols
      requires |path| == depth + 1 <= MAX_DEPTH + 1 && path[depth] == ref && Inside(heap, path) && PathOf(path, ancestors)
      requires forall key :: key in keys ==> HasKey(fields, key)
      modifies this
      ensures r.Failure? ==> DenoteFields(heap, fields, depth).None? && Offends(heap, path, r.error)
      ensures r.Success? ==> ancestors == old(ancestors) && |r.value| == |keys|
      ensures r.Success? ==> forall k :: 0 <= k < |keys| ==> FieldText(heap, fields, depth, keys[k], r.value[k])
      decreases MAX_DEPTH + 1 - depth, 0
    {
      assert CellFits(heap[ref]);
      var texts: seq<Text> := [];
      for n := 0 to |keys|
        invariant ancestors == old(ancestors) && |texts| == n
        invariant forall k :: 0 <= k < n ==> FieldText(heap, fields, depth, keys[k], texts[k])
      {
        var at := PositionOf(fields, keys[n]);
        assert Holds(heap, ref, fields[at].1);
        var text := Visit(fields[at].1, depth + 1, path);
        if text.Failure? {
          FieldsDenoted(heap, fields, depth);
          return Failure(text.error);
        }
        texts := texts + [Quoted(keys[n]) + [COLON] + text.value];
        assert FieldText(heap, fields, depth, keys[n], texts[n]);
      }
      return Success(texts);
    }
  }

  /** A value that is no JSON by itself: nothing plain, an object of its own ancestors, or one with symbols. */
  predicate Refusable(heap: Heap, path: seq<Ref>, v: Value) {
    v == Other || (v.Object? && (v.ref in path || v.ref !in heap || heap[v.ref].Instance? || heap[v.ref].symbols))
  }

  /** Sixty-five objects deep, or not JSON before that. */
  predicate Faulty(heap: Heap, path: seq<Ref>, v: Value, error: Refused) {
    Leads(heap, path, v) && if error == TooDeep then |path| == 65 else |path| <= 64 && Refusable(heap, path, v)
  }

  /** The fault is reached on some way that goes on from the one walked so far. */
  ghost predicate Offends(heap: Heap, path: seq<Ref>, error: Refused) {
    exists longer, v :: path <= longer && Faulty(heap, longer, v, error)
  }

  /** The objects from the root to the one being visited. */
  ghost predicate Inside(heap: Heap, path: seq<Ref>) {
    forall k :: 0 <= k < |path| - 1 ==> Holds(heap, path[k], Object(path[k + 1]))
  }

  lemma {:induction false} LeadsOn(heap: Heap, path: seq<Ref>, ref: Ref)
    requires Leads(heap, path, Object(ref))
    ensures Inside(heap, path + [ref])
  {
    var longer := path + [ref];
    forall k | 0 <= k < |longer| - 1 ensures Holds(heap, longer[k], Object(longer[k + 1])) {
      if k < |path| - 1 { assert Holds(heap, path[k], Object(path[k + 1])); }
    }
  }

  lemma {:induction false} InsideItself(heap: Heap, path: seq<Ref>, ref: Ref, depth: nat)
    requires HeapFits(heap) && Leads(heap, path, Object(ref)) && ref in path
    ensures Denote(heap, Object(ref), depth).None?
  {
    var n :| 0 <= n < |path| && path[n] == ref;
    var cycle := path[n..];
    forall k | 0 <= k < |cycle| - 1 ensures Holds(heap, cycle[k], Object(cycle[k + 1])) {
      assert Holds(heap, path[n + k], Object(path[n + k + 1]));
    }
    CycleRejected(heap, cycle, depth);
  }

  // ---- joining ---------------------------------------------------------------------------

  function Join(texts: seq<Text>): Text {
    if texts == [] then [] else texts[0] + (if |texts| == 1 then [] else [COMMA] + Join(texts[1..]))
  }

  lemma {:induction false} ListText(j: Json, texts: seq<Text>, n: nat)
    requires j.List? && |texts| == |j.items| && n <= |texts|
    requires forall k :: 0 <= k < |texts| ==> texts[k] == Print(j.items[k])
    ensures Join(texts[n..]) == PrintItems(j, n)
    decreases |texts| - n
  {
    if n < |texts| { ListText(j, texts, n + 1); assert texts[n..][1..] == texts[n + 1..]; }
  }

  lemma {:induction false} RecordText(j: Json, keys: seq<Text>, texts: seq<Text>, n: nat)
    requires j.Record? && |texts| == |keys| && n <= |texts| && forall k :: k in keys ==> k in j.fields
    requires forall k :: 0 <= k < |texts| ==> texts[k] == Quoted(keys[k]) + [COLON] + Print(j.fields[keys[k]])
    ensures Join(texts[n..]) == PrintFields(j, keys, n)
    decreases |texts| - n
  {
    if n < |texts| { RecordText(j, keys, texts, n + 1); assert texts[n..][1..] == texts[n + 1..]; }
  }

  // ---- keys ------------------------------------------------------------------------------

  predicate HasKey(fields: seq<(Text, Value)>, key: Text) { exists k :: 0 <= k < |fields| && fields[k].0 == key }

  method PositionOf(fields: seq<(Text, Value)>, key: Text) returns (at: nat)
    requires HasKey(fields, key)
    ensures at < |fields| && fields[at].0 == key
  {
    at := 0;
    while fields[at].0 != key
      invariant at < |fields| && forall k :: 0 <= k < at ==> fields[k].0 != key
      decreases |fields| - at
    {
      at := at + 1;
    }
  }

  method SortedKeys(fields: seq<(Text, Value)>) returns (keys: seq<Text>)
    requires forall a, b :: 0 <= a < b < |fields| ==> fields[a].0 != fields[b].0
    ensures Ascending(keys) && forall key :: key in keys <==> HasKey(fields, key)
  {
    keys := [];
    for n := 0 to |fields|
      invariant Ascending(keys) && forall key :: key in keys <==> exists k :: 0 <= k < n && fields[k].0 == key
    {
      InsertKeyAscends(keys, fields[n].0);
      keys := InsertKey(keys, fields[n].0);
    }
  }

  /** The printed field of a key. */
  ghost predicate FieldText(heap: Heap, fields: seq<(Text, Value)>, depth: nat, key: Text, text: Text) {
    exists k :: 0 <= k < |fields| && fields[k].0 == key && Denote(heap, fields[k].1, depth + 1).Some?
      && text == Quoted(key) + [COLON] + Print(Denote(heap, fields[k].1, depth + 1).value)
  }

  lemma {:induction false} AllFieldsDenoted(heap: Heap, fields: seq<(Text, Value)>, depth: nat, keys: seq<Text>, texts: seq<Text>)
    requires depth <= MAX_DEPTH && forall a, b :: 0 <= a < b < |fields| ==> fields[a].0 != fields[b].0
    requires |texts| == |keys| && forall key :: key in keys <==> HasKey(fields, key)
    requires forall k :: 0 <= k < |keys| ==> FieldText(heap, fields, depth, keys[k], texts[k])
    ensures DenoteFields(heap, fields, depth).Some?
    ensures var record := DenoteFields(heap, fields, depth).value;
      && (forall key :: key in keys <==> key in record)
      && (forall k :: 0 <= k < |keys| ==> texts[k] == Quoted(keys[k]) + [COLON] + Print(record[keys[k]]))
  {
    FieldsDenoted(heap, fields, depth);
    forall n | 0 <= n < |fields| ensures Denote(heap, fields[n].1, depth + 1).Some? {
      assert HasKey(fields, fields[n].0);
      var k :| 0 <= k < |keys| && keys[k] == fields[n].0;
      assert FieldText(heap, fields, depth, keys[k], texts[k]);
    }
    forall k | 0 <= k < |keys|
      ensures keys[k] in DenoteFields(heap, fields, depth).value
        && texts[k] == Quoted(keys[k]) + [COLON] + Print(DenoteFields(heap, fields, depth).value[keys[k]])
    {
      assert FieldText(heap, fields, depth, keys[k], texts[k]);
    }
  }

  lemma {:induction false} FieldsPrinted(heap: Heap, ref: Ref, depth: nat, keys: seq<Text>, texts: seq<Text>)
    requires depth <= MAX_DEPTH && ref in heap && heap[ref].Plain? && !heap[ref].symbols && CellFits(heap[ref])
    requires Ascending(keys) && |texts| == |keys| && forall key :: key in keys <==> HasKey(heap[ref].fields, key)
    requires forall k :: 0 <= k < |keys| ==> FieldText(heap, heap[ref].fields, depth, keys[k], texts[k])
    ensures Denote(heap, Object(ref), depth).Some?
    ensures Print(Denote(heap, Object(ref), depth).value) == [OPEN_RECORD] + Join(texts) + [CLOSE_RECORD]
  {
    AllFieldsDenoted(heap, heap[ref].fields, depth, keys, texts);
    var j := Denote(heap, Object(ref), depth).value;
    OrderUnique(keys, Order(j.fields.Keys));
    RecordText(j, keys, texts, 0);
    assert texts[0..] == texts;
  }

  /** The whole canonical payload. */
  method CanonicalPayload(heap: Heap, v: Value) returns (r: Result<Text, Refused>)
    requires HeapFits(heap) && ValueFits(v)
    ensures r.Success? <==> Denote(heap, v, 0).Some?
    ensures r.Success? ==> r.value == Print(Denote(heap, v, 0).value)
    ensures r.Failure? ==> Offends(heap, [], r.error)
  {
    var walk := new Canonicalizer(heap);
    r := walk.Visit(v, 0, []);
  }
}
