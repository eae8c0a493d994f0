/** What the canonical text looks like, character by character, and which graphs it is written for. */
module JsonMeaning {
  import opened Common
  import opened JsonText
  import opened CanonicalJson

  /** The code units of a text of ASCII characters. */
  predicate Reads(t: Text, s: string) { |t| == |s| && forall k :: 0 <= k < |s| ==> t[k] == s[k] as int }

  // ---- strings ---------------------------------------------------------------------------

  /** Two characters for quotes, backslashes and the five usual controls; six for other controls and lone surrogates. */
  lemma {:induction false} CharacterMeans(c: Code)
    ensures c == '\"' as int ==> Reads(Escape([c]), "\\\"")
    ensures c == '\\' as int ==> Reads(Escape([c]), "\\\\")
    ensures c == 8 ==> Reads(Escape([c]), "\\b")
    ensures c == 9 ==> Reads(Escape([c]), "\\t")
    ensures c == 10 ==> Reads(Escape([c]), "\\n")
    ensures c == 12 ==> Reads(Escape([c]), "\\f")
    ensures c == 13 ==> Reads(Escape([c]), "\\r")
    ensures (c < 32 && c !in {8, 9, 10, 12, 13}) || 0xD800 <= c < 0xE000 ==> (
      var t := Escape([c]);
      |t| == 6 && Reads(t[..2], "\\u") && forall k :: 2 <= k < 6 ==> HexOf(t[k], c, k))
    ensures c >= 32 && c !in {34, 92} && !(0xD800 <= c < 0xE000) ==> Escape([c]) == [c]
  {
    Alone(c);
    if (c < 32 && c !in {8, 9, 10, 12, 13}) || 0xD800 <= c < 0xE000 { SixMean(c); }
  }

  lemma {:induction false} Alone(c: Code)
    ensures Escape([c]) == EscapeOne(c)
  {
    assert [c][1..] == [];
  }

  lemma {:induction false} SixMean(c: Code)
    requires (c < 32 && c !in {8, 9, 10, 12, 13}) || 0xD800 <= c < 0xE000
    ensures var t := EscapeOne(c); |t| == 6 && Reads(t[..2], "\\u") && forall k :: 2 <= k < 6 ==> HexOf(t[k], c, k)
  {
    HexMeans(c / 4096);
    HexMeans(c / 256 % 16);
    HexMeans(c / 16 % 16);
    HexMeans(c % 16);
    assert EscapeOne(c)[..2] == [BACKSLASH, LETTER_U];
    assert EscapeOne(c)[2..] == Hex(c);
  }

  /** The lower-case digit at a place of the six. */
  predicate HexOf(digit: Code, c: Code, place: int) {
    var n := if place == 2 then c / 4096 else if place == 3 then c / 256 % 16 else if place == 4 then c / 16 % 16 else c % 16;
    0 <= n < 16 && digit == "0123456789abcdef"[n] as int
  }

  lemma {:induction false} HexMeans(n: int)
    requires 0 <= n < 16
    ensures HexDigit(n) == "0123456789abcdef"[n] as int
  {}

  /** A surrogate pair stays as it is; any other first character is written as if it stood alone. */
  lemma {:induction false} StringMeans(s: Text)
    requires s != []
    ensures |s| >= 2 && 0xD800 <= s[0] < 0xDC00 <= s[1] < 0xE000 ==> Escape(s) == s[..2] + Escape(s[2..])
    ensures |s| < 2 || !(0xD800 <= s[0] < 0xDC00 <= s[1] < 0xE000) ==> Escape(s) == Escape(s[..1]) + Escape(s[1..])
  {
    assert s[..1][1..] == [] && Escape([]) == [];
    assert Escape(s[..1]) == EscapeOne(s[0]);
  }

  // ---- values ----------------------------------------------------------------------------

  lemma {:induction false} WordsMean(digits: Text, s: Text)
    ensures Reads(Print(Null), "null") && Reads(Print(Bool(true)), "true") && Reads(Print(Bool(false)), "false")
    ensures Print(Num(digits)) == digits
    ensures Reads(Print(Str([])), "\"\"")
    ensures Print(Str(s)) == Print(Str([]))[..1] + Escape(s) + Print(Str([]))[1..]
  {
    assert Print(Str([])) == [QUOTE, QUOTE];
  }

  /** Nothing but commas between the items, and they stay in their order. */
  lemma {:induction false} ListMeans(items: seq<Json>, x: Json)
    ensures Reads(Print(List([])), "[]")
    ensures Print(List([x])) == Print(List([]))[..1] + Print(x) + Print(List([]))[1..]
    ensures items != [] ==> (
      var t := Print(List(items));
      && |t| >= 2 && Reads(t[|t| - 1..], "]")
      && Print(List(items + [x])) == t[..|t| - 1] + [',' as int] + Print(x) + t[|t| - 1..])
  {
    OneItem(x);
    if items != [] {
      ItemAdded(items, x, 0);
      ListClosed(PrintItems(List(items), 0), Print(x));
    }
  }

  lemma {:induction false} OneItem(x: Json)
    ensures Print(List([])) == [OPEN_LIST, CLOSE_LIST] && Print(List([x])) == [OPEN_LIST] + Print(x) + [CLOSE_LIST]
  {
    var one := List([x]);
    assert PrintItems(one, 0) == Print(one.items[0]);
  }

  lemma {:induction false} ListClosed(inside: Text, more: Text)
    ensures var t := [OPEN_LIST] + inside + [CLOSE_LIST];
      && Reads(t[|t| - 1..], "]")
      && [OPEN_LIST] + (inside + [COMMA] + more) + [CLOSE_LIST] == t[..|t| - 1] + [COMMA] + more + t[|t| - 1..]
  {
    var t := [OPEN_LIST] + inside + [CLOSE_LIST];
    assert t[..|t| - 1] == [OPEN_LIST] + inside && t[|t| - 1..] == [CLOSE_LIST];
  }

  lemma {:induction false} ItemAdded(items: seq<Json>, x: Json, n: nat)
    requires n < |items|
    ensures PrintItems(List(items + [x]), n) == PrintItems(List(items), n) + [COMMA] + Print(x)
    decreases |items| - n
  {
    var more := List(items + [x]);
    assert more.items[n] == items[n];
    if n + 1 < |items| { ItemAdded(items, x, n + 1); }
    else {
      assert more.items[n + 1] == x;
      assert PrintItems(more, n + 1) == Print(x);
    }
  }

  /** Keys come by their first code unit that differs, a key before those it begins. */
  lemma {:induction false} LessMeans(a: Text, b: Text)
    ensures Less(a, b) <==> exists n: nat :: n <= |a| && n < |b| && a[..n] == b[..n] && (n == |a| || a[n] < b[n])
    decreases |a|
  {
    if a != [] && b != [] && a[0] == b[0] {
      LessMeans(a[1..], b[1..]);
      assert a == [a[0]] + a[1..] && b == [b[0]] + b[1..];
      if Less(a, b) {
        var n: nat :| n <= |a| - 1 && n < |b| - 1 && a[1..][..n] == b[1..][..n] && (n == |a| - 1 || a[1..][n] < b[1..][n]);
        assert a[..n + 1] == [a[0]] + a[1..][..n] && b[..n + 1] == [b[0]] + b[1..][..n];
      }
      if n: nat :| n <= |a| && n < |b| && a[..n] == b[..n] && (n == |a| || a[n] < b[n]) {
        assert n > 0;
        assert a[1..][..n - 1] == a[..n][1..] && b[1..][..n - 1] == b[..n][1..];
      }
    } else if b != [] {
      assert a[..0] == b[..0];
    }
  }

  /** A field whose key comes last is written last, each key as a string with a colon behind it. */
  lemma {:induction false} RecordMeans(fields: map<Text, Json>, key: Text, x: Json)
    requires forall k :: k in fields ==> Less(k, key)
    ensures Reads(Print(Record(map[])), "{}")
    ensures fields == map[] ==> Print(Record(map[key := x])) == ['{' as int] + Field(key, x) + ['}' as int]
    ensures fields != map[] ==> (
      var t := Print(Record(fields));
      && |t| >= 2 && Reads(t[|t| - 1..], "}")
      && Print(Record(fields[key := x])) == t[..|t| - 1] + [',' as int] + Field(key, x) + t[|t| - 1..])
  {
    NoFields();
    LastOrdered(fields, key, x);
    var keys := Order(fields.Keys);
    if fields == map[] {
      OneField(key, x);
      assert fields[key := x] == map[key := x];
    } else {
      assert keys != [] by { var k :| k in fields; assert k in keys; }
      FieldAdded(fields, keys, key, x, 0);
      Closed(PrintFields(Record(fields), keys, 0), Field(key, x));
    }
  }

  /** A field as it is written. */
  ghost function Field(key: Text, x: Json): Text { Print(Str(key)) + [':' as int] + Print(x) }

  lemma {:induction false} Closed(inside: Text, more: Text)
    ensures var t := [OPEN_RECORD] + inside + [CLOSE_RECORD];
      && Reads(t[|t| - 1..], "}")
      && [OPEN_RECORD] + (inside + ([COMMA] + more)) + [CLOSE_RECORD] == t[..|t| - 1] + [COMMA] + more + t[|t| - 1..]
  {
    var t := [OPEN_RECORD] + inside + [CLOSE_RECORD];
    assert t[..|t| - 1] == [OPEN_RECORD] + inside && t[|t| - 1..] == [CLOSE_RECORD];
  }

  lemma {:induction false} LastOrdered(fields: map<Text, Json>, key: Text, x: Json)
    requires forall k :: k in fields ==> Less(k, key)
    ensures Order(fields[key := x].Keys) == Order(fields.Keys) + [key] && key !in Order(fields.Keys)
  {
    var keys := Order(fields.Keys);
    LessIrreflexive(key);
    assert Ascending(keys + [key]);
    OrderUnique(Order(fields[key := x].Keys), keys + [key]);
  }

  lemma {:induction false} OneField(key: Text, x: Json)
    ensures Print(Record(map[key := x])) == ['{' as int] + Field(key, x) + ['}' as int]
  {
    var j := Record(map[key := x]);
    assert Ascending([key]);
    OrderUnique(Order(j.fields.Keys), [key]);
    assert PrintFields(j, [key], 0) == Field(key, x);
  }

  lemma {:induction false} NoFields()
    ensures Reads(Print(Record(map[])), "{}")
  {
    var none: map<Text, Json> := map[];
    OrderUnique(Order(none.Keys), []);
  }

  lemma {:induction false} FieldAdded(fields: map<Text, Json>, keys: seq<Text>, key: Text, x: Json, n: nat)
    requires n < |keys| && key !in keys && forall k :: k in keys ==> k in fields
    ensures PrintFields(Record(fields[key := x]), keys + [key], n) == PrintFields(Record(fields), keys, n) + ([COMMA] + Field(key, x))
    decreases |keys| - n
  {
    var more, all := Record(fields[key := x]), keys + [key];
    assert all[n] == keys[n] && more.fields[keys[n]] == fields[keys[n]];
    var first := Quoted(keys[n]) + [COLON] + Print(fields[keys[n]]);
    assert PrintFields(more, all, n) == first + ([COMMA] + PrintFields(more, all, n + 1));
    if n + 1 < |keys| {
      FieldAdded(fields, keys, key, x, n + 1);
      Spliced(first, PrintFields(Record(fields), keys, n + 1), Field(key, x));
    } else {
      assert all[n + 1] == key && more.fields[key] == x;
      assert PrintFields(more, all, n + 1) == Field(key, x);
      assert PrintFields(Record(fields), keys, n) == first;
    }
  }

  lemma {:induction false} Spliced(first: Text, others: Text, last: Text)
    ensures first + ([COMMA] + (others + ([COMMA] + last))) == first + ([COMMA] + others) + ([COMMA] + last)
  {
    assert [COMMA] + (others + ([COMMA] + last)) == [COMMA] + others + ([COMMA] + last);
  }

  // ---- graphs ----------------------------------------------------------------------------

  /** A graph stands for itself read as JSON, sixty-four levels below the root at most. */
  lemma {:induction false} GraphMeans(heap: Heap, v: Value, depth: nat)
    ensures depth > 64 || v == Other ==> Denote(heap, v, depth) == None
    ensures depth <= 64 ==> (
      && (v == NullValue ==> Denote(heap, v, depth) == Some(Null))
      && (v.Boolean? ==> Denote(heap, v, depth) == Some(Bool(v.truth)))
      && (v.Number? ==> Denote(heap, v, depth) == Some(Num(v.digits)))
      && (v.Chars? ==> Denote(heap, v, depth) == Some(Str(v.text))))
    ensures v.Object? && (v.ref !in heap || heap[v.ref].Instance? || heap[v.ref].symbols) ==> Denote(heap, v, depth) == None
  {}

  lemma {:induction false} ArrayMeans(heap: Heap, ref: Ref, depth: nat)
    requires depth <= 64 && ref in heap && heap[ref].Array? && !heap[ref].symbols
    ensures var items, r := heap[ref].items, Denote(heap, Object(ref), depth);
      && (r.Some? <==> forall k :: 0 <= k < |items| ==> Denote(heap, items[k], depth + 1).Some?)
      && (r.Some? ==>
           r.value.List? && |r.value.items| == |items|
           && forall k :: 0 <= k < |items| ==> Denote(heap, items[k], depth + 1) == Some(r.value.items[k]))
  {
    ItemsDenoted(heap, heap[ref].items, depth);
  }

  lemma {:induction false} PlainMeans(heap: Heap, ref: Ref, depth: nat)
    requires depth <= 64 && ref in heap && heap[ref].Plain? && !heap[ref].symbols && CellFits(heap[ref])
    ensures var fields, r := heap[ref].fields, Denote(heap, Object(ref), depth);
      && (r.Some? <==> forall k :: 0 <= k < |fields| ==> Denote(heap, fields[k].1, depth + 1).Some?)
      && (r.Some? ==>
           r.value.Record? && (forall key :: key in r.value.fields <==> exists k :: 0 <= k < |fields| && fields[k].0 == key)
           && forall k :: 0 <= k < |fields| ==> Denote(heap, fields[k].1, depth + 1) == Some(r.value.fields[fields[k].0]))
  {
    FieldsDenoted(heap, heap[ref].fields, depth);
  }
}
