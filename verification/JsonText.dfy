/**
 Canonical JSON text: compact, keys by code unit, strings escaped as ECMAScript's
 JSON.stringify does. A parser of that text (sections 4 to 7 of RFC 8259) inverts it.
 Text is UTF-16 code units, a number is its canonical digits.
 */
module JsonText {
  import opened Common

  type Code = c: int | 0 <= c < 0x10000
  type Text = seq<Code>

  const QUOTE: Code := 34
  const BACKSLASH: Code := 92
  const COMMA: Code := 44
  const COLON: Code := 58
  const OPEN_LIST: Code := 91
  const CLOSE_LIST: Code := 93
  const OPEN_RECORD: Code := 123
  const CLOSE_RECORD: Code := 125
  const LETTER_U: Code := 117
  const NULL: Text := [110, 117, 108, 108]
  const TRUE: Text := [116, 114, 117, 101]
  const FALSE: Text := [102, 97, 108, 115, 101]

  /** Keys of a record carry no order. */
  datatype Json =
    | Null
    | Bool(truth: bool)
    | Num(digits: Text)
    | Str(text: Text)
    | List(items: seq<Json>)
    | Record(fields: map<Text, Json>)

  /** Digits, sign, point and exponent. */
  predicate NumberCode(c: Code) { 48 <= c <= 57 || c == 45 || c == 43 || c == 46 || c == 101 }

  predicate NumberText(t: Text) {
    && t != [] && (48 <= t[0] <= 57 || t[0] == 45)
    && forall k :: 0 <= k < |t| ==> NumberCode(t[k])
  }

  /** Numbers are given by their canonical digits. */
  predicate Proper(j: Json) {
    match j
    case Num(digits) => NumberText(digits)
    case List(items) => forall k :: 0 <= k < |items| ==> Proper(items[k])
    case Record(fields) => forall key :: key in fields ==> Proper(fields[key])
    case _ => true
  }

  // ---- key order -------------------------------------------------------------------------

  predicate Less(a: Text, b: Text) {
    b != [] && (a == [] || a[0] < b[0] || (a[0] == b[0] && Less(a[1..], b[1..])))
  }

  lemma {:induction false} LessTrichotomy(a: Text, b: Text)
    ensures Less(a, b) || a == b || Less(b, a)
    decreases |a|
  {
    if a != [] && b != [] && a[0] == b[0] {
      LessTrichotomy(a[1..], b[1..]);
      assert a == [a[0]] + a[1..] && b == [b[0]] + b[1..];
    }
  }

  lemma {:induction false} LessTransitive(a: Text, b: Text, c: Text)
    requires Less(a, b) && Less(b, c)
    ensures Less(a, c)
    decreases |a|
  {
    if a != [] && a[0] == b[0] && b[0] == c[0] { LessTransitive(a[1..], b[1..], c[1..]); }
  }

  lemma {:induction false} LessIrreflexive(a: Text)
    ensures !Less(a, a)
    decreases |a|
  {
    if a != [] { LessIrreflexive(a[1..]); }
  }

  predicate Ascending(keys: seq<Text>) {
    forall a, b :: 0 <= a < b < |keys| ==> Less(keys[a], keys[b])
  }

  function InsertKey(keys: seq<Text>, x: Text): seq<Text> {
    if keys == [] then [x] else if Less(x, keys[0]) then [x] + keys else [keys[0]] + InsertKey(keys[1..], x)
  }

  lemma {:induction false} InsertKeyAscends(keys: seq<Text>, x: Text)
    requires Ascending(keys) && x !in keys
    ensures Ascending(InsertKey(keys, x)) && forall k :: k in InsertKey(keys, x) <==> k in keys || k == x
    decreases |keys|
  {
    var r := InsertKey(keys, x);
    if keys == [] {
    } else if Less(x, keys[0]) {
      forall b | 0 < b < |keys| ensures Less(x, keys[b]) { LessTransitive(x, keys[0], keys[b]); }
    } else {
      assert Ascending(keys[1..]);
      InsertKeyAscends(keys[1..], x);
      LessTrichotomy(x, keys[0]);
      forall b | 0 <= b < |r[1..]| ensures Less(keys[0], r[1..][b]) {
        assert r[1..][b] in InsertKey(keys[1..], x);
        if r[1..][b] != x { var n :| 0 <= n < |keys[1..]| && keys[1..][n] == r[1..][b]; }
      }
      assert keys == [keys[0]] + keys[1..];
    }
  }

  lemma {:induction false} OrderExists(keys: set<Text>) returns (order: seq<Text>)
    ensures Ascending(order) && forall k :: k in order <==> k in keys
    decreases keys
  {
    if keys == {} { return []; }
    var k :| k in keys;
    var rest := OrderExists(keys - {k});
    InsertKeyAscends(rest, k);
    order := InsertKey(rest, k);
  }

  /** The only ascending list of the keys. */
  ghost function Order(keys: set<Text>): (order: seq<Text>)
    ensures Ascending(order) && forall k :: k in order <==> k in keys
  {
    assert exists order :: Ascending(order) && forall k :: k in order <==> k in keys by { var order := OrderExists(keys); }
    var order :| Ascending(order) && forall k :: k in order <==> k in keys;
    order
  }

  lemma {:induction false} OrderUnique(a: seq<Text>, b: seq<Text>)
    requires Ascending(a) && Ascending(b) && forall k :: k in a <==> k in b
    ensures a == b
    decreases |a|
  {
    assert |a| == 0 || a[0] in a;
    assert |b| == 0 || b[0] in b;
    if a != [] {
      LowestFirst(a, b[0]);
      LowestFirst(b, a[0]);
      LessIrreflexive(a[0]);
      if Less(a[0], b[0]) && Less(b[0], a[0]) { LessTransitive(a[0], b[0], a[0]); }
      forall k ensures k in a[1..] <==> k in b[1..] { InTail(a, k); InTail(b, k); }
      OrderUnique(a[1..], b[1..]);
      assert a == [a[0]] + a[1..] && b == [b[0]] + b[1..];
    }
  }

  lemma {:induction false} LowestFirst(a: seq<Text>, k: Text)
    requires Ascending(a) && k in a
    ensures a[0] == k || Less(a[0], k)
  {}

  lemma {:induction false} InTail(a: seq<Text>, k: Text)
    requires Ascending(a) && a != []
    ensures k in a[1..] <==> k in a && k != a[0]
  {
    LessIrreflexive(a[0]);
    if k in a[1..] { var n :| 0 <= n < |a[1..]| && a[1..][n] == k; assert Less(a[0], a[n + 1]); }
    assert a == [a[0]] + a[1..];
  }

  // ---- strings ---------------------------------------------------------------------------

  predicate High(c: Code) { 0xD800 <= c <= 0xDBFF }
  predicate Low(c: Code) { 0xDC00 <= c <= 0xDFFF }

  function HexDigit(n: int): Code
    requires 0 <= n < 16
  {
    if n < 10 then 48 + n else 87 + n
  }

  function HexValue(c: Code): (r: Option<int>)
    ensures r.Some? ==> 0 <= r.value < 16
  {
    if 48 <= c <= 57 then Some(c - 48) else if 97 <= c <= 102 then Some(c - 87) else None
  }

  function Hex(c: Code): Text { [HexDigit(c / 4096), HexDigit(c / 256 % 16), HexDigit(c / 16 % 16), HexDigit(c % 16)] }

  /** Letter of a two-character escape. */
  function ShortEscape(c: Code): Option<Code> {
    if c == 8 then Some(98) else if c == 9 then Some(116) else if c == 10 then Some(110) else if c == 12 then Some(102)
    else if c == 13 then Some(114) else if c == QUOTE then Some(QUOTE) else if c == BACKSLASH then Some(BACKSLASH) else None
  }

  function Unescape(c: Code): Option<Code> {
    if c == 98 then Some(8) else if c == 116 then Some(9) else if c == 110 then Some(10) else if c == 102 then Some(12)
    else if c == 114 then Some(13) else if c == QUOTE then Some(QUOTE) else if c == BACKSLASH then Some(BACKSLASH) else None
  }

  function EscapeOne(c: Code): Text {
    if ShortEscape(c).Some? then [BACKSLASH, ShortEscape(c).value]
    else if c < 32 || High(c) || Low(c) then [BACKSLASH, LETTER_U] + Hex(c)
    else [c]
  }

  /** A surrogate pair is written as it is, a lone surrogate as an escape. */
  function Escape(s: Text): Text {
    if s == [] then []
    else if |s| >= 2 && High(s[0]) && Low(s[1]) then [s[0], s[1]] + Escape(s[2..])
    else EscapeOne(s[0]) + Escape(s[1..])
  }

  function Quoted(s: Text): Text { [QUOTE] + Escape(s) + [QUOTE] }

  function Push(c: Code, r: Option<(Text, Text)>): Option<(Text, Text)> {
    if r.None? then None else Some(([c] + r.value.0, r.value.1))
  }

  /** The characters up to the closing quote, and what follows it. */
  function ParseChars(t: Text): (r: Option<(Text, Text)>)
    ensures r.Some? ==> |r.value.1| < |t|
    decreases |t|
  {
    if t == [] then None
    else if t[0] == QUOTE then Some(([], t[1..]))
    else if t[0] != BACKSLASH then Push(t[0], ParseChars(t[1..]))
    else if |t| < 2 then None
    else if t[1] == LETTER_U then
      if |t| < 6 then None else
      var a, b, c, d := HexValue(t[2]), HexValue(t[3]), HexValue(t[4]), HexValue(t[5]);
      if a.None? || b.None? || c.None? || d.None? then None
      else Push(a.value * 4096 + b.value * 256 + c.value * 16 + d.value, ParseChars(t[6..]))
    else if Unescape(t[1]).Some? then Push(Unescape(t[1]).value, ParseChars(t[2..]))
    else None
  }

  lemma {:induction false} HexParses(c: Code)
    ensures var h := Hex(c);
      && HexValue(h[0]) == Some(c / 4096) && HexValue(h[1]) == Some(c / 256 % 16)
      && HexValue(h[2]) == Some(c / 16 % 16) && HexValue(h[3]) == Some(c % 16)
    ensures c == c / 4096 * 4096 + c / 256 % 16 * 256 + c / 16 % 16 * 16 + c % 16
  {
    HexDigitParses(c / 4096);
    HexDigitParses(c / 256 % 16);
    HexDigitParses(c / 16 % 16);
    HexDigitParses(c % 16);
    var tens, hundreds := c / 16, c / 256;
    assert tens == 16 * hundreds + tens % 16;
    assert hundreds == 16 * (c / 4096) + hundreds % 16;
  }

  lemma {:induction false} HexDigitParses(n: int)
    requires 0 <= n < 16
    ensures HexValue(HexDigit(n)) == Some(n)
  {}

  lemma {:induction false} LongEscapeParses(c: Code, t: Text)
    ensures ParseChars([BACKSLASH, LETTER_U] + Hex(c) + t) == Push(c, ParseChars(t))
  {
    var all := [BACKSLASH, LETTER_U] + Hex(c) + t;
    var h := Hex(c);
    HexParses(c);
    assert all[0] == BACKSLASH && all[1] == LETTER_U;
    assert all[2] == h[0] && all[3] == h[1] && all[4] == h[2] && all[5] == h[3];
    assert all[6..] == t;
  }

  lemma {:induction false} ShortEscapeParses(c: Code, t: Text)
    requires ShortEscape(c).Some?
    ensures ParseChars([BACKSLASH, ShortEscape(c).value] + t) == Push(c, ParseChars(t))
  {
    var all := [BACKSLASH, ShortEscape(c).value] + t;
    assert all[0] == BACKSLASH && all[1] == ShortEscape(c).value;
    assert all[2..] == t;
  }

  lemma {:induction false} EscapeOneParses(c: Code, t: Text)
    ensures ParseChars(EscapeOne(c) + t) == Push(c, ParseChars(t))
  {
    if ShortEscape(c).Some? { ShortEscapeParses(c, t); }
    else if c < 32 || High(c) || Low(c) { LongEscapeParses(c, t); }
    else { RawParses(c, t); }
  }

  lemma {:induction false} PairParses(s: Text, rest: Text)
    requires |s| >= 2 && High(s[0]) && Low(s[1]) && ParseChars(Escape(s[2..]) + [QUOTE] + rest) == Some((s[2..], rest))
    ensures ParseChars(Escape(s) + [QUOTE] + rest) == Some((s, rest))
  {
    var tail := Escape(s[2..]) + [QUOTE] + rest;
    assert Escape(s) + [QUOTE] + rest == [s[0]] + ([s[1]] + tail);
    RawParses(s[1], tail);
    RawParses(s[0], [s[1]] + tail);
    assert s == [s[0]] + ([s[1]] + s[2..]);
  }

  lemma {:induction false} OneParses(s: Text, rest: Text)
    requires s != [] && Escape(s) == EscapeOne(s[0]) + Escape(s[1..])
    requires ParseChars(Escape(s[1..]) + [QUOTE] + rest) == Some((s[1..], rest))
    ensures ParseChars(Escape(s) + [QUOTE] + rest) == Some((s, rest))
  {
    var tail := Escape(s[1..]) + [QUOTE] + rest;
    assert Escape(s) + [QUOTE] + rest == EscapeOne(s[0]) + tail;
    EscapeOneParses(s[0], tail);
    assert s == [s[0]] + s[1..];
  }

  lemma {:induction false} EscapeParses(s: Text, rest: Text)
    ensures ParseChars(Escape(s) + [QUOTE] + rest) == Some((s, rest))
    decreases |s|
  {
    if s == [] {
      assert Escape(s) + [QUOTE] + rest == [QUOTE] + rest;
    } else if |s| >= 2 && High(s[0]) && Low(s[1]) {
      EscapeParses(s[2..], rest);
      PairParses(s, rest);
    } else {
      EscapeParses(s[1..], rest);
      OneParses(s, rest);
    }
  }

  lemma {:induction false} RawParses(c: Code, t: Text)
    requires c != QUOTE && c != BACKSLASH
    ensures ParseChars([c] + t) == Push(c, ParseChars(t))
  {
    assert ([c] + t)[1..] == t;
  }

  // ---- values ----------------------------------------------------------------------------

  ghost function Print(j: Json): Text
    decreases j, 1, 0
  {
    match j
    case Null => NULL
    case Bool(truth) => if truth then TRUE else FALSE
    case Num(digits) => digits
    case Str(text) => Quoted(text)
    case List(items) => [OPEN_LIST] + PrintItems(j, 0) + [CLOSE_LIST]
    case Record(fields) => [OPEN_RECORD] + PrintFields(j, Order(fields.Keys), 0) + [CLOSE_RECORD]
  }

  /** Items from n on, separated by commas. */
  ghost function PrintItems(j: Json, n: nat): Text
    requires j.List? && n <= |j.items|
    decreases j, 0, |j.items| - n
  {
    if n == |j.items| then [] else
    Print(j.items[n]) + (if n + 1 == |j.items| then [] else [COMMA] + PrintItems(j, n + 1))
  }

  ghost function PrintFields(j: Json, keys: seq<Text>, n: nat): Text
    requires j.Record? && n <= |keys| && forall k :: k in keys ==> k in j.fields
    decreases j, 0, |keys| - n
  {
    if n == |keys| then [] else
    Quoted(keys[n]) + [COLON] + Print(j.fields[keys[n]]) + (if n + 1 == |keys| then [] else [COMMA] + PrintFields(j, keys, n + 1))
  }

  function NumberLength(t: Text): (n: nat)
    ensures n <= |t| && (forall k :: 0 <= k < n ==> NumberCode(t[k])) && (n < |t| ==> !NumberCode(t[n]))
  {
    if t == [] || !NumberCode(t[0]) then 0 else 1 + NumberLength(t[1..])
  }

  predicate Starts(t: Text, word: Text) { |word| <= |t| && t[..|word|] == word }

  function ParseValue(t: Text): (r: Option<(Json, Text)>)
    ensures r.Some? ==> |r.value.1| < |t|
    decreases |t|, 1
  {
    if Starts(t, NULL) then Some((Null, t[4..]))
    else if Starts(t, TRUE) then Some((Bool(true), t[4..]))
    else if Starts(t, FALSE) then Some((Bool(false), t[5..]))
    else if t == [] then None
    else if t[0] == QUOTE then
      var s := ParseChars(t[1..]);
      if s.None? then None else Some((Str(s.value.0), s.value.1))
    else if t[0] == OPEN_LIST then
      if |t| >= 2 && t[1] == CLOSE_LIST then Some((List([]), t[2..])) else
      var items := ParseItems(t[1..]);
      if items.None? then None else Some((List(items.value.0), items.value.1))
    else if t[0] == OPEN_RECORD then
      if |t| >= 2 && t[1] == CLOSE_RECORD then Some((Record(map[]), t[2..])) else
      var fields := ParseFields(t[1..]);
      if fields.None? then None else Some((Record(fields.value.0), fields.value.1))
    else
      var n := NumberLength(t);
      if n == 0 then None else Some((Num(t[..n]), t[n..]))
  }

  function ParseItems(t: Text): (r: Option<(seq<Json>, Text)>)
    ensures r.Some? ==> |r.value.1| < |t|
    decreases |t|, 2
  {
    var first := ParseValue(t);
    if first.None? || first.value.1 == [] then None
    else if first.value.1[0] == CLOSE_LIST then Some(([first.value.0], first.value.1[1..]))
    else if first.value.1[0] != COMMA then None
    else
      var others := ParseItems(first.value.1[1..]);
      if others.None? then None else Some(([first.value.0] + others.value.0, others.value.1))
  }

  function ParseFields(t: Text): (r: Option<(map<Text, Json>, Text)>)
    ensures r.Some? ==> |r.value.1| < |t|
    decreases |t|, 2
  {
    if t == [] || t[0] != QUOTE then None else
    var key := ParseChars(t[1..]);
    if key.None? || key.value.1 == [] || key.value.1[0] != COLON then None else
    var first := ParseValue(key.value.1[1..]);
    if first.None? || first.value.1 == [] then None
    else if first.value.1[0] == CLOSE_RECORD then Some((map[key.value.0 := first.value.0], first.value.1[1..]))
    else if first.value.1[0] != COMMA then None
    else
      var others := ParseFields(first.value.1[1..]);
      if others.None? then None else Some((others.value.0[key.value.0 := first.value.0], others.value.1))
  }

  // ---- the parser inverts the printer ------------------------------------------------------

  /** What may follow a value inside or after a text. */
  predicate Ends(rest: Text) { rest == [] || !NumberCode(rest[0]) }

  lemma {:induction false} NumberParses(digits: Text, rest: Text)
    requires (forall k :: 0 <= k < |digits| ==> NumberCode(digits[k])) && Ends(rest)
    ensures NumberLength(digits + rest) == |digits|
    decreases |digits|
  {
    if digits == [] { assert digits + rest == rest; }
    else {
      assert (digits + rest)[1..] == digits[1..] + rest;
      NumberParses(digits[1..], rest);
    }
  }

  lemma {:induction false} PrintHead(j: Json)
    requires Proper(j)
    ensures Print(j) != []
    ensures j.Num? ==> NumberCode(Print(j)[0])
    ensures j.Str? ==> Print(j)[0] == QUOTE
    ensures j.List? ==> Print(j)[0] == OPEN_LIST
    ensures j.Record? ==> Print(j)[0] == OPEN_RECORD
    ensures Print(j)[0] != CLOSE_LIST && Print(j)[0] != CLOSE_RECORD
  {}

  lemma {:induction false} WordParses(j: Json, rest: Text)
    requires j.Null? || j.Bool?
    ensures ParseValue(Print(j) + rest) == Some((j, rest))
  {
    var word := Print(j);
    var t := word + rest;
    assert t[..|word|] == word && t[|word|..] == rest;
    assert t[0] == word[0];
    WordHead(t);
  }

  lemma {:induction false} NumParses(digits: Text, rest: Text)
    requires NumberText(digits) && Ends(rest)
    ensures ParseValue(digits + rest) == Some((Num(digits), rest))
  {
    var t := digits + rest;
    NumberParses(digits, rest);
    assert t[0] == digits[0];
    WordHead(t);
    assert t[..|digits|] == digits && t[|digits|..] == rest;
  }

  lemma {:induction false} StrParses(text: Text, rest: Text)
    ensures ParseValue(Quoted(text) + rest) == Some((Str(text), rest))
  {
    var t := Quoted(text) + rest;
    EscapeParses(text, rest);
    assert t[0] == QUOTE && t[1..] == Escape(text) + [QUOTE] + rest;
    WordHead(t);
  }

  lemma {:induction false} EmptyParses(open: Code, close: Code, rest: Text)
    requires (open == OPEN_LIST && close == CLOSE_LIST) || (open == OPEN_RECORD && close == CLOSE_RECORD)
    ensures ParseValue([open] + [] + [close] + rest) == Some((if open == OPEN_LIST then List([]) else Record(map[]), rest))
  {
    var t := [open] + [] + [close] + rest;
    assert t[0] == open && t[1] == close && t[2..] == rest;
    WordHead(t);
  }

  lemma {:induction false} PrintParses(j: Json, rest: Text)
    requires Proper(j) && Ends(rest)
    ensures ParseValue(Print(j) + rest) == Some((j, rest))
    decreases j, 1, 0
  {
    match j
    case Num(digits) => NumParses(digits, rest);
    case Str(text) => StrParses(text, rest);
    case List(items) =>
      if items == [] { EmptyParses(OPEN_LIST, CLOSE_LIST, rest); }
      else {
        ItemsParse(j, 0, rest);
        PrintHead(items[0]);
        assert items[0..] == items;
        OpensList(PrintItems(j, 0), items, rest);
      }
    case Record(fields) =>
      var keys := Order(fields.Keys);
      if keys == [] {
        assert fields == map[] by { forall k ensures k !in fields { assert k !in keys; } }
        EmptyParses(OPEN_RECORD, CLOSE_RECORD, rest);
      } else {
        FieldsParse(j, keys, 0, rest);
        AllFields(fields, keys);
        OpensRecord(PrintFields(j, keys, 0), fields, rest);
      }
    case _ => WordParses(j, rest);
  }

  lemma {:induction false} Bracketed(open: Code, inside: Text, close: Code, rest: Text)
    requires inside != [] && (open == OPEN_LIST || open == OPEN_RECORD)
    ensures var t := [open] + inside + [close] + rest;
      && |t| >= 2 && t[0] == open && t[1] == inside[0] && t[1..] == inside + [close] + rest
      && !Starts(t, NULL) && !Starts(t, TRUE) && !Starts(t, FALSE)
  {
    var t := [open] + inside + [close] + rest;
    assert t == [open] + (inside + [close] + rest);
    WordHead(t);
  }

  lemma {:induction false} OpensList(inside: Text, items: seq<Json>, rest: Text)
    requires inside != [] && inside[0] != CLOSE_LIST && ParseItems(inside + [CLOSE_LIST] + rest) == Some((items, rest))
    ensures ParseValue([OPEN_LIST] + inside + [CLOSE_LIST] + rest) == Some((List(items), rest))
  {
    Bracketed(OPEN_LIST, inside, CLOSE_LIST, rest);
    Opened([OPEN_LIST] + inside + [CLOSE_LIST] + rest);
  }

  lemma {:induction false} OpensRecord(inside: Text, fields: map<Text, Json>, rest: Text)
    requires inside != [] && inside[0] != CLOSE_RECORD && ParseFields(inside + [CLOSE_RECORD] + rest) == Some((fields, rest))
    ensures ParseValue([OPEN_RECORD] + inside + [CLOSE_RECORD] + rest) == Some((Record(fields), rest))
  {
    Bracketed(OPEN_RECORD, inside, CLOSE_RECORD, rest);
    Opened([OPEN_RECORD] + inside + [CLOSE_RECORD] + rest);
  }

  lemma {:induction false} Opened(t: Text)
    requires |t| >= 2 && !Starts(t, NULL) && !Starts(t, TRUE) && !Starts(t, FALSE)
    ensures t[0] == OPEN_LIST && t[1] != CLOSE_LIST && ParseItems(t[1..]).Some? ==>
      ParseValue(t) == Some((List(ParseItems(t[1..]).value.0), ParseItems(t[1..]).value.1))
    ensures t[0] == OPEN_RECORD && t[1] != CLOSE_RECORD && ParseFields(t[1..]).Some? ==>
      ParseValue(t) == Some((Record(ParseFields(t[1..]).value.0), ParseFields(t[1..]).value.1))
  {}

  lemma {:induction false} WordHead(t: Text)
    requires t != []
    ensures Starts(t, NULL) ==> t[0] == 110
    ensures Starts(t, TRUE) ==> t[0] == 116
    ensures Starts(t, FALSE) ==> t[0] == 102
  {
    if Starts(t, NULL) { assert t[..4][0] == t[0]; }
    if Starts(t, TRUE) { assert t[..4][0] == t[0]; }
    if Starts(t, FALSE) { assert t[..5][0] == t[0]; }
  }

  lemma {:induction false} ItemsParse(j: Json, n: nat, rest: Text)
    requires j.List? && Proper(j) && n < |j.items|
    ensures ParseItems(PrintItems(j, n) + [CLOSE_LIST] + rest) == Some((j.items[n..], rest))
    decreases j, 0, |j.items| - n
  {
    var first := Print(j.items[n]);
    if n + 1 == |j.items| {
      PrintParses(j.items[n], [CLOSE_LIST] + rest);
      LastItem(j.items[n], first, rest);
      assert PrintItems(j, n) == first;
      assert j.items[n..] == [j.items[n]];
    } else {
      var others := PrintItems(j, n + 1);
      PrintParses(j.items[n], [COMMA] + (others + [CLOSE_LIST] + rest));
      ItemsParse(j, n + 1, rest);
      MoreItems(j.items[n], first, others, j.items[n + 1..], rest);
      FirstOfItems(j, n);
    }
  }

  lemma {:induction false} FirstOfItems(j: Json, n: nat)
    requires j.List? && Proper(j) && n + 1 < |j.items|
    ensures PrintItems(j, n) == Print(j.items[n]) + ([COMMA] + PrintItems(j, n + 1)) && j.items[n..] == [j.items[n]] + j.items[n + 1..]
  {}

  lemma {:induction false} LastItem(item: Json, first: Text, rest: Text)
    requires ParseValue(first + ([CLOSE_LIST] + rest)) == Some((item, [CLOSE_LIST] + rest))
    ensures ParseItems(first + [CLOSE_LIST] + rest) == Some(([item], rest))
  {
    assert first + [CLOSE_LIST] + rest == first + ([CLOSE_LIST] + rest);
    assert ([CLOSE_LIST] + rest)[1..] == rest;
  }

  lemma {:induction false} MoreItems(item: Json, first: Text, others: Text, items: seq<Json>, rest: Text)
    requires ParseValue(first + ([COMMA] + (others + [CLOSE_LIST] + rest))) == Some((item, [COMMA] + (others + [CLOSE_LIST] + rest)))
    requires ParseItems(others + [CLOSE_LIST] + rest) == Some((items, rest))
    ensures ParseItems(first + ([COMMA] + others) + [CLOSE_LIST] + rest) == Some(([item] + items, rest))
  {
    var tail := others + [CLOSE_LIST] + rest;
    Regrouped(first, [COMMA], others, [CLOSE_LIST], rest);
    assert ([COMMA] + tail)[1..] == tail;
  }

  lemma {:induction false} Regrouped(a: Text, b: Text, c: Text, d: Text, e: Text)
    ensures a + (b + c) + d + e == a + (b + (c + d + e))
  {}

  /** The fields named by the keys from n on. */
  function From(fields: map<Text, Json>, keys: seq<Text>, n: nat): map<Text, Json>
    requires n <= |keys|
  {
    map k | k in fields && k in keys[n..] :: fields[k]
  }

  lemma {:induction false} AllFields(fields: map<Text, Json>, keys: seq<Text>)
    requires forall k :: k in keys <==> k in fields
    ensures From(fields, keys, 0) == fields
  {
    assert keys[0..] == keys;
  }

  lemma {:induction false} FieldsParse(j: Json, keys: seq<Text>, n: nat, rest: Text)
    requires j.Record? && Proper(j) && n < |keys| && forall k :: k in keys ==> k in j.fields
    ensures PrintFields(j, keys, n) != [] && PrintFields(j, keys, n)[0] == QUOTE
    ensures ParseFields(PrintFields(j, keys, n) + [CLOSE_RECORD] + rest) == Some((From(j.fields, keys, n), rest))
    decreases j, 0, |keys| - n
  {
    var key, value := keys[n], j.fields[keys[n]];
    if n + 1 == |keys| {
      PrintParses(value, [CLOSE_RECORD] + rest);
      LastField(key, value, rest);
      FromLast(j.fields, keys, n);
      assert PrintFields(j, keys, n) == Quoted(key) + [COLON] + Print(value);
    } else {
      var others := PrintFields(j, keys, n + 1);
      PrintParses(value, [COMMA] + (others + [CLOSE_RECORD] + rest));
      FieldsParse(j, keys, n + 1, rest);
      MoreFields(key, value, others, From(j.fields, keys, n + 1), rest);
      FromNext(j.fields, keys, n);
    }
  }

  lemma {:induction false} FromLast(fields: map<Text, Json>, keys: seq<Text>, n: nat)
    requires n == |keys| - 1 && keys[n] in fields
    ensures From(fields, keys, n) == map[keys[n] := fields[keys[n]]]
  {
    assert keys[n..] == [keys[n]];
  }

  lemma {:induction false} FromNext(fields: map<Text, Json>, keys: seq<Text>, n: nat)
    requires n < |keys| && keys[n] in fields
    ensures From(fields, keys, n) == From(fields, keys, n + 1)[keys[n] := fields[keys[n]]]
  {
    assert keys[n..] == [keys[n]] + keys[n + 1..];
  }

  lemma {:induction false} LastField(key: Text, value: Json, rest: Text)
    requires ParseValue(Print(value) + ([CLOSE_RECORD] + rest)) == Some((value, [CLOSE_RECORD] + rest))
    ensures ParseFields(Quoted(key) + [COLON] + Print(value) + [CLOSE_RECORD] + rest) == Some((map[key := value], rest))
  {
    var after := [CLOSE_RECORD] + rest;
    KeyParses(key, value, after);
    Regroup(Quoted(key), [COLON], Print(value), [CLOSE_RECORD], rest);
    assert after[0] == CLOSE_RECORD && after[1..] == rest;
    FieldParses(Quoted(key) + ([COLON] + (Print(value) + after)), key, [COLON] + (Print(value) + after), value, after);
  }

  lemma {:induction false} MoreFields(key: Text, value: Json, others: Text, fields: map<Text, Json>, rest: Text)
    requires ParseValue(Print(value) + ([COMMA] + (others + [CLOSE_RECORD] + rest))) == Some((value, [COMMA] + (others + [CLOSE_RECORD] + rest)))
    requires ParseFields(others + [CLOSE_RECORD] + rest) == Some((fields, rest))
    ensures ParseFields(Quoted(key) + [COLON] + Print(value) + ([COMMA] + others) + [CLOSE_RECORD] + rest) == Some((fields[key := value], rest))
  {
    var tail := others + [CLOSE_RECORD] + rest;
    var after := [COMMA] + tail;
    KeyParses(key, value, after);
    Rejoin(Quoted(key), Print(value), others, rest);
    Headed(COMMA, tail);
    FieldParses(Quoted(key) + ([COLON] + (Print(value) + after)), key, [COLON] + (Print(value) + after), value, after);
  }

  lemma {:induction false} Headed(c: Code, t: Text)
    ensures ([c] + t)[0] == c && ([c] + t)[1..] == t
  {}

  lemma {:induction false} Rejoin(key: Text, value: Text, others: Text, rest: Text)
    ensures key + [COLON] + value + ([COMMA] + others) + [CLOSE_RECORD] + rest
         == key + ([COLON] + (value + ([COMMA] + (others + [CLOSE_RECORD] + rest))))
  {
    Regroup(key, [COLON], value, [COMMA] + others, [CLOSE_RECORD] + rest);
    var whole := key + [COLON] + value + ([COMMA] + others);
    assert whole + [CLOSE_RECORD] + rest == whole + ([CLOSE_RECORD] + rest);
    assert [COMMA] + others + ([CLOSE_RECORD] + rest) == [COMMA] + (others + [CLOSE_RECORD] + rest);
  }

  lemma {:induction false} Regroup(a: Text, b: Text, c: Text, d: Text, e: Text)
    ensures a + b + c + d + e == a + (b + (c + (d + e)))
  {
    assert a + b + c + d + e == a + b + c + (d + e);
    assert a + b + c + (d + e) == a + b + (c + (d + e));
  }

  /** A field, and after it the end of the record or the fields that follow. */
  lemma {:induction false} FieldParses(t: Text, key: Text, colon: Text, value: Json, after: Text)
    requires t != [] && t[0] == QUOTE && ParseChars(t[1..]) == Some((key, colon))
    requires colon != [] && colon[0] == COLON && ParseValue(colon[1..]) == Some((value, after)) && after != []
    ensures after[0] == CLOSE_RECORD ==> ParseFields(t) == Some((map[key := value], after[1..]))
    ensures after[0] == COMMA && ParseFields(after[1..]).Some? ==>
      ParseFields(t) == Some((ParseFields(after[1..]).value.0[key := value], ParseFields(after[1..]).value.1))
  {}

  /** The text of one field: its key, a colon, its value. */
  lemma {:induction false} KeyParses(key: Text, value: Json, after: Text)
    requires ParseValue(Print(value) + after) == Some((value, after))
    ensures var t := Quoted(key) + ([COLON] + (Print(value) + after));
      && t[0] == QUOTE && ParseChars(t[1..]) == Some((key, [COLON] + (Print(value) + after)))
      && ([COLON] + (Print(value) + after))[1..] == Print(value) + after
  {
    var more := [COLON] + (Print(value) + after);
    EscapeParses(key, more);
    Shifted(Escape(key), more);
    Headed(QUOTE, Escape(key) + [QUOTE] + more);
    Headed(COLON, Print(value) + after);
  }

  lemma {:induction false} Shifted(escaped: Text, more: Text)
    ensures [QUOTE] + escaped + [QUOTE] + more == [QUOTE] + (escaped + [QUOTE] + more)
  {}

  /** Two values print alike only if they are the same but for the order of keys. */
  lemma {:induction false} PrintInjective(a: Json, b: Json)
    requires Proper(a) && Proper(b)
    ensures Print(a) == Print(b) <==> a == b
  {
    PrintParses(a, []);
    PrintParses(b, []);
    assert Print(a) + [] == Print(a) && Print(b) + [] == Print(b);
  }
}
