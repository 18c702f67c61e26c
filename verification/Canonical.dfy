/**
 The canonical text a trust decision is a digest of (`apps/daemon/src/repository-trust-service.ts`), and the
 parser that reads it back.  Text is a sequence of UTF-16 code units, as in the language of the program.
 */
module Canonical {
  import opened Wrappers

  type Unit = n: nat | n < 65536
  type Text = seq<Unit>

  datatype Field<T> = Field(key: Text, value: T)

  /** A number stands for its own JSON text. */
  datatype Json =
    | Undefined
    | Null
    | Bool(value: bool)
    | Number(text: Text)
    | Str(chars: Text)
    | Arr(items: seq<Json>)
    | Obj(fields: seq<Field<Json>>)

  const QUOTE: Unit := 34
  const COMMA: Unit := 44
  const COLON: Unit := 58
  const OPEN_ARRAY: Unit := 91
  const BACKSLASH: Unit := 92
  const CLOSE_ARRAY: Unit := 93
  const LETTER_U: Unit := 117
  const OPEN_OBJECT: Unit := 123
  const CLOSE_OBJECT: Unit := 125
  const NULL: Text := [110, 117, 108, 108]
  const TRUE: Text := [116, 114, 117, 101]
  const FALSE: Text := [102, 97, 108, 115, 101]
  const UNDEFINED: Text := [117, 110, 100, 101, 102, 105, 110, 101, 100]

  // ---------------------------------------------------------------- strings

  function HexDigit(n: nat): Unit
    requires n < 16
  {
    if n < 10 then 48 + n else 87 + n
  }

  function HexValue(u: Unit): Option<nat> {
    if 48 <= u < 58 then Some(u - 48) else if 97 <= u < 103 then Some(u - 87) else None
  }

  /** `\uXXXX`. */
  function Escaped(u: Unit): Text {
    [BACKSLASH, LETTER_U, HexDigit(u / 4096), HexDigit(u / 256 % 16), HexDigit(u / 16 % 16), HexDigit(u % 16)]
  }

  function ShortEscape(u: Unit): Option<Unit> {
    if u == 34 then Some(34) else if u == 92 then Some(92)
    else if u == 8 then Some(98) else if u == 12 then Some(102) else if u == 10 then Some(110)
    else if u == 13 then Some(114) else if u == 9 then Some(116) else None
  }

  function LongEscape(u: Unit): Option<Unit> {
    if u == 34 then Some(34) else if u == 92 then Some(92)
    else if u == 98 then Some(8) else if u == 102 then Some(12) else if u == 110 then Some(10)
    else if u == 114 then Some(13) else if u == 116 then Some(9) else None
  }

  predicate High(u: Unit) { 0xD800 <= u < 0xDC00 }
  predicate Low(u: Unit) { 0xDC00 <= u < 0xE000 }

  function QuoteUnit(u: Unit): Text {
    if ShortEscape(u).Some? then [BACKSLASH, ShortEscape(u).value]
    else if u < 32 || High(u) || Low(u) then Escaped(u)
    else [u]
  }

  /** The inside of `JSON.stringify` of a string: a surrogate pair stays, a lone surrogate is escaped. */
  function QuoteUnits(s: Text): Text
    decreases |s|
  {
    if s == [] then []
    else if High(s[0]) && |s| > 1 && Low(s[1]) then [s[0], s[1]] + QuoteUnits(s[2..])
    else QuoteUnit(s[0]) + QuoteUnits(s[1..])
  }

  function Quoted(s: Text): Text {
    [QUOTE] + QuoteUnits(s) + [QUOTE]
  }

  // ---------------------------------------------------------------- sorting

  /** `localeCompare(left, right) <= 0`. */
  type Order = (Text, Text) -> bool

  ghost predicate Total(order: Order) {
    && (forall a, b :: order(a, b) || order(b, a))
    && (forall a, b, c :: order(a, b) && order(b, c) ==> order(a, c))
  }

  function Insert<T>(sorted: seq<Field<T>>, f: Field<T>, order: Order): (r: seq<Field<T>>)
    ensures |r| == |sorted| + 1
    decreases |sorted|
  {
    if sorted == [] || order(sorted[|sorted| - 1].key, f.key) then sorted + [f]
    else Insert(sorted[..|sorted| - 1], f, order) + [sorted[|sorted| - 1]]
  }

  /** A stable sort by key. */
  function Sort<T>(fields: seq<Field<T>>, order: Order): (r: seq<Field<T>>)
    ensures |r| == |fields|
    decreases |fields|
  {
    if fields == [] then [] else Insert(Sort(fields[..|fields| - 1], order), fields[|fields| - 1], order)
  }

  // ---------------------------------------------------------------- the printer

  function Scalar(v: Json): Text
    requires !v.Arr? && !v.Obj?
  {
    match v
    case Undefined => UNDEFINED
    case Null => NULL
    case Bool(b) => if b then TRUE else FALSE
    case Number(text) => text
    case Str(s) => Quoted(s)
  }

  /** `canonical`.  Sorting looks at keys alone, so the entries may be printed before they are sorted. */
  function Canonical(v: Json, order: Order): Text
    decreases v
  {
    match v
    case Arr(items) => [OPEN_ARRAY] + Joined(PrintItems(items, order)) + [CLOSE_ARRAY]
    case Obj(fields) => [OPEN_OBJECT] + Joined(Pairs(Sort(PrintFields(fields, order), order))) + [CLOSE_OBJECT]
    case _ => Scalar(v)
  }

  /** `join` turns an undefined element into the empty text. */
  function PrintItems(items: seq<Json>, order: Order): (r: seq<Text>)
    ensures |r| == |items|
    decreases items
  {
    if items == [] then []
    else [if items[0].Undefined? then [] else Canonical(items[0], order)] + PrintItems(items[1..], order)
  }

  function PrintFields(fields: seq<Field<Json>>, order: Order): (r: seq<Field<Text>>)
    ensures |r| == |fields|
    decreases fields
  {
    if fields == [] then []
    else [Field(fields[0].key, Canonical(fields[0].value, order))] + PrintFields(fields[1..], order)
  }

  function Pairs(fields: seq<Field<Text>>): (r: seq<Text>)
    ensures |r| == |fields|
  {
    if fields == [] then [] else [Quoted(fields[0].key) + [COLON] + fields[0].value] + Pairs(fields[1..])
  }

  function Joined(parts: seq<Text>): Text {
    if parts == [] then []
    else if |parts| == 1 then parts[0]
    else parts[0] + [COMMA] + Joined(parts[1..])
  }

  // ---------------------------------------------------------------- the value a text stands for

  /** An array of exactly one undefined element prints as the empty array. */
  function Read(items: seq<Json>): seq<Json> {
    if items == [Undefined] then [] else items
  }

  /** The value with the fields of every object in printing order and every array as it reads. */
  function Canon(v: Json, order: Order): Json
    decreases v
  {
    match v
    case Arr(items) => Arr(Read(CanonItems(items, order)))
    case Obj(fields) => Obj(Sort(CanonFields(fields, order), order))
    case _ => v
  }

  function CanonItems(items: seq<Json>, order: Order): (r: seq<Json>)
    ensures |r| == |items|
    decreases items
  {
    if items == [] then [] else [Canon(items[0], order)] + CanonItems(items[1..], order)
  }

  function CanonFields(fields: seq<Field<Json>>, order: Order): (r: seq<Field<Json>>)
    ensures |r| == |fields|
    decreases fields
  {
    if fields == [] then [] else [Field(fields[0].key, Canon(fields[0].value, order))] + CanonFields(fields[1..], order)
  }

  /** Printing without sorting. */
  function Render(v: Json): Text
    decreases v
  {
    match v
    case Arr(items) => [OPEN_ARRAY] + RenderItems(items) + [CLOSE_ARRAY]
    case Obj(fields) => [OPEN_OBJECT] + RenderFields(fields) + [CLOSE_OBJECT]
    case _ => Scalar(v)
  }

  function RenderItems(items: seq<Json>): Text
    decreases items
  {
    if items == [] then []
    else
      var first := if items[0].Undefined? then [] else Render(items[0]);
      if |items| == 1 then first else first + [COMMA] + RenderItems(items[1..])
  }

  function RenderFields(fields: seq<Field<Json>>): Text
    decreases fields
  {
    if fields == [] then []
    else
      var first := Quoted(fields[0].key) + [COLON] + Render(fields[0].value);
      if |fields| == 1 then first else first + [COMMA] + RenderFields(fields[1..])
  }

  function RenderEach(fields: seq<Field<Json>>): (r: seq<Field<Text>>)
    ensures |r| == |fields| && forall i :: 0 <= i < |fields| ==> r[i] == Field(fields[i].key, Render(fields[i].value))
  {
    if fields == [] then [] else RenderEach(fields[..|fields| - 1]) + [Field(fields[|fields| - 1].key, Render(fields[|fields| - 1].value))]
  }

  lemma {:induction false} InsertCommutes(sorted: seq<Field<Json>>, f: Field<Json>, order: Order)
    ensures Insert(RenderEach(sorted), Field(f.key, Render(f.value)), order) == RenderEach(Insert(sorted, f, order))
    decreases |sorted|
  {
    if sorted == [] || order(sorted[|sorted| - 1].key, f.key) {
      assert (sorted + [f])[..|sorted|] == sorted;
    } else {
      var init, last := sorted[..|sorted| - 1], sorted[|sorted| - 1];
      InsertCommutes(init, f, order);
      assert RenderEach(sorted)[..|sorted| - 1] == RenderEach(init);
      assert (Insert(init, f, order) + [last])[..|sorted|] == Insert(init, f, order);
    }
  }

  lemma {:induction false} SortCommutes(fields: seq<Field<Json>>, order: Order)
    ensures Sort(RenderEach(fields), order) == RenderEach(Sort(fields, order))
    decreases |fields|
  {
    if fields != [] {
      var init, last := fields[..|fields| - 1], fields[|fields| - 1];
      SortCommutes(init, order);
      InsertCommutes(Sort(init, order), last, order);
      assert RenderEach(fields)[..|fields| - 1] == RenderEach(init);
    }
  }

  lemma {:induction false} PairsRender(fields: seq<Field<Json>>)
    ensures Joined(Pairs(RenderEach(fields))) == RenderFields(fields)
    decreases |fields|
  {
    if fields != [] {
      var rest := fields[1..];
      PairsRender(rest);
      assert RenderEach(fields)[1..] == RenderEach(rest);
      assert Pairs(RenderEach(fields)) == [Quoted(fields[0].key) + [COLON] + Render(fields[0].value)] + Pairs(RenderEach(rest));
    }
  }

  lemma {:induction false} ReadRenders(items: seq<Json>)
    ensures RenderItems(Read(items)) == RenderItems(items)
  {
    if items == [Undefined] { assert RenderItems([Undefined]) == []; }
  }

  /** Printing with sorting is sorting and then printing. */
  lemma {:induction false} CanonicalRenders(v: Json, order: Order)
    ensures Canonical(v, order) == Render(Canon(v, order))
    decreases v
  {
    if v.Arr? {
      ItemsRender(v.items, order);
      ReadRenders(CanonItems(v.items, order));
    } else if v.Obj? {
      FieldsRender(v.fields, order);
      SortCommutes(CanonFields(v.fields, order), order);
      PairsRender(Sort(CanonFields(v.fields, order), order));
    }
  }

  lemma {:induction false} ItemsRender(items: seq<Json>, order: Order)
    ensures Joined(PrintItems(items, order)) == RenderItems(CanonItems(items, order))
    decreases items
  {
    if items != [] {
      CanonicalRenders(items[0], order);
      ItemsRender(items[1..], order);
      assert CanonItems(items, order)[1..] == CanonItems(items[1..], order);
      assert PrintItems(items, order)[1..] == PrintItems(items[1..], order);
    }
  }

  lemma {:induction false} FieldsRender(fields: seq<Field<Json>>, order: Order)
    ensures PrintFields(fields, order) == RenderEach(CanonFields(fields, order))
    decreases fields
  {
    if fields != [] {
      CanonicalRenders(fields[0].value, order);
      FieldsRender(fields[1..], order);
      var canon := CanonFields(fields, order);
      assert canon[1..] == CanonFields(fields[1..], order);
      assert RenderEach(canon) == [Field(canon[0].key, Render(canon[0].value))] + RenderEach(canon[1..]);
    }
  }

  // ---------------------------------------------------------------- the parser

  /** The rest of a string after its opening quote. */
  function ParseUnits(t: Text): (r: Option<(Text, Text)>)
    ensures r.Some? ==> |r.value.1| < |t|
    decreases |t|
  {
    if t == [] then None
    else if t[0] == QUOTE then Some(([], t[1..]))
    else if t[0] == BACKSLASH then
      if |t| < 2 then None
      else if t[1] == LETTER_U then
        if |t| < 6 || HexValue(t[2]).None? || HexValue(t[3]).None? || HexValue(t[4]).None? || HexValue(t[5]).None? then None
        else
          var u := 4096 * HexValue(t[2]).value + 256 * HexValue(t[3]).value + 16 * HexValue(t[4]).value + HexValue(t[5]).value;
          Prepend(u, ParseUnits(t[6..]))
      else if LongEscape(t[1]).None? then None
      else Prepend(LongEscape(t[1]).value, ParseUnits(t[2..]))
    else Prepend(t[0], ParseUnits(t[1..]))
  }

  function Prepend(u: nat, rest: Option<(Text, Text)>): Option<(Text, Text)> {
    if rest.None? || u >= 65536 then None else Some(([u] + rest.value.0, rest.value.1))
  }

  predicate InNumber(u: Unit) {
    48 <= u < 58 || u == 43 || u == 45 || u == 46 || u == 69 || u == 101
  }

  /** The longest run of number characters. */
  function NumberRun(t: Text): (n: nat)
    ensures n <= |t| && forall i :: 0 <= i < n ==> InNumber(t[i])
  {
    if t == [] || !InNumber(t[0]) then 0 else 1 + NumberRun(t[1..])
  }

  function Word(t: Text, word: Text, v: Json): Option<(Json, Text)> {
    if word <= t then Some((v, t[|word|..])) else None
  }

  function Parse(t: Text): (r: Option<(Json, Text)>)
    ensures r.Some? ==> |r.value.1| < |t|
    decreases |t|, 0
  {
    if t == [] then None
    else if t[0] == QUOTE then
      var s := ParseUnits(t[1..]);
      if s.None? then None else Some((Str(s.value.0), s.value.1))
    else if t[0] == OPEN_ARRAY then
      if |t| > 1 && t[1] == CLOSE_ARRAY then Some((Arr([]), t[2..]))
      else
        var items := ParseItems(t[1..]);
        if items.None? then None else Some((Arr(items.value.0), items.value.1))
    else if t[0] == OPEN_OBJECT then
      if |t| > 1 && t[1] == CLOSE_OBJECT then Some((Obj([]), t[2..]))
      else
        var fields := ParseFields(t[1..]);
        if fields.None? then None else Some((Obj(fields.value.0), fields.value.1))
    else if InNumber(t[0]) then Some((Number(t[..NumberRun(t)]), t[NumberRun(t)..]))
    else if t[0] == 110 then Word(t, NULL, Null)
    else if t[0] == 116 then Word(t, TRUE, Bool(true))
    else if t[0] == 102 then Word(t, FALSE, Bool(false))
    else Word(t, UNDEFINED, Undefined)
  }

  predicate StartsWith(t: Text, u: Unit) {
    |t| > 0 && t[0] == u
  }

  /** Elements up to the closing bracket; nothing before a separator is an undefined element. */
  function ParseItems(t: Text): (r: Option<(seq<Json>, Text)>)
    ensures r.Some? ==> |r.value.1| < |t|
    decreases |t|, 1
  {
    var first := if StartsWith(t, COMMA) || StartsWith(t, CLOSE_ARRAY) then Some((Undefined, t)) else Parse(t);
    if first.None? then None
    else
      var (v, rest) := first.value;
      if StartsWith(rest, CLOSE_ARRAY) then Some(([v], rest[1..]))
      else if StartsWith(rest, COMMA) then
        var more := ParseItems(rest[1..]);
        if more.None? then None else Some(([v] + more.value.0, more.value.1))
      else None
  }

  function ParseField(t: Text): (r: Option<(Field<Json>, Text)>)
    ensures r.Some? ==> |r.value.1| < |t|
    decreases |t|, 0
  {
    if !StartsWith(t, QUOTE) then None
    else
      var key := ParseUnits(t[1..]);
      if key.None? || !StartsWith(key.value.1, COLON) then None
      else
        var value := Parse(key.value.1[1..]);
        if value.None? then None else Some((Field(key.value.0, value.value.0), value.value.1))
  }

  function ParseFields(t: Text): (r: Option<(seq<Field<Json>>, Text)>)
    ensures r.Some? ==> |r.value.1| < |t|
    decreases |t|, 1
  {
    var first := ParseField(t);
    if first.None? then None
    else
      var (f, rest) := first.value;
      if StartsWith(rest, CLOSE_OBJECT) then Some(([f], rest[1..]))
      else if StartsWith(rest, COMMA) then
        var more := ParseFields(rest[1..]);
        if more.None? then None else Some(([f] + more.value.0, more.value.1))
      else None
  }

  // ---------------------------------------------------------------- the parser undoes the printer

  lemma {:induction false} Shift(a: Text, b: Text, c: Text, d: Text)
    ensures a + b + c + d == a + (b + c + d)
  {
  }

  lemma {:induction false} ShiftOver(a: Text, sep: Text, b: Text, c: Text, d: Text)
    ensures a + sep + b + c + d == a + (sep + (b + c + d))
  {
  }

  lemma {:induction false} Regroup(a: Text, b: Text, c: Text, d: Text)
    ensures a + b + c + d == a + (b + (c + d))
  {
  }

  lemma {:induction false} Uncons(u: Unit, t: Text)
    ensures ([u] + t)[0] == u && ([u] + t)[1..] == t
  {
  }

  /** Number texts are number texts. */
  predicate WellFormed(v: Json)
    decreases v
  {
    match v
    case Number(text) => text != [] && forall i :: 0 <= i < |text| ==> InNumber(text[i])
    case Arr(items) => forall i :: 0 <= i < |items| ==> WellFormed(items[i])
    case Obj(fields) => forall i :: 0 <= i < |fields| ==> WellFormed(fields[i].value)
    case _ => true
  }

  /** No array of exactly one undefined element, at any depth. */
  predicate NoLoneUndefined(v: Json)
    decreases v
  {
    match v
    case Arr(items) => items != [Undefined] && forall i :: 0 <= i < |items| ==> NoLoneUndefined(items[i])
    case Obj(fields) => forall i :: 0 <= i < |fields| ==> NoLoneUndefined(fields[i].value)
    case _ => true
  }

  lemma {:induction false} DigitUndone(n: nat)
    requires n < 16
    ensures HexValue(HexDigit(n)) == Some(n)
  {
  }

  lemma {:induction false} HexUndoes(u: Unit)
    ensures u / 4096 < 16
    ensures 4096 * (u / 4096) + 256 * (u / 256 % 16) + 16 * (u / 16 % 16) + u % 16 == u
  {
    var a := u / 16;
    var b := a / 16;
    var c := b / 16;
    assert u == 16 * a + u % 16 && a == 16 * b + a % 16 && b == 16 * c + b % 16;
    assert b == u / 256 && c == u / 4096;
  }

  lemma {:induction false} EscapeUndone(u: Unit, tail: Text)
    ensures ParseUnits(Escaped(u) + tail) == Prepend(u, ParseUnits(tail))
  {
    HexUndoes(u);
    DigitUndone(u / 4096);
    DigitUndone(u / 256 % 16);
    DigitUndone(u / 16 % 16);
    DigitUndone(u % 16);
    assert (Escaped(u) + tail)[6..] == tail;
  }

  lemma {:induction false} RawUndone(u: Unit, tail: Text)
    requires u != QUOTE && u != BACKSLASH
    ensures ParseUnits([u] + tail) == Prepend(u, ParseUnits(tail))
  {
    assert ([u] + tail)[1..] == tail;
  }

  lemma {:induction false} UnitUndone(u: Unit, tail: Text)
    ensures ParseUnits(QuoteUnit(u) + tail) == Prepend(u, ParseUnits(tail))
  {
    if ShortEscape(u).Some? {
      assert (QuoteUnit(u) + tail)[2..] == tail;
    } else if u < 32 || High(u) || Low(u) {
      EscapeUndone(u, tail);
    } else {
      RawUndone(u, tail);
    }
  }

  lemma {:induction false} PairUndone(high: Unit, low: Unit, tail: Text)
    requires High(high) && Low(low)
    ensures ParseUnits([high, low] + tail) == Prepend(high, Prepend(low, ParseUnits(tail)))
  {
    RawUndone(low, tail);
    RawUndone(high, [low] + tail);
    assert [high, low] + tail == [high] + ([low] + tail);
  }

  /** The parser reads a quoted string back, code unit by code unit. */
  lemma {:induction false} UnitsUndone(s: Text, rest: Text)
    ensures ParseUnits(QuoteUnits(s) + [QUOTE] + rest) == Some((s, rest))
    decreases |s|
  {
    if s == [] {
      assert [] + [QUOTE] + rest == [QUOTE] + rest;
      Uncons(QUOTE, rest);
    } else if High(s[0]) && |s| > 1 && Low(s[1]) {
      UnitsUndone(s[2..], rest);
      Shift([s[0], s[1]], QuoteUnits(s[2..]), [QUOTE], rest);
      PairUndone(s[0], s[1], QuoteUnits(s[2..]) + [QUOTE] + rest);
      assert s == [s[0]] + ([s[1]] + s[2..]);
    } else {
      UnitsUndone(s[1..], rest);
      Shift(QuoteUnit(s[0]), QuoteUnits(s[1..]), [QUOTE], rest);
      UnitUndone(s[0], QuoteUnits(s[1..]) + [QUOTE] + rest);
      assert s == [s[0]] + s[1..];
    }
  }

  lemma {:induction false} StringUndone(s: Text, rest: Text)
    ensures Quoted(s) + rest == [QUOTE] + (QuoteUnits(s) + [QUOTE] + rest)
    ensures ParseUnits((Quoted(s) + rest)[1..]) == Some((s, rest))
  {
    UnitsUndone(s, rest);
    assert (Quoted(s) + rest)[1..] == QuoteUnits(s) + [QUOTE] + rest;
  }

  lemma {:induction false} RunUndone(text: Text, rest: Text)
    requires (forall i :: 0 <= i < |text| ==> InNumber(text[i])) && Delimited(rest)
    ensures NumberRun(text + rest) == |text|
  {
    if text != [] {
      assert (text + rest)[1..] == text[1..] + rest;
      RunUndone(text[1..], rest);
    } else {
      assert text + rest == rest;
    }
  }

  predicate Delimited(rest: Text) {
    rest == [] || !InNumber(rest[0])
  }

  /** What a printed value cannot begin with. */
  lemma {:induction false} RenderStarts(v: Json)
    requires WellFormed(v)
    ensures Render(v) != [] && Render(v)[0] != COMMA && Render(v)[0] != CLOSE_ARRAY && Render(v)[0] != CLOSE_OBJECT
  {
  }

  lemma {:induction false} ScalarUndone(v: Json, rest: Text)
    requires !v.Arr? && !v.Obj? && WellFormed(v) && Delimited(rest)
    ensures Parse(Scalar(v) + rest) == Some((v, rest))
  {
    var t := Scalar(v) + rest;
    match v {
      case Str(s) => StringUndone(s, rest);
      case Number(text) =>
        RunUndone(text, rest);
        assert t[..|text|] == text && t[|text|..] == rest;
      case Undefined => assert t[|UNDEFINED|..] == rest;
      case Null => assert t[|NULL|..] == rest;
      case Bool(b) => assert t[|if b then TRUE else FALSE|..] == rest;
    }
  }

  lemma {:induction false} ArrayParses(inner: Text, items: seq<Json>, rest: Text)
    requires ParseItems(inner) == Some((items, rest)) && !StartsWith(inner, CLOSE_ARRAY)
    ensures Parse([OPEN_ARRAY] + inner) == Some((Arr(items), rest))
  {
    assert ([OPEN_ARRAY] + inner)[1..] == inner;
  }

  lemma {:induction false} ObjectParses(inner: Text, fields: seq<Field<Json>>, rest: Text)
    requires ParseFields(inner) == Some((fields, rest)) && StartsWith(inner, QUOTE)
    ensures Parse([OPEN_OBJECT] + inner) == Some((Obj(fields), rest))
  {
    assert ([OPEN_OBJECT] + inner)[1..] == inner;
  }

  lemma {:induction false} EmptyParses(rest: Text)
    ensures Parse([OPEN_ARRAY] + [] + [CLOSE_ARRAY] + rest) == Some((Arr([]), rest))
    ensures Parse([OPEN_OBJECT] + [] + [CLOSE_OBJECT] + rest) == Some((Obj([]), rest))
  {
    assert ([OPEN_ARRAY] + [] + [CLOSE_ARRAY] + rest)[2..] == rest && ([OPEN_OBJECT] + [] + [CLOSE_OBJECT] + rest)[2..] == rest;
  }

  lemma {:induction false} ArrayUndone(items: seq<Json>, rest: Text)
    requires items != [Undefined] && forall i :: 0 <= i < |items| ==> WellFormed(items[i]) && NoLoneUndefined(items[i])
    ensures Parse([OPEN_ARRAY] + RenderItems(items) + [CLOSE_ARRAY] + rest) == Some((Arr(items), rest))
    decreases items, 1
  {
    if items == [] {
      EmptyParses(rest);
    } else {
      ItemsUndone(items, rest);
      ItemsStart(items, rest);
      ArrayParses(RenderItems(items) + [CLOSE_ARRAY] + rest, items, rest);
      Shift([OPEN_ARRAY], RenderItems(items), [CLOSE_ARRAY], rest);
    }
  }

  lemma {:induction false} ObjectUndone(fields: seq<Field<Json>>, rest: Text)
    requires forall i :: 0 <= i < |fields| ==> WellFormed(fields[i].value) && NoLoneUndefined(fields[i].value)
    ensures Parse([OPEN_OBJECT] + RenderFields(fields) + [CLOSE_OBJECT] + rest) == Some((Obj(fields), rest))
    decreases fields, 1
  {
    if fields == [] {
      EmptyParses(rest);
    } else {
      FieldsUndone(fields, rest);
      FieldsStart(fields, rest);
      ObjectParses(RenderFields(fields) + [CLOSE_OBJECT] + rest, fields, rest);
      Shift([OPEN_OBJECT], RenderFields(fields), [CLOSE_OBJECT], rest);
    }
  }

  /** What is printed without sorting reads back as itself, whatever follows. */
  lemma {:induction false} ParseUndoesRender(v: Json, rest: Text)
    requires WellFormed(v) && NoLoneUndefined(v) && Delimited(rest)
    ensures Parse(Render(v) + rest) == Some((v, rest))
    decreases v, 2
  {
    if v.Arr? {
      ArrayUndone(v.items, rest);
    } else if v.Obj? {
      ObjectUndone(v.fields, rest);
    } else {
      ScalarUndone(v, rest);
    }
  }

  lemma {:induction false} FieldsStart(fields: seq<Field<Json>>, rest: Text)
    requires fields != []
    ensures StartsWith(RenderFields(fields) + [CLOSE_OBJECT] + rest, QUOTE)
  {
  }

  lemma {:induction false} ItemsStart(items: seq<Json>, rest: Text)
    requires items != [] && items != [Undefined] && forall i :: 0 <= i < |items| ==> WellFormed(items[i])
    ensures !StartsWith(RenderItems(items) + [CLOSE_ARRAY] + rest, CLOSE_ARRAY)
  {
    if !items[0].Undefined? { RenderStarts(items[0]); }
  }

  /** How one element and what follows it read. */
  lemma {:induction false} ItemParses(v: Json, text: Text, tail: Text)
    requires if v.Undefined? then text == [] else Parse(text + tail) == Some((v, tail)) && !StartsWith(text + tail, COMMA) && !StartsWith(text + tail, CLOSE_ARRAY)
    requires StartsWith(tail, COMMA) || StartsWith(tail, CLOSE_ARRAY)
    ensures StartsWith(tail, CLOSE_ARRAY) ==> ParseItems(text + tail) == Some(([v], tail[1..]))
    ensures StartsWith(tail, COMMA) && ParseItems(tail[1..]).Some? ==>
              ParseItems(text + tail) == Some(([v] + ParseItems(tail[1..]).value.0, ParseItems(tail[1..]).value.1))
  {
    if v.Undefined? { assert text + tail == tail; }
  }

  lemma {:induction false} ItemsUndone(items: seq<Json>, rest: Text)
    requires items != [] && forall i :: 0 <= i < |items| ==> WellFormed(items[i]) && NoLoneUndefined(items[i])
    ensures ParseItems(RenderItems(items) + [CLOSE_ARRAY] + rest) == Some((items, rest))
    decreases items, 0
  {
    var first := if items[0].Undefined? then [] else Render(items[0]);
    var more := RenderItems(items[1..]) + [CLOSE_ARRAY] + rest;
    var tail := if |items| == 1 then [CLOSE_ARRAY] + rest else [COMMA] + more;
    assert RenderItems(items) + [CLOSE_ARRAY] + rest == first + tail by {
      if |items| == 1 { Shift(first, [], [CLOSE_ARRAY], rest); } else { ShiftOver(first, [COMMA], RenderItems(items[1..]), [CLOSE_ARRAY], rest); }
    }
    if !items[0].Undefined? {
      RenderStarts(items[0]);
      ParseUndoesRender(items[0], tail);
    }
    ItemParses(items[0], first, tail);
    if |items| == 1 {
      assert items == [items[0]] && tail[1..] == rest;
    } else {
      ItemsUndone(items[1..], rest);
      assert items == [items[0]] + items[1..] && tail[1..] == more;
    }
  }

  lemma {:induction false} FieldUndone(f: Field<Json>, tail: Text)
    requires Parse(Render(f.value) + tail) == Some((f.value, tail))
    ensures ParseField(Quoted(f.key) + [COLON] + Render(f.value) + tail) == Some((f, tail))
    ensures StartsWith(Quoted(f.key) + [COLON] + Render(f.value) + tail, QUOTE)
  {
    var value := [COLON] + (Render(f.value) + tail);
    Regroup(Quoted(f.key), [COLON], Render(f.value), tail);
    StringUndone(f.key, value);
    Uncons(COLON, Render(f.value) + tail);
  }

  /** How one field and what follows it read. */
  lemma {:induction false} FieldParses(f: Field<Json>, text: Text, tail: Text)
    requires ParseField(text + tail) == Some((f, tail)) && (StartsWith(tail, COMMA) || StartsWith(tail, CLOSE_OBJECT))
    ensures StartsWith(tail, CLOSE_OBJECT) ==> ParseFields(text + tail) == Some(([f], tail[1..]))
    ensures StartsWith(tail, COMMA) && ParseFields(tail[1..]).Some? ==>
              ParseFields(text + tail) == Some(([f] + ParseFields(tail[1..]).value.0, ParseFields(tail[1..]).value.1))
  {
  }

  lemma {:induction false} FieldsUndone(fields: seq<Field<Json>>, rest: Text)
    requires fields != [] && forall i :: 0 <= i < |fields| ==> WellFormed(fields[i].value) && NoLoneUndefined(fields[i].value)
    ensures ParseFields(RenderFields(fields) + [CLOSE_OBJECT] + rest) == Some((fields, rest))
    decreases fields, 0
  {
    var first := Quoted(fields[0].key) + [COLON] + Render(fields[0].value);
    var more := RenderFields(fields[1..]) + [CLOSE_OBJECT] + rest;
    var tail := if |fields| == 1 then [CLOSE_OBJECT] + rest else [COMMA] + more;
    assert RenderFields(fields) + [CLOSE_OBJECT] + rest == first + tail by {
      if |fields| == 1 { Shift(first, [], [CLOSE_OBJECT], rest); } else { ShiftOver(first, [COMMA], RenderFields(fields[1..]), [CLOSE_OBJECT], rest); }
    }
    ParseUndoesRender(fields[0].value, tail);
    FieldUndone(fields[0], tail);
    FieldParses(fields[0], first, tail);
    if |fields| == 1 {
      assert fields == [fields[0]] && tail[1..] == rest;
    } else {
      FieldsUndone(fields[1..], rest);
      assert fields == [fields[0]] + fields[1..] && tail[1..] == more;
    }
  }
}
