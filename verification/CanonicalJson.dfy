/**
 `stableStringify`: JSON text with sorted keys. A reader undoes the printer, so equal texts mean equal
 values, up to key order and dropped undefined fields, and conversely.
 */
module CanonicalJson {
  import opened Wrappers
  import opened Ordering

  /** JavaScript strings are sequences of UTF-16 code units. */
  type Unit = u: int | 0 <= u < 0x1_0000
  type Text = seq<Unit>

  /** Integers stand for numbers printed without fraction or exponent (magnitude below 10^21). */
  datatype Json =
    | Undefined | Null | Bool(b: bool) | Int(n: int) | Str(s: Text)
    | Arr(items: seq<Json>) | Obj(fields: seq<Field>)

  datatype Field = Field(key: Text, value: Json)

  const QUOTE: Unit := 34
  const COMMA: Unit := 44
  const MINUS: Unit := 45
  const COLON: Unit := 58
  const OPEN: Unit := 91
  const BACKSLASH: Unit := 92
  const CLOSE: Unit := 93
  const OPEN_BRACE: Unit := 123
  const CLOSE_BRACE: Unit := 125
  const NULL_TEXT: Text := [110, 117, 108, 108]
  const TRUE_TEXT: Text := [116, 114, 117, 101]
  const FALSE_TEXT: Text := [102, 97, 108, 115, 101]

  // ---------- strings ----------

  predicate High(u: Unit) { 0xD800 <= u <= 0xDBFF }
  predicate Low(u: Unit) { 0xDC00 <= u <= 0xDFFF }

  function HexDigit(d: nat): Unit
    requires d < 16
  {
    if d < 10 then 48 + d else 87 + d
  }

  function UnicodeEscape(u: Unit): Text {
    [BACKSLASH, 117, HexDigit(u / 4096), HexDigit(u / 256 % 16), HexDigit(u / 16 % 16), HexDigit(u % 16)]
  }

  /** How JSON.stringify writes one code unit that is not half of a surrogate pair. */
  function Escape(u: Unit): Text {
    if u == 8 then [BACKSLASH, 98]
    else if u == 9 then [BACKSLASH, 116]
    else if u == 10 then [BACKSLASH, 110]
    else if u == 12 then [BACKSLASH, 102]
    else if u == 13 then [BACKSLASH, 114]
    else if u == QUOTE || u == BACKSLASH then [BACKSLASH, u]
    else if u < 32 || High(u) || Low(u) then UnicodeEscape(u)
    else [u]
  }

  function EscapeAll(s: Text): Text {
    if s == [] then []
    else if |s| >= 2 && High(s[0]) && Low(s[1]) then [s[0], s[1]] + EscapeAll(s[2..])
    else Escape(s[0]) + EscapeAll(s[1..])
  }

  function Quote(s: Text): Text {
    [QUOTE] + EscapeAll(s) + [QUOTE]
  }

  // ---------- the printer ----------

  function Defined(fields: seq<Field>): seq<Field> {
    if fields == [] then []
    else (if fields[0].value.Undefined? then [] else [fields[0]]) + Defined(fields[1..])
  }

  function Insert(f: Field, sorted: seq<Field>): seq<Field> {
    if sorted == [] || SeqLe(f.key, sorted[0].key) then [f] + sorted else [sorted[0]] + Insert(f, sorted[1..])
  }

  function Sort(fields: seq<Field>): seq<Field> {
    if fields == [] then [] else Insert(fields[0], Sort(fields[1..]))
  }

  /** The fields that are printed, in the order they are printed. */
  function Canon(fields: seq<Field>): (canon: seq<Field>)
    ensures forall f :: f in canon <==> f in fields && !f.value.Undefined?
  {
    DefinedMembers(fields);
    SortMembers(Defined(fields));
    Sort(Defined(fields))
  }

  lemma {:induction false} DefinedMembers(fields: seq<Field>)
    ensures forall f :: f in Defined(fields) <==> f in fields && !f.value.Undefined?
  {
    if fields != [] { DefinedMembers(fields[1..]); }
  }

  lemma {:induction false} InsertMembers(f: Field, sorted: seq<Field>)
    ensures |Insert(f, sorted)| == |sorted| + 1
    ensures forall g :: g in Insert(f, sorted) <==> g == f || g in sorted
  {
    if sorted != [] && !SeqLe(f.key, sorted[0].key) { InsertMembers(f, sorted[1..]); }
  }

  lemma {:induction false} SortMembers(fields: seq<Field>)
    ensures |Sort(fields)| == |fields|
    ensures forall f :: f in Sort(fields) <==> f in fields
  {
    if fields != [] {
      SortMembers(fields[1..]);
      InsertMembers(fields[0], Sort(fields[1..]));
    }
  }

  function Digits(n: nat): Text {
    if n < 10 then [48 + n] else Digits(n / 10) + [48 + n % 10]
  }

  function OrNull(v: Json): Json {
    if v.Undefined? then Null else v
  }

  function Stringify(v: Json): Text
    decreases v, 1
  {
    match v
    case Undefined => []
    case Null => NULL_TEXT
    case Bool(b) => if b then TRUE_TEXT else FALSE_TEXT
    case Int(n) => if n < 0 then [MINUS] + Digits(-n) else Digits(n)
    case Str(s) => Quote(s)
    case Arr(items) => [OPEN] + StringifyItems(items, v) + [CLOSE]
    case Obj(fields) => [OPEN_BRACE] + StringifyMembers(Canon(fields), v) + [CLOSE_BRACE]
  }

  /** The elements of `owner` from here on, joined by commas; undefined and null print alike. */
  function StringifyItems(items: seq<Json>, ghost owner: Json): Text
    requires forall i :: 0 <= i < |items| ==> items[i] < owner
    decreases owner, 0, |items|
  {
    if items == [] then []
    else
      (if items[0].Undefined? then NULL_TEXT else Stringify(items[0]))
      + (if |items| == 1 then [] else [COMMA] + StringifyItems(items[1..], owner))
  }

  function StringifyMembers(fields: seq<Field>, ghost owner: Json): Text
    requires forall i :: 0 <= i < |fields| ==> fields[i].value < owner
    decreases owner, 0, |fields|
  {
    if fields == [] then []
    else
      Quote(fields[0].key) + [COLON] + Stringify(fields[0].value)
      + (if |fields| == 1 then [] else [COMMA] + StringifyMembers(fields[1..], owner))
  }

  // ---------- a reader ----------

  function UnHex(u: Unit): Option<nat> {
    if 48 <= u <= 57 then Some(u - 48) else if 97 <= u <= 102 then Some(u - 87) else None
  }

  function UnEscape(u: Unit): Option<Unit> {
    if u == 98 then Some(8) else if u == 116 then Some(9) else if u == 110 then Some(10)
    else if u == 102 then Some(12) else if u == 114 then Some(13)
    else if u == QUOTE || u == BACKSLASH then Some(u) else None
  }

  /** The four hex digits at the front of `t`. */
  function UnHex4(t: Text): Option<Unit>
    requires |t| >= 4
  {
    var a, b, c, d := UnHex(t[0]), UnHex(t[1]), UnHex(t[2]), UnHex(t[3]);
    if a.Some? && b.Some? && c.Some? && d.Some? && a.value < 16 && b.value < 16 && c.value < 16 && d.value < 16
    then Some(a.value * 4096 + b.value * 256 + c.value * 16 + d.value) else None
  }

  function Prefixed(u: Unit, r: Option<(Text, Text)>): Option<(Text, Text)> {
    if r.None? then None else Some(([u] + r.value.0, r.value.1))
  }

  /** A string whose opening quote has been read. */
  function ReadString(t: Text): (r: Option<(Text, Text)>)
    ensures r.Some? ==> |r.value.1| < |t|
  {
    if t == [] then None
    else if t[0] == QUOTE then Some(([], t[1..]))
    else if t[0] != BACKSLASH then Prefixed(t[0], ReadString(t[1..]))
    else if |t| >= 6 && t[1] == 117 && UnHex4(t[2..]).Some? then Prefixed(UnHex4(t[2..]).value, ReadString(t[6..]))
    else if |t| >= 2 && UnEscape(t[1]).Some? then Prefixed(UnEscape(t[1]).value, ReadString(t[2..]))
    else None
  }

  predicate IsDigit(u: Unit) { 48 <= u <= 57 }

  function ReadDigits(t: Text, sum: nat): (r: (nat, Text))
    ensures |r.1| <= |t|
    decreases |t|
  {
    if t != [] && IsDigit(t[0]) then ReadDigits(t[1..], sum * 10 + (t[0] - 48)) else (sum, t)
  }

  function ReadValue(t: Text): (r: Option<(Json, Text)>)
    ensures r.Some? ==> |r.value.1| < |t|
    decreases |t|, 0
  {
    if t == [] then None
    else if NULL_TEXT <= t then Some((Null, t[4..]))
    else if TRUE_TEXT <= t then Some((Bool(true), t[4..]))
    else if FALSE_TEXT <= t then Some((Bool(false), t[5..]))
    else if t[0] == QUOTE then
      var r := ReadString(t[1..]);
      if r.None? then None else Some((Str(r.value.0), r.value.1))
    else if t[0] == MINUS then
      if |t| > 1 && IsDigit(t[1]) then Some((Int(0 - ReadDigits(t[1..], 0).0), ReadDigits(t[1..], 0).1)) else None
    else if IsDigit(t[0]) then Some((Int(ReadDigits(t[1..], t[0] - 48).0), ReadDigits(t[1..], t[0] - 48).1))
    else if t[0] == OPEN then
      if |t| > 1 && t[1] == CLOSE then Some((Arr([]), t[2..]))
      else
        var r := ReadItems(t[1..]);
        if r.None? then None else Some((Arr(r.value.0), r.value.1))
    else if t[0] == OPEN_BRACE then
      if |t| > 1 && t[1] == CLOSE_BRACE then Some((Obj([]), t[2..]))
      else
        var r := ReadMembers(t[1..]);
        if r.None? then None else Some((Obj(r.value.0), r.value.1))
    else None
  }

  function ReadItems(t: Text): (r: Option<(seq<Json>, Text)>)
    ensures r.Some? ==> |r.value.1| < |t|
    decreases |t|, 1
  {
    var first := ReadValue(t);
    if first.None? || first.value.1 == [] then None
    else
      var rest := first.value.1;
      if rest[0] == CLOSE then Some(([first.value.0], rest[1..]))
      else if rest[0] == COMMA then
        var others := ReadItems(rest[1..]);
        if others.None? then None else Some(([first.value.0] + others.value.0, others.value.1))
      else None
  }

  function ReadMember(t: Text): (r: Option<(Field, Text)>)
    ensures r.Some? ==> |r.value.1| < |t|
    decreases |t|, 1
  {
    if t == [] || t[0] != QUOTE then None
    else
      var key := ReadString(t[1..]);
      if key.None? || key.value.1 == [] || key.value.1[0] != COLON then None
      else
        var value := ReadValue(key.value.1[1..]);
        if value.None? then None else Some((Field(key.value.0, value.value.0), value.value.1))
  }

  function ReadMembers(t: Text): (r: Option<(seq<Field>, Text)>)
    ensures r.Some? ==> |r.value.1| < |t|
    decreases |t|, 2
  {
    var first := ReadMember(t);
    if first.None? || first.value.1 == [] then None
    else
      var rest := first.value.1;
      if rest[0] == CLOSE_BRACE then Some(([first.value.0], rest[1..]))
      else if rest[0] == COMMA then
        var others := ReadMembers(rest[1..]);
        if others.None? then None else Some(([first.value.0] + others.value.0, others.value.1))
      else None
  }

  // ---------- the reader undoes the printer ----------

  /** What a printed value reads back as: fields sorted and defined, undefined elements null. */
  function Norm(v: Json): Json
    decreases v, 1
  {
    match v
    case Arr(items) => Arr(NormItems(items, v))
    case Obj(fields) => Obj(NormMembers(Canon(fields), v))
    case _ => v
  }

  function NormItems(items: seq<Json>, ghost owner: Json): (r: seq<Json>)
    requires forall i :: 0 <= i < |items| ==> items[i] < owner
    ensures |r| == |items|
    decreases owner, 0, |items|
  {
    if items == [] then []
    else [if items[0].Undefined? then Null else Norm(items[0])] + NormItems(items[1..], owner)
  }

  function NormMembers(fields: seq<Field>, ghost owner: Json): (r: seq<Field>)
    requires forall i :: 0 <= i < |fields| ==> fields[i].value < owner
    ensures |r| == |fields|
    decreases owner, 0, |fields|
  {
    if fields == [] then [] else [Field(fields[0].key, Norm(fields[0].value))] + NormMembers(fields[1..], owner)
  }

  lemma HexParts(u: Unit)
    ensures u / 4096 < 16
    ensures u == u / 4096 * 4096 + u / 256 % 16 * 256 + u / 16 % 16 * 16 + u % 16
  {
    assert u / 16 / 16 == u / 256 && u / 256 / 16 == u / 4096;
  }

  lemma UnHexDigit(d: nat)
    requires d < 16
    ensures UnHex(HexDigit(d)) == Some(d)
  {}

  lemma HexRoundTrip(u: Unit, y: Text)
    ensures UnHex4(UnicodeEscape(u)[2..] + y) == Some(u)
  {
    HexParts(u);
    var a, b, c, d := u / 4096, u / 256 % 16, u / 16 % 16, u % 16;
    UnHexDigit(a);
    UnHexDigit(b);
    UnHexDigit(c);
    UnHexDigit(d);
    var t := UnicodeEscape(u)[2..] + y;
    assert t[0] == HexDigit(a) && t[1] == HexDigit(b) && t[2] == HexDigit(c) && t[3] == HexDigit(d);
    hide HexDigit, UnHex;
  }

  lemma ReadEscape(u: Unit, y: Text)
    ensures ReadString(Escape(u) + y) == Prefixed(u, ReadString(y))
  {
    var t := Escape(u) + y;
    if Escape(u) == UnicodeEscape(u) {
      HexRoundTrip(u, y);
      assert t[2..] == UnicodeEscape(u)[2..] + y && t[6..] == y;
    } else if |Escape(u)| == 2 {
      assert t[2..] == y && UnEscape(t[1]) == Some(u);
      assert t[1] != 117;
    } else {
      assert t[1..] == y;
    }
  }

  lemma ReadRaw(u: Unit, y: Text)
    requires u != QUOTE && u != BACKSLASH
    ensures ReadString([u] + y) == Prefixed(u, ReadString(y))
  {
    assert ([u] + y)[1..] == y;
  }

  lemma ReadEnd(x: Text)
    ensures ReadString([QUOTE] + x) == Some(([], x))
  {
    assert ([QUOTE] + x)[1..] == x;
  }

  lemma Regroup(a: Text, b: Text, c: Text)
    ensures (a + b) + c == a + (b + c)
  {}

  lemma FirstTwo(s: Text)
    requires |s| >= 2
    ensures [s[0]] + ([s[1]] + s[2..]) == s
  {
    assert s[1..] == [s[1]] + s[2..];
    assert s == [s[0]] + s[1..];
  }

  lemma EscapePair(s: Text, end: Text)
    requires |s| >= 2 && High(s[0]) && Low(s[1])
    ensures EscapeAll(s) + end == [s[0]] + ([s[1]] + (EscapeAll(s[2..]) + end))
    ensures s[0] != QUOTE && s[0] != BACKSLASH && s[1] != QUOTE && s[1] != BACKSLASH
  {
    var rest := EscapeAll(s[2..]);
    assert EscapeAll(s) == [s[0], s[1]] + rest;
    hide EscapeAll;
    Regroup([s[0], s[1]], rest, end);
    assert [s[0], s[1]] == [s[0]] + [s[1]];
    Regroup([s[0]], [s[1]], rest + end);
  }

  lemma EscapeOne(s: Text, end: Text)
    requires s != [] && !(|s| >= 2 && High(s[0]) && Low(s[1]))
    ensures EscapeAll(s) + end == Escape(s[0]) + (EscapeAll(s[1..]) + end)
  {
    hide Escape, High, Low;
    assert EscapeAll(s) == Escape(s[0]) + EscapeAll(s[1..]);
    Regroup(Escape(s[0]), EscapeAll(s[1..]), end);
    hide EscapeAll;
  }

  lemma {:induction false} ReadEscaped(s: Text, x: Text)
    ensures ReadString(EscapeAll(s) + ([QUOTE] + x)) == Some((s, x))
  {
    hide ReadString, Escape, High, Low;
    var end := [QUOTE] + x;
    if s == [] {
      assert EscapeAll(s) + end == end;
      ReadEnd(x);
    } else if |s| >= 2 && High(s[0]) && Low(s[1]) {
      hide EscapeAll;
      var y := EscapeAll(s[2..]) + end;
      FirstTwo(s);
      EscapePair(s, end);
      ReadEscaped(s[2..], x);
      ReadRaw(s[1], y);
      ReadRaw(s[0], [s[1]] + y);
    } else {
      hide EscapeAll;
      assert [s[0]] + s[1..] == s;
      EscapeOne(s, end);
      ReadEscaped(s[1..], x);
      ReadEscape(s[0], EscapeAll(s[1..]) + end);
    }
  }

  predicate NoDigit(x: Text) { x == [] || !IsDigit(x[0]) }

  lemma {:induction false} ReadDecimal(n: nat, y: Text)
    ensures ReadDigits(Digits(n) + y, 0) == ReadDigits(y, n)
    ensures Digits(n) != [] && IsDigit(Digits(n)[0])
  {
    if n < 10 {
      assert (Digits(n) + y)[1..] == y;
    } else {
      var last: Text := [48 + n % 10];
      assert Digits(n) + y == Digits(n / 10) + (last + y);
      ReadDecimal(n / 10, last + y);
      assert (last + y)[1..] == y;
    }
  }

  lemma ReadNumber(t: Text)
    requires |t| > 1
    ensures t[0] == MINUS && IsDigit(t[1]) ==>
              ReadValue(t) == Some((Int(0 - ReadDigits(t[1..], 0).0), ReadDigits(t[1..], 0).1))
  {
    hide ReadItems, ReadMembers, ReadString, ReadDigits;
  }

  lemma ReadNatural(t: Text)
    requires t != [] && IsDigit(t[0])
    ensures ReadValue(t) == Some((Int(ReadDigits(t, 0).0), ReadDigits(t, 0).1))
  {
    hide ReadItems, ReadMembers, ReadString;
    assert ReadDigits(t, 0) == ReadDigits(t[1..], t[0] - 48);
    hide ReadDigits;
  }

  lemma ReadInt(n: int, x: Text)
    requires NoDigit(x)
    ensures ReadValue(Stringify(Int(n)) + x) == Some((Int(n), x))
  {
    assert ReadDigits(x, if n < 0 then -n else n) == (if n < 0 then -n else n, x);
    hide ReadValue, ReadDigits, StringifyItems, StringifyMembers, Quote, Digits, NoDigit;
    if n < 0 {
      var t := [MINUS] + Digits(-n) + x;
      ReadDecimal(-n, x);
      assert t[1..] == Digits(-n) + x && t[1] == Digits(-n)[0];
      ReadNumber(t);
    } else {
      var t := Digits(n) + x;
      ReadDecimal(n, x);
      assert t[0] == Digits(n)[0];
      ReadNatural(t);
    }
  }

  /** The first unit of a printed value is never a bracket that closes. */
  lemma FirstUnit(v: Json)
    requires !v.Undefined?
    ensures Stringify(v) != [] && Stringify(v)[0] != CLOSE
  {
    if v.Int? { ReadDecimal(if v.n < 0 then -v.n else v.n, []); }
  }

  lemma ReadQuoted(t: Text)
    requires t != [] && t[0] == QUOTE
    ensures ReadValue(t) == if ReadString(t[1..]).None? then None
                            else Some((Str(ReadString(t[1..]).value.0), ReadString(t[1..]).value.1))
  {
    hide ReadString, ReadItems, ReadMembers, ReadDigits;
    assert NULL_TEXT[0] != QUOTE && TRUE_TEXT[0] != QUOTE && FALSE_TEXT[0] != QUOTE;
  }

  lemma ReadStringBack(s: Text, x: Text)
    ensures ReadValue(Quote(s) + x) == Some((Str(s), x))
  {
    hide ReadValue, ReadString, EscapeAll;
    var t := Quote(s) + x;
    assert t[1..] == EscapeAll(s) + ([QUOTE] + x);
    ReadEscaped(s, x);
    ReadQuoted(t);
  }

  lemma ReadWordBack(v: Json, x: Text)
    requires v.Null? || v.Bool?
    ensures ReadValue(Stringify(v) + x) == Some((v, x))
  {
    var t := Stringify(v) + x;
    assert t[..|Stringify(v)|] == Stringify(v) && t[|Stringify(v)|..] == x;
    assert t[0] == if v.Null? then 110 else if v.b then 116 else 102;
    if v.Bool? {
      assert !(NULL_TEXT <= t);
      if v.b {
        assert Stringify(v) == TRUE_TEXT <= t;
      } else {
        assert !(TRUE_TEXT <= t) && Stringify(v) == FALSE_TEXT <= t;
      }
    } else {
      assert Stringify(v) == NULL_TEXT <= t;
    }
  }

  lemma {:induction false} ReadBack(v: Json, x: Text)
    requires !v.Undefined? && NoDigit(x)
    ensures ReadValue(Stringify(v) + x) == Some((Norm(v), x))
    decreases v, 1
  {
    hide ReadValue, Quote, NoDigit;
    match v
    case Int(n) => ReadInt(n, x);
    case Str(s) => ReadStringBack(s, x);
    case Arr(items) => ReadArrayBack(items, v, x);
    case Obj(fields) => ReadObjectBack(fields, v, x);
    case _ => ReadWordBack(v, x);
  }

  lemma ReadOpen(t: Text)
    requires |t| > 1
    ensures t[0] == OPEN ==>
              ReadValue(t) == if t[1] == CLOSE then Some((Arr([]), t[2..]))
                              else if ReadItems(t[1..]).None? then None
                              else Some((Arr(ReadItems(t[1..]).value.0), ReadItems(t[1..]).value.1))
    ensures t[0] == OPEN_BRACE ==>
              ReadValue(t) == if t[1] == CLOSE_BRACE then Some((Obj([]), t[2..]))
                              else if ReadMembers(t[1..]).None? then None
                              else Some((Obj(ReadMembers(t[1..]).value.0), ReadMembers(t[1..]).value.1))
  {
    hide ReadItems, ReadMembers;
  }

  lemma {:induction false} ReadArrayBack(items: seq<Json>, v: Json, x: Text)
    requires v == Arr(items) && NoDigit(x)
    ensures ReadValue(Stringify(v) + x) == Some((Norm(v), x))
    decreases v, 0, |items| + 1
  {
    hide ReadValue, ReadItems, ReadMembers;
    var t, body := Stringify(v) + x, StringifyItems(items, v);
    assert t == [OPEN] + (body + ([CLOSE] + x));
    if items == [] {
      assert t == [OPEN, CLOSE] + x && t[2..] == x;
    } else {
      ItemsFirstUnit(items, v);
      ReadItemsBack(items, v, x);
      assert t[1..] == body + ([CLOSE] + x) && t[1] == body[0];
    }
    ReadOpen(t);
  }

  lemma {:induction false} ReadObjectBack(fields: seq<Field>, v: Json, x: Text)
    requires v == Obj(fields) && NoDigit(x)
    ensures ReadValue(Stringify(v) + x) == Some((Norm(v), x))
    decreases v, 0, |Canon(fields)| + 1
  {
    hide ReadValue, ReadItems, ReadMembers;
    var canon := Canon(fields);
    hide Canon;
    var t, body := Stringify(v) + x, StringifyMembers(canon, v);
    assert t == [OPEN_BRACE] + (body + ([CLOSE_BRACE] + x));
    if canon == [] {
      assert t == [OPEN_BRACE, CLOSE_BRACE] + x && t[2..] == x;
    } else {
      ReadMembersBack(canon, v, x);
      assert t[1..] == body + ([CLOSE_BRACE] + x) && t[1] == body[0];
    }
    ReadOpen(t);
  }

  lemma ItemsFirstUnit(items: seq<Json>, owner: Json)
    requires items != [] && forall i :: 0 <= i < |items| ==> items[i] < owner
    ensures StringifyItems(items, owner) != [] && StringifyItems(items, owner)[0] != CLOSE
  {
    if !items[0].Undefined? { FirstUnit(items[0]); }
  }

  lemma ReadItemsStep(t: Text, head: Json, tail: Text)
    requires ReadValue(t) == Some((head, tail)) && tail != []
    ensures tail[0] == CLOSE ==> ReadItems(t) == Some(([head], tail[1..]))
    ensures tail[0] == COMMA && ReadItems(tail[1..]).Some? ==>
              ReadItems(t) == Some(([head] + ReadItems(tail[1..]).value.0, ReadItems(tail[1..]).value.1))
  {
    hide ReadValue;
  }

  function MoreItems(items: seq<Json>, ghost owner: Json): Text
    requires items != [] && forall i :: 0 <= i < |items| ==> items[i] < owner
  {
    if |items| == 1 then [] else [COMMA] + StringifyItems(items[1..], owner)
  }

  lemma ItemsUnfold(items: seq<Json>, owner: Json)
    requires items != [] && forall i :: 0 <= i < |items| ==> items[i] < owner
    ensures StringifyItems(items, owner) == Stringify(OrNull(items[0])) + MoreItems(items, owner)
    ensures NormItems(items, owner) == [Norm(OrNull(items[0]))] + NormItems(items[1..], owner)
    ensures NormItems([], owner) == []
  {}

  lemma {:induction false} ReadItemsBack(items: seq<Json>, owner: Json, x: Text)
    requires items != [] && forall i :: 0 <= i < |items| ==> items[i] < owner
    ensures ReadItems(StringifyItems(items, owner) + ([CLOSE] + x)) == Some((NormItems(items, owner), x))
    decreases owner, 0, |items|
  {
    hide ReadItems, ReadValue, Norm, Stringify, StringifyItems, NormItems;
    var end := [CLOSE] + x;
    var more := MoreItems(items, owner);
    var head, first, tail := Stringify(OrNull(items[0])), Norm(OrNull(items[0])), more + end;
    ItemsUnfold(items, owner);
    assert (head + more) + end == head + tail;
    assert tail != [] && NoDigit(tail);
    if items[0].Undefined? { ReadNull(tail); } else { ReadBack(items[0], tail); }
    ReadItemsStep(head + tail, first, tail);
    if |items| == 1 {
      assert items[1..] == [] && tail == end && tail[1..] == x;
      assert [first] + [] == [first];
    } else {
      var rest := StringifyItems(items[1..], owner);
      assert tail == [COMMA] + (rest + end);
      assert tail[1..] == rest + end;
      ReadItemsBack(items[1..], owner, x);
    }
  }

  lemma ReadNull(x: Text)
    ensures ReadValue(Stringify(Null) + x) == Some((Norm(Null), x))
  {
    ReadWordBack(Null, x);
  }

  lemma ReadMemberBack(f: Field, tail: Text)
    requires ReadValue(Stringify(f.value) + tail) == Some((Norm(f.value), tail))
    ensures ReadMember(Quote(f.key) + [COLON] + Stringify(f.value) + tail) == Some((Field(f.key, Norm(f.value)), tail))
  {
    hide ReadValue, ReadString, EscapeAll, Stringify, Norm;
    var t := Quote(f.key) + [COLON] + Stringify(f.value) + tail;
    var afterKey := [COLON] + (Stringify(f.value) + tail);
    assert t[1..] == EscapeAll(f.key) + ([QUOTE] + afterKey);
    ReadEscaped(f.key, afterKey);
    assert afterKey[1..] == Stringify(f.value) + tail;
  }

  lemma ReadMembersStep(t: Text, head: Field, tail: Text)
    requires ReadMember(t) == Some((head, tail)) && tail != []
    ensures tail[0] == CLOSE_BRACE ==> ReadMembers(t) == Some(([head], tail[1..]))
    ensures tail[0] == COMMA && ReadMembers(tail[1..]).Some? ==>
              ReadMembers(t) == Some(([head] + ReadMembers(tail[1..]).value.0, ReadMembers(tail[1..]).value.1))
  {
    hide ReadMember;
  }

  lemma QuoteFirst(s: Text, x: Text)
    ensures Quote(s) + x != [] && (Quote(s) + x)[0] == QUOTE
  {}

  lemma {:induction false} ReadMembersBack(fields: seq<Field>, owner: Json, x: Text)
    requires fields != [] && forall i :: 0 <= i < |fields| ==> fields[i].value < owner && !fields[i].value.Undefined?
    ensures ReadMembers(StringifyMembers(fields, owner) + ([CLOSE_BRACE] + x)) == Some((NormMembers(fields, owner), x))
    ensures StringifyMembers(fields, owner) != [] && StringifyMembers(fields, owner)[0] == QUOTE
    decreases owner, 0, |fields|
  {
    hide ReadMembers, ReadMember, ReadValue, Norm, Stringify, Quote;
    var f, end := fields[0], [CLOSE_BRACE] + x;
    var more := if |fields| == 1 then [] else [COMMA] + StringifyMembers(fields[1..], owner);
    var tail, first := more + end, Field(f.key, Norm(f.value));
    var head := Quote(f.key) + [COLON] + Stringify(f.value);
    assert StringifyMembers(fields, owner) == head + more;
    assert head + more == Quote(f.key) + ([COLON] + Stringify(f.value) + more);
    QuoteFirst(f.key, [COLON] + Stringify(f.value) + more);
    assert (head + more) + end == head + tail;
    ReadBack(f.value, tail);
    ReadMemberBack(f, tail);
    ReadMembersStep(head + tail, first, tail);
    if |fields| == 1 {
      assert tail == end && tail[1..] == x;
      OneMember(fields, owner);
    } else {
      var rest := StringifyMembers(fields[1..], owner);
      assert tail == [COMMA] + (rest + end);
      assert tail[1..] == rest + end;
      ReadMembersBack(fields[1..], owner, x);
    }
  }

  lemma OneMember(fields: seq<Field>, owner: Json)
    requires |fields| == 1 && fields[0].value < owner
    ensures NormMembers(fields, owner) == [Field(fields[0].key, Norm(fields[0].value))]
  {
    hide Norm;
    assert NormMembers(fields[1..], owner) == [];
  }

  // ---------- equality of values, without any order ----------

  ghost predicate DistinctKeys(fields: seq<Field>) {
    forall i, j :: 0 <= i < j < |fields| ==> fields[i].key != fields[j].key
  }

  /** Every object in the value has distinct keys, as JavaScript objects do. */
  ghost predicate WellFormed(v: Json) {
    match v
    case Arr(items) => forall i :: 0 <= i < |items| ==> WellFormed(items[i])
    case Obj(fields) => DistinctKeys(fields) && forall i :: 0 <= i < |fields| ==> WellFormed(fields[i].value)
    case _ => true
  }

  ghost function KeysOf(fields: seq<Field>): set<Text> {
    set i | 0 <= i < |fields| && !fields[i].value.Undefined? :: fields[i].key
  }

  /** Equal up to the order of keys, undefined fields, and undefined standing for null in arrays. */
  ghost predicate Same(a: Json, b: Json) {
    match (a, b)
    case (Arr(xs), Arr(ys)) =>
      |xs| == |ys| && forall i :: 0 <= i < |xs| ==>
        if xs[i].Undefined? || ys[i].Undefined? then OrNull(xs[i]) == OrNull(ys[i]) else Same(xs[i], ys[i])
    case (Obj(fs), Obj(gs)) =>
      KeysOf(fs) == KeysOf(gs)
      && forall i, j | 0 <= i < |fs| && 0 <= j < |gs| && fs[i].key == gs[j].key
                       && !fs[i].value.Undefined? && !gs[j].value.Undefined? :: Same(fs[i].value, gs[j].value)
    case _ => a == b
  }

  ghost predicate Ascending(fields: seq<Field>) {
    forall i, j :: 0 <= i < j < |fields| ==> SeqLe(fields[i].key, fields[j].key) && fields[i].key != fields[j].key
  }

  lemma {:induction false} InsertAscending(f: Field, sorted: seq<Field>)
    requires Ascending(sorted) && forall i :: 0 <= i < |sorted| ==> sorted[i].key != f.key
    ensures Ascending(Insert(f, sorted))
  {
    var r := Insert(f, sorted);
    if sorted == [] {
    } else if SeqLe(f.key, sorted[0].key) {
      forall j | 0 <= j < |sorted| ensures SeqLe(f.key, sorted[j].key) {
        if j > 0 { SeqLeTransitive(f.key, sorted[0].key, sorted[j].key); }
      }
    } else {
      var rest := Insert(f, sorted[1..]);
      InsertAscending(f, sorted[1..]);
      InsertMembers(f, sorted[1..]);
      SeqLeTotal(f.key, sorted[0].key);
      forall j | 0 <= j < |rest| ensures SeqLe(sorted[0].key, rest[j].key) && sorted[0].key != rest[j].key {
        assert rest[j] in rest;
        if rest[j] != f { assert rest[j] in sorted[1..]; }
      }
    }
  }

  lemma {:induction false} SortAscending(fields: seq<Field>)
    requires DistinctKeys(fields)
    ensures Ascending(Sort(fields))
  {
    if fields != [] {
      var rest := fields[1..];
      SortAscending(rest);
      SortMembers(rest);
      var sorted := Sort(rest);
      forall i | 0 <= i < |sorted| ensures sorted[i].key != fields[0].key {
        assert sorted[i] in sorted;
      }
      InsertAscending(fields[0], sorted);
    }
  }

  lemma {:induction false} DefinedDistinct(fields: seq<Field>)
    requires DistinctKeys(fields)
    ensures DistinctKeys(Defined(fields))
  {
    if fields != [] {
      DefinedDistinct(fields[1..]);
      DefinedMembers(fields[1..]);
      var rest := Defined(fields[1..]);
      forall j | 0 <= j < |rest| ensures rest[j].key != fields[0].key { assert rest[j] in rest; }
    }
  }

  lemma CanonAscending(fields: seq<Field>)
    requires DistinctKeys(fields)
    ensures Ascending(Canon(fields))
  {
    DefinedDistinct(fields);
    SortAscending(Defined(fields));
  }

  /** The printed keys are the keys of the defined fields. */
  lemma CanonKeys(fields: seq<Field>, k: Text)
    ensures k in KeysOf(fields) <==> exists i :: 0 <= i < |Canon(fields)| && Canon(fields)[i].key == k
  {
    var canon := Canon(fields);
    if k in KeysOf(fields) {
      var i :| 0 <= i < |fields| && !fields[i].value.Undefined? && fields[i].key == k;
      assert fields[i] in canon;
    }
    if i :| 0 <= i < |canon| && canon[i].key == k {
      assert canon[i] in canon;
    }
  }

  ghost predicate SameKeys(p: seq<Field>, q: seq<Field>) {
    |p| == |q| && forall i :: 0 <= i < |p| ==> p[i].key == q[i].key
  }

  ghost predicate HasKey(p: seq<Field>, k: Text) {
    exists i :: 0 <= i < |p| && p[i].key == k
  }

  /** An ascending list is determined by its set of keys. */
  lemma {:induction false} AscendingUnique(p: seq<Field>, q: seq<Field>)
    requires Ascending(p) && Ascending(q) && forall k :: HasKey(p, k) <==> HasKey(q, k)
    ensures SameKeys(p, q)
  {
    if p == [] || q == [] {
      if p != [] { assert HasKey(p, p[0].key); }
      if q != [] { assert HasKey(q, q[0].key); }
    } else {
      var a, b := p[0].key, q[0].key;
      assert HasKey(p, a) && HasKey(q, b);
      var i :| 0 <= i < |q| && q[i].key == a;
      var j :| 0 <= j < |p| && p[j].key == b;
      SeqLeTotal(a, b);
      assert a == b;
      forall k ensures HasKey(p[1..], k) <==> HasKey(q[1..], k) {
        TailKeys(p, k);
        TailKeys(q, k);
      }
      AscendingUnique(p[1..], q[1..]);
      forall n | 0 <= n < |p| ensures p[n].key == q[n].key {
        if n > 0 { assert p[n] == p[1..][n - 1] && q[n] == q[1..][n - 1]; }
      }
    }
  }

  lemma TailKeys(p: seq<Field>, k: Text)
    requires p != [] && Ascending(p)
    ensures HasKey(p[1..], k) <==> HasKey(p, k) && k != p[0].key
  {
    if HasKey(p[1..], k) {
      var i :| 0 <= i < |p| - 1 && p[1..][i].key == k;
      assert p[i + 1].key == k;
    }
    if HasKey(p, k) && k != p[0].key {
      var i :| 0 <= i < |p| && p[i].key == k;
      assert p[1..][i - 1].key == k;
    }
  }

  // ---------- equal values print alike ----------

  lemma {:induction false} SameItemsPrint(xs: seq<Json>, ys: seq<Json>, a: Json, b: Json)
    requires |xs| == |ys|
    requires forall i :: 0 <= i < |xs| ==> xs[i] < a && ys[i] < b
    requires forall i :: 0 <= i < |xs| ==> Stringify(OrNull(xs[i])) == Stringify(OrNull(ys[i]))
    ensures StringifyItems(xs, a) == StringifyItems(ys, b)
  {
    if xs != [] {
      assert Stringify(OrNull(xs[0])) == Stringify(OrNull(ys[0]));
      forall i | 0 <= i < |xs| - 1 ensures Stringify(OrNull(xs[1..][i])) == Stringify(OrNull(ys[1..][i])) {
        assert xs[1..][i] == xs[i + 1] && ys[1..][i] == ys[i + 1];
      }
      SameItemsPrint(xs[1..], ys[1..], a, b);
    }
  }

  lemma {:induction false} SameMembersPrint(p: seq<Field>, q: seq<Field>, a: Json, b: Json)
    requires SameKeys(p, q)
    requires forall i :: 0 <= i < |p| ==> p[i].value < a && q[i].value < b
    requires forall i :: 0 <= i < |p| ==> Stringify(p[i].value) == Stringify(q[i].value)
    ensures StringifyMembers(p, a) == StringifyMembers(q, b)
  {
    if p != [] {
      assert p[0].key == q[0].key && Stringify(p[0].value) == Stringify(q[0].value);
      forall i | 0 <= i < |p| - 1
        ensures p[1..][i].key == q[1..][i].key && Stringify(p[1..][i].value) == Stringify(q[1..][i].value)
      {
        assert p[1..][i] == p[i + 1] && q[1..][i] == q[i + 1];
      }
      SameMembersPrint(p[1..], q[1..], a, b);
    }
  }

  lemma SameCanonKeys(fs: seq<Field>, gs: seq<Field>)
    requires DistinctKeys(fs) && DistinctKeys(gs) && KeysOf(fs) == KeysOf(gs)
    ensures SameKeys(Canon(fs), Canon(gs))
  {
    var p, q := Canon(fs), Canon(gs);
    CanonAscending(fs);
    CanonAscending(gs);
    forall k ensures HasKey(p, k) <==> HasKey(q, k) {
      CanonKeys(fs, k);
      CanonKeys(gs, k);
    }
    AscendingUnique(p, q);
  }

  lemma {:induction false} SamePrints(a: Json, b: Json)
    requires WellFormed(a) && WellFormed(b) && Same(a, b)
    ensures Stringify(a) == Stringify(b)
    decreases a
  {
    match (a, b)
    case (Arr(xs), Arr(ys)) =>
      forall i | 0 <= i < |xs| ensures Stringify(OrNull(xs[i])) == Stringify(OrNull(ys[i])) {
        if !xs[i].Undefined? && !ys[i].Undefined? { SamePrints(xs[i], ys[i]); }
      }
      SameItemsPrint(xs, ys, a, b);
    case (Obj(fs), Obj(gs)) =>
      var p, q := Canon(fs), Canon(gs);
      SameCanonKeys(fs, gs);
      forall n | 0 <= n < |p| ensures Stringify(p[n].value) == Stringify(q[n].value) {
        assert p[n] in p && q[n] in q;
        var i :| 0 <= i < |fs| && fs[i] == p[n];
        var j :| 0 <= j < |gs| && gs[j] == q[n];
        SamePrints(fs[i].value, gs[j].value);
      }
      SameMembersPrint(p, q, a, b);
    case _ =>
  }

  // ---------- alike prints mean equal values ----------

  lemma {:induction false} NormItemsAt(items: seq<Json>, owner: Json, i: nat)
    requires i < |items| && forall n :: 0 <= n < |items| ==> items[n] < owner
    ensures NormItems(items, owner)[i] == Norm(OrNull(items[i]))
  {
    if i > 0 {
      NormItemsAt(items[1..], owner, i - 1);
    }
  }

  lemma {:induction false} NormMembersAt(fields: seq<Field>, owner: Json, i: nat)
    requires i < |fields| && forall n :: 0 <= n < |fields| ==> fields[n].value < owner
    ensures NormMembers(fields, owner)[i] == Field(fields[i].key, Norm(fields[i].value))
  {
    if i > 0 {
      NormMembersAt(fields[1..], owner, i - 1);
    }
  }

  lemma {:induction false} SameNormSame(a: Json, b: Json)
    requires WellFormed(a) && WellFormed(b) && Norm(a) == Norm(b)
    ensures Same(a, b)
    decreases a
  {
    match (a, b)
    case (Arr(xs), Arr(ys)) =>
      forall i | 0 <= i < |xs|
        ensures if xs[i].Undefined? || ys[i].Undefined? then OrNull(xs[i]) == OrNull(ys[i]) else Same(xs[i], ys[i])
      {
        NormItemsAt(xs, a, i);
        NormItemsAt(ys, b, i);
        if !xs[i].Undefined? && !ys[i].Undefined? { SameNormSame(xs[i], ys[i]); }
      }
    case (Obj(fs), Obj(gs)) =>
      SameNormFields(fs, gs);
      SameNormKeys(fs, gs);
      forall i, j | 0 <= i < |fs| && 0 <= j < |gs| && fs[i].key == gs[j].key && !fs[i].value.Undefined?
        && !gs[j].value.Undefined?
        ensures Same(fs[i].value, gs[j].value)
      {
        SameNormAt(fs, gs, i, j);
        SameNormSame(fs[i].value, gs[j].value);
      }
    case _ =>
  }

  ghost predicate SameNorms(p: seq<Field>, q: seq<Field>) {
    SameKeys(p, q) && forall n :: 0 <= n < |p| ==> Norm(p[n].value) == Norm(q[n].value)
  }

  lemma SameNormFields(fs: seq<Field>, gs: seq<Field>)
    requires Norm(Obj(fs)) == Norm(Obj(gs))
    ensures SameNorms(Canon(fs), Canon(gs))
  {
    var a, b, p, q := Obj(fs), Obj(gs), Canon(fs), Canon(gs);
    assert NormMembers(p, a) == NormMembers(q, b);
    hide Canon;
    forall n | 0 <= n < |p| ensures p[n].key == q[n].key && Norm(p[n].value) == Norm(q[n].value) {
      NormMembersAt(p, a, n);
      NormMembersAt(q, b, n);
    }
  }

  /** Fields of one key sit at the same place of the two printed lists. */
  lemma SameNormAt(fs: seq<Field>, gs: seq<Field>, i: nat, j: nat)
    requires DistinctKeys(gs) && SameNorms(Canon(fs), Canon(gs))
    requires i < |fs| && j < |gs| && fs[i].key == gs[j].key && !fs[i].value.Undefined? && !gs[j].value.Undefined?
    ensures Norm(fs[i].value) == Norm(gs[j].value)
  {
    CanonAscending(gs);
    var p, q := Canon(fs), Canon(gs);
    assert fs[i] in p && gs[j] in q;
    hide Canon, Norm;
    var n :| 0 <= n < |p| && p[n] == fs[i];
    var m :| 0 <= m < |q| && q[m] == gs[j];
    assert q[n].key == q[m].key;
    assert n == m;
  }

  lemma SameNormKeys(fs: seq<Field>, gs: seq<Field>)
    requires SameKeys(Canon(fs), Canon(gs))
    ensures KeysOf(fs) == KeysOf(gs)
  {
    forall k ensures k in KeysOf(fs) <==> k in KeysOf(gs) {
      CanonKeys(fs, k);
      CanonKeys(gs, k);
    }
  }

  /** Canonical form: two values print alike exactly when they are equal up to key order and undefined fields. */
  lemma Canonical(a: Json, b: Json)
    requires WellFormed(a) && WellFormed(b)
    ensures Stringify(a) == Stringify(b) <==> Same(a, b)
  {
    if Stringify(a) == Stringify(b) {
      if a.Undefined? || b.Undefined? {
        if !a.Undefined? { FirstUnit(a); }
        if !b.Undefined? { FirstUnit(b); }
      } else {
        ReadBack(a, []);
        ReadBack(b, []);
        assert Stringify(a) + [] == Stringify(b) + [];
        SameNormSame(a, b);
      }
    }
    if Same(a, b) { SamePrints(a, b); }
  }

  // ---------- samples ----------

  function Codes(s: string): Text
    requires forall i :: 0 <= i < |s| ==> s[i] as int < 0x1_0000
  {
    seq(|s|, i requires 0 <= i < |s| => s[i] as int)
  }

  /** The punctuation and the words are those of JSON. */
  lemma Punctuation()
    ensures [QUOTE, BACKSLASH, COMMA, COLON] == Codes("\"\\,:") && [OPEN, CLOSE] == Codes("[]")
    ensures [OPEN_BRACE, CLOSE_BRACE, MINUS] == Codes("{}-")
    ensures NULL_TEXT == Codes("null") && TRUE_TEXT == Codes("true") && FALSE_TEXT == Codes("false")
    ensures forall d: nat :: d < 10 ==> Digits(d) == [48 + d]
  {}

  /** How each unit is written: five have names, two get a backslash, the rest below 32 and half pairs are in hex. */
  lemma EscapeIs(u: Unit)
    ensures Escape(u) == [u] <==> u >= 32 && u != 0x22 && u != 0x5C && !(0xD800 <= u <= 0xDFFF)
    ensures Escape(8) == Codes("\\b") && Escape(9) == Codes("\\t") && Escape(12) == Codes("\\f")
    ensures Escape(10) == Codes("\\n") && Escape(13) == Codes("\\r")
    ensures Escape(0x22) == Codes("\\\"") && Escape(0x5C) == Codes("\\\\")
    ensures (u < 32 && u !in {8, 9, 10, 12, 13}) || 0xD800 <= u <= 0xDFFF ==> Escape(u) == UnicodeEscape(u)
    ensures UnicodeEscape(0x1F) == Codes("\\u001f") && UnicodeEscape(0xD83D) == Codes("\\ud83d")
  {}
}
