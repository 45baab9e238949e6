/**
The payload behind an idempotency key: `json.dumps(..., sort_keys=True)` over values without floats.

A Python dict is an insertion-ordered list of fields with distinct keys, so `Json` keeps the order and
`Denote` forgets it.  The main result, `DumpsCanonical`, says that two values print the same text exactly
when they are the same JSON value, whatever order their dicts were built in.  (Python also calls `True` and `1`
equal; they are different JSON values and print differently.)
*/
module CanonicalJson {
  import opened Wrappers

  datatype Json =
    | JNull
    | JBool(b: bool)
    | JInt(n: int)
    | JStr(s: string)
    | JArr(items: seq<Json>)
    | JObj(fields: seq<Field>)

  datatype Field = Field(key: string, value: Json)

  /** The JSON value itself: dict order does not matter. */
  datatype Value =
    | VNull
    | VBool(b: bool)
    | VInt(n: int)
    | VStr(s: string)
    | VArr(items: seq<Value>)
    | VObj(fields: map<string, Value>)

  function Denote(j: Json): Value
    decreases j, 1
  {
    match j
    case JNull => VNull
    case JBool(b) => VBool(b)
    case JInt(n) => VInt(n)
    case JStr(s) => VStr(s)
    case JArr(items) => VArr(DenoteItems(items))
    case JObj(fields) => VObj(DenoteFields(fields))
  }

  function DenoteItems(items: seq<Json>): (r: seq<Value>)
    ensures |r| == |items|
    decreases items, 0
  {
    if items == [] then [] else [Denote(items[0])] + DenoteItems(items[1..])
  }

  function DenoteFields(fields: seq<Field>): map<string, Value>
    decreases fields, 0
  {
    if fields == [] then map[] else DenoteFields(fields[1..])[fields[0].key := Denote(fields[0].value)]
  }

  ghost predicate HasKey(fields: seq<Field>, k: string) {
    exists f :: f in fields && f.key == k
  }

  /** A value a Python program can hold: no dict repeats a key. */
  ghost predicate Wf(j: Json)
    decreases j, 1
  {
    match j
    case JArr(items) => WfItems(items)
    case JObj(fields) => WfFields(fields)
    case _ => true
  }

  ghost predicate WfItems(items: seq<Json>)
    decreases items, 0
  {
    items == [] || (Wf(items[0]) && WfItems(items[1..]))
  }

  ghost predicate WfFields(fields: seq<Field>)
    decreases fields, 0
  {
    fields == [] || (Wf(fields[0].value) && !HasKey(fields[1..], fields[0].key) && WfFields(fields[1..]))
  }

  lemma WfCons(f: Field, fields: seq<Field>)
    requires Wf(f.value) && WfFields(fields) && forall g :: g in fields ==> g.key != f.key
    ensures WfFields([f] + fields)
  {
    assert ([f] + fields)[1..] == fields;
  }

  // ---------------------------------------------------------------- sorting

  /** Python's order on strings: by code point, a proper prefix first. */
  predicate Below(a: string, b: string) {
    b != [] && (a == [] || a[0] < b[0] || (a[0] == b[0] && Below(a[1..], b[1..])))
  }

  lemma {:induction false} BelowTotal(a: string, b: string)
    ensures Below(a, b) || a == b || Below(b, a)
  {
    if a != [] && b != [] && a[0] == b[0] {
      BelowTotal(a[1..], b[1..]);
      assert a == [a[0]] + a[1..] && b == [b[0]] + b[1..];
    }
  }

  lemma {:induction false} BelowTransitive(a: string, b: string, c: string)
    requires Below(a, b) && Below(b, c)
    ensures Below(a, c)
  {
    if a != [] && a[0] == b[0] && b[0] == c[0] {
      BelowTransitive(a[1..], b[1..], c[1..]);
    }
  }

  lemma {:induction false} BelowIrreflexive(a: string, b: string)
    requires Below(a, b)
    ensures a != b && !Below(b, a)
  {
    if a != [] && a[0] == b[0] {
      BelowIrreflexive(a[1..], b[1..]);
    }
  }

  function Insert(f: Field, fields: seq<Field>): seq<Field> {
    if fields == [] || !Below(fields[0].key, f.key) then [f] + fields
    else [fields[0]] + Insert(f, fields[1..])
  }

  /** `sort_keys=True`, applied at every depth. */
  function Sorted(j: Json): Json
    decreases j, 1
  {
    match j
    case JArr(items) => JArr(SortedItems(items))
    case JObj(fields) => JObj(SortedFields(fields))
    case _ => j
  }

  function SortedItems(items: seq<Json>): seq<Json>
    decreases items, 0
  {
    if items == [] then [] else [Sorted(items[0])] + SortedItems(items[1..])
  }

  function SortedFields(fields: seq<Field>): seq<Field>
    decreases fields, 0
  {
    if fields == [] then []
    else Insert(Field(fields[0].key, Sorted(fields[0].value)), SortedFields(fields[1..]))
  }

  /** Sorted at every depth with strictly increasing keys. */
  ghost predicate Normal(j: Json)
    decreases j, 1
  {
    match j
    case JArr(items) => NormalItems(items)
    case JObj(fields) => NormalFields(fields)
    case _ => true
  }

  ghost predicate NormalItems(items: seq<Json>)
    decreases items, 0
  {
    items == [] || (Normal(items[0]) && NormalItems(items[1..]))
  }

  ghost predicate NormalFields(fields: seq<Field>)
    decreases fields, 0
  {
    fields == [] ||
    (Normal(fields[0].value) && NormalFields(fields[1..])
     && forall f :: f in fields[1..] ==> Below(fields[0].key, f.key))
  }

  lemma {:induction false} DenoteFieldsKeys(fields: seq<Field>, k: string)
    ensures k in DenoteFields(fields) <==> HasKey(fields, k)
  {
    if fields != [] {
      DenoteFieldsKeys(fields[1..], k);
      assert forall f :: f in fields <==> f == fields[0] || f in fields[1..];
    }
  }

  lemma {:induction false} InsertMembers(f: Field, fields: seq<Field>)
    ensures forall g :: g in Insert(f, fields) <==> g == f || g in fields
  {
    if fields != [] && Below(fields[0].key, f.key) {
      InsertMembers(f, fields[1..]);
      assert fields == [fields[0]] + fields[1..];
    }
  }

  lemma {:induction false} InsertNormal(f: Field, fields: seq<Field>)
    requires NormalFields(fields) && Normal(f.value) && !HasKey(fields, f.key)
    ensures NormalFields(Insert(f, fields))
  {
    if fields == [] {
    } else if !Below(fields[0].key, f.key) {
      BelowTotal(fields[0].key, f.key);
      assert fields[0] in fields;
      forall g | g in fields ensures Below(f.key, g.key) {
        if g != fields[0] { BelowTransitive(f.key, fields[0].key, g.key); }
      }
      assert ([f] + fields)[1..] == fields;
    } else {
      var tail := Insert(f, fields[1..]);
      assert forall g :: g in fields[1..] ==> g in fields;
      InsertNormal(f, fields[1..]);
      InsertMembers(f, fields[1..]);
      assert ([fields[0]] + tail)[1..] == tail;
    }
  }

  lemma {:induction false} InsertDenote(f: Field, fields: seq<Field>)
    requires !HasKey(fields, f.key)
    ensures DenoteFields(Insert(f, fields)) == DenoteFields(fields)[f.key := Denote(f.value)]
  {
    if fields == [] {
    } else if !Below(fields[0].key, f.key) {
      DenoteCons(f, fields);
    } else {
      var tail := Insert(f, fields[1..]);
      assert forall g :: g in fields[1..] ==> g in fields;
      assert fields[0] in fields;
      InsertDenote(f, fields[1..]);
      DenoteCons(fields[0], tail);
      UpdatesCommute(DenoteFields(fields[1..]), f.key, Denote(f.value), fields[0].key, Denote(fields[0].value));
    }
  }

  lemma UpdatesCommute(m: map<string, Value>, j: string, x: Value, k: string, y: Value)
    requires j != k
    ensures m[j := x][k := y] == m[k := y][j := x]
  {
  }

  lemma DenoteCons(f: Field, fields: seq<Field>)
    ensures DenoteFields([f] + fields) == DenoteFields(fields)[f.key := Denote(f.value)]
  {
    assert ([f] + fields)[1..] == fields;
  }

  lemma {:induction false} SortedSpec(j: Json)
    requires Wf(j)
    ensures Normal(Sorted(j)) && Denote(Sorted(j)) == Denote(j)
    decreases j, 1
  {
    match j
    case JArr(items) => SortedItemsSpec(items);
    case JObj(fields) => SortedFieldsSpec(fields);
    case _ =>
  }

  lemma {:induction false} SortedItemsSpec(items: seq<Json>)
    requires WfItems(items)
    ensures NormalItems(SortedItems(items)) && DenoteItems(SortedItems(items)) == DenoteItems(items)
    decreases items, 0
  {
    if items != [] {
      SortedSpec(items[0]);
      SortedItemsSpec(items[1..]);
      assert SortedItems(items)[1..] == SortedItems(items[1..]);
    }
  }

  lemma {:induction false} SortedFieldsSpec(fields: seq<Field>)
    requires WfFields(fields)
    ensures NormalFields(SortedFields(fields)) && DenoteFields(SortedFields(fields)) == DenoteFields(fields)
    ensures forall k :: HasKey(SortedFields(fields), k) <==> HasKey(fields, k)
    decreases fields, 0
  {
    if fields != [] {
      SortedSpec(fields[0].value);
      SortedFieldsSpec(fields[1..]);
      var f := Field(fields[0].key, Sorted(fields[0].value));
      assert !HasKey(SortedFields(fields[1..]), f.key);
      InsertNormal(f, SortedFields(fields[1..]));
      InsertDenote(f, SortedFields(fields[1..]));
    }
    forall k ensures HasKey(SortedFields(fields), k) <==> HasKey(fields, k) {
      DenoteFieldsKeys(SortedFields(fields), k);
      DenoteFieldsKeys(fields, k);
    }
  }

  /** A normal form is determined by the value it denotes. */
  lemma {:induction false} NormalUnique(a: Json, b: Json)
    requires Normal(a) && Normal(b) && Denote(a) == Denote(b)
    ensures a == b
    decreases a, 1
  {
    match a
    case JArr(items) => NormalItemsUnique(items, b.items);
    case JObj(fields) => NormalFieldsUnique(fields, b.fields);
    case _ =>
  }

  lemma {:induction false} NormalItemsUnique(a: seq<Json>, b: seq<Json>)
    requires NormalItems(a) && NormalItems(b) && DenoteItems(a) == DenoteItems(b)
    ensures a == b
    decreases a, 0
  {
    if a != [] {
      assert |a| == |b| by { assert |DenoteItems(a)| == |DenoteItems(b)|; }
      assert DenoteItems(a)[0] == DenoteItems(b)[0];
      assert DenoteItems(a)[1..] == DenoteItems(a[1..]) && DenoteItems(b)[1..] == DenoteItems(b[1..]);
      NormalUnique(a[0], b[0]);
      NormalItemsUnique(a[1..], b[1..]);
      assert a == [a[0]] + a[1..] && b == [b[0]] + b[1..];
    }
  }

  lemma {:induction false} NormalFieldsUnique(a: seq<Field>, b: seq<Field>)
    requires NormalFields(a) && NormalFields(b) && DenoteFields(a) == DenoteFields(b)
    ensures a == b
    decreases a, 0
  {
    if a == [] {
      if b != [] { DenoteFieldsKeys(b, b[0].key); }
    } else {
      var ka := a[0].key;
      assert ka in DenoteFields(b);
      DenoteFieldsKeys(b, ka);
      var kb := b[0].key;
      assert kb in DenoteFields(a);
      DenoteFieldsKeys(a, kb);
      if ka != kb {
        assert Below(ka, kb) && Below(kb, ka);
        BelowIrreflexive(ka, kb);
      }
      NormalUnique(a[0].value, b[0].value);
      HeadNotInTail(a);
      HeadNotInTail(b);
      assert DenoteFields(a[1..]) == DenoteFields(a) - {ka};
      assert DenoteFields(b[1..]) == DenoteFields(b) - {ka};
      NormalFieldsUnique(a[1..], b[1..]);
      assert a == [a[0]] + a[1..] && b == [b[0]] + b[1..];
    }
  }

  lemma HeadNotInTail(a: seq<Field>)
    requires a != [] && NormalFields(a)
    ensures a[0].key !in DenoteFields(a[1..])
  {
    DenoteFieldsKeys(a[1..], a[0].key);
    if f :| f in a[1..] && f.key == a[0].key { BelowIrreflexive(a[0].key, f.key); }
  }

  // --------------------------------------------------------------- printing

  function Digit(d: int): (c: char)
    requires 0 <= d < 16
  {
    if d < 10 then (48 + d) as char else (87 + d) as char
  }

  // Each printer writes in front of `rest`, the text that follows it.

  function Hex4(n: int, rest: string): string
    requires 0 <= n < 0x1_0000
  {
    var q := n / 16;
    var p := q / 16;
    [Digit(p / 16), Digit(p % 16), Digit(q % 16), Digit(n % 16)] + rest
  }

  /** `ensure_ascii=True`: anything outside printable ASCII leaves as an escape (section 7 of RFC 8259). */
  function EscapeChar(c: char, rest: string): (r: string)
    ensures r != [] && r[0] != '\"'
  {
    var n := c as int;
    if c == '\"' then ['\\', '\"'] + rest
    else if c == '\\' then ['\\', '\\'] + rest
    else if n == 10 then ['\\', 'n'] + rest
    else if n == 13 then ['\\', 'r'] + rest
    else if n == 9 then ['\\', 't'] + rest
    else if n == 12 then ['\\', 'f'] + rest
    else if n == 8 then ['\\', 'b'] + rest
    else if 32 <= n <= 126 then [c] + rest
    else ['\\', 'u'] + EscapeUnicode(n, rest)
  }

  /** What follows `\\u`; above the basic plane, a surrogate pair. */
  function EscapeUnicode(n: int, rest: string): string
    requires 0 <= n < 0x11_0000
  {
    if n < 0x1_0000 then Hex4(n, rest)
    else Hex4(0xD800 + (n - 0x1_0000) / 0x400, ['\\', 'u'] + Hex4(0xDC00 + (n - 0x1_0000) % 0x400, rest))
  }

  /** The body of a string literal and its closing quote. */
  function PrintChars(s: string, rest: string): string {
    if s == [] then ['\"'] + rest else EscapeChar(s[0], PrintChars(s[1..], rest))
  }

  function PrintNat(n: nat, rest: string): (r: string)
    ensures r != [] && '0' <= r[0] <= '9'
  {
    if n < 10 then [Digit(n)] + rest else PrintNat(n / 10, [Digit(n % 10)] + rest)
  }

  function PrintInt(n: int, rest: string): string {
    if n < 0 then ['-'] + PrintNat(-n, rest) else PrintNat(n, rest)
  }

  function Print(j: Json, rest: string): (r: string)
    ensures r != [] && r[0] != ']'
    decreases j, 1
  {
    match j
    case JNull => "null" + rest
    case JBool(b) => (if b then "true" else "false") + rest
    case JInt(n) => PrintInt(n, rest)
    case JStr(s) => ['\"'] + PrintChars(s, rest)
    case JArr(items) => if items == [] then "[]" + rest else ['['] + PrintItems(items, rest)
    case JObj(fields) => if fields == [] then "{}" + rest else ['{'] + PrintFields(fields, rest)
  }

  /** The items and the closing bracket. */
  function PrintItems(items: seq<Json>, rest: string): (r: string)
    requires items != []
    ensures r != [] && r[0] != ']'
    decreases items, 0
  {
    Print(items[0], if |items| == 1 then [']'] + rest else [',', ' '] + PrintItems(items[1..], rest))
  }

  function PrintFields(fields: seq<Field>, rest: string): (r: string)
    requires fields != []
    ensures r != [] && r[0] == '\"'
    decreases fields, 0
  {
    PrintField(fields[0], if |fields| == 1 then ['}'] + rest else [',', ' '] + PrintFields(fields[1..], rest))
  }

  function PrintField(f: Field, tail: string): (r: string)
    ensures r != [] && r[0] == '\"'
    decreases f, 2
  {
    ['\"'] + PrintChars(f.key, [':', ' '] + Print(f.value, tail))
  }

  /** `json.dumps(j, sort_keys=True)`. */
  function Dumps(j: Json): string {
    Print(Sorted(j), [])
  }

  // ---------------------------------------------------------------- parsing

  datatype Parsed<+T> = Parsed(value: T, rest: string)

  predicate IsDigit(c: char) { '0' <= c <= '9' }

  function HexValue(c: char): (r: Option<int>)
    ensures r.Some? ==> 0 <= r.value < 16
  {
    if '0' <= c <= '9' then Some(c as int - 48)
    else if 'a' <= c <= 'f' then Some(c as int - 87)
    else None
  }

  function ParseHex4(s: string): (r: Option<int>)
    ensures r.Some? ==> |s| >= 4 && 0 <= r.value < 0x1_0000
  {
    if |s| < 4 then None else
    match (HexValue(s[0]), HexValue(s[1]), HexValue(s[2]), HexValue(s[3]))
    case (Some(a), Some(b), Some(c), Some(d)) => Some(4096 * a + 256 * b + 16 * c + d)
    case _ => None
  }

  function ParseUnicode(s: string): (r: Option<Parsed<char>>)
    ensures r.Some? ==> |r.value.rest| < |s|
  {
    match ParseHex4(s)
    case None => None
    case Some(n) =>
      if n < 0xD800 || 0xE000 <= n then Some(Parsed(n as char, s[4..]))
      else if n < 0xDC00 && |s| >= 6 && s[4] == '\\' && s[5] == 'u' then
        match ParseHex4(s[6..])
        case Some(m) =>
          if 0xDC00 <= m < 0xE000 then
            Some(Parsed((0x1_0000 + (n - 0xD800) * 0x400 + (m - 0xDC00)) as char, s[10..]))
          else None
        case None => None
      else None
  }

  function ParseChar(s: string): (r: Option<Parsed<char>>)
    requires s != []
    ensures r.Some? ==> |r.value.rest| < |s|
  {
    if s[0] != '\\' then Some(Parsed(s[0], s[1..]))
    else if |s| < 2 then None
    else if s[1] == '\"' then Some(Parsed('\"', s[2..]))
    else if s[1] == '\\' then Some(Parsed('\\', s[2..]))
    else if s[1] == 'n' then Some(Parsed(10 as char, s[2..]))
    else if s[1] == 'r' then Some(Parsed(13 as char, s[2..]))
    else if s[1] == 't' then Some(Parsed(9 as char, s[2..]))
    else if s[1] == 'f' then Some(Parsed(12 as char, s[2..]))
    else if s[1] == 'b' then Some(Parsed(8 as char, s[2..]))
    else if s[1] == 'u' then ParseUnicode(s[2..])
    else None
  }

  function ParseChars(s: string): (r: Option<Parsed<string>>)
    ensures r.Some? ==> |r.value.rest| < |s|
    decreases |s|
  {
    if s == [] then None
    else if s[0] == '\"' then Some(Parsed([], s[1..]))
    else
      match ParseChar(s)
      case None => None
      case Some(head) =>
        match ParseChars(head.rest)
        case None => None
        case Some(tail) => Some(Parsed([head.value] + tail.value, tail.rest))
  }

  function ParseDigits(s: string, acc: nat): (r: Parsed<nat>)
    ensures |r.rest| <= |s|
    decreases |s|
  {
    if s != [] && IsDigit(s[0]) then ParseDigits(s[1..], 10 * acc + (s[0] as int - 48)) else Parsed(acc, s)
  }

  predicate StartsWith(s: string, prefix: string) {
    |prefix| <= |s| && s[..|prefix|] == prefix
  }

  function ParseKeyword(s: string, word: string, j: Json): Option<Parsed<Json>> {
    if StartsWith(s, word) then Some(Parsed(j, s[|word|..])) else None
  }

  function Parse(s: string): (r: Option<Parsed<Json>>)
    ensures r.Some? ==> |r.value.rest| < |s|
    decreases |s|, 0
  {
    if s == [] then None
    else if s[0] == 'n' then ParseKeyword(s, "null", JNull)
    else if s[0] == 't' then ParseKeyword(s, "true", JBool(true))
    else if s[0] == 'f' then ParseKeyword(s, "false", JBool(false))
    else if s[0] == '\"' then
      match ParseChars(s[1..])
      case Some(p) => Some(Parsed(JStr(p.value), p.rest))
      case None => None
    else if s[0] == '[' then
      if |s| > 1 && s[1] == ']' then Some(Parsed(JArr([]), s[2..])) else
      match ParseItems(s[1..])
      case Some(p) => Some(Parsed(JArr(p.value), p.rest))
      case None => None
    else if s[0] == '{' then
      if |s| > 1 && s[1] == '}' then Some(Parsed(JObj([]), s[2..])) else
      match ParseFields(s[1..])
      case Some(p) => Some(Parsed(JObj(p.value), p.rest))
      case None => None
    else if s[0] == '-' then
      if |s| > 1 && IsDigit(s[1]) then
        var p := ParseDigits(s[1..], 0);
        var n: int := p.value;
        Some(Parsed(JInt(-n), p.rest))
      else None
    else if IsDigit(s[0]) then
      var p := ParseDigits(s[1..], s[0] as int - 48);
      Some(Parsed(JInt(p.value), p.rest))
    else None
  }

  /** The two-character separators of `json.dumps`. */
  predicate Separator(s: string, c: char) { |s| >= 2 && s[0] == c && s[1] == ' ' }

  function ParseItems(s: string): (r: Option<Parsed<seq<Json>>>)
    ensures r.Some? ==> |r.value.rest| < |s|
    decreases |s|, 1
  {
    match Parse(s)
    case None => None
    case Some(head) =>
      if head.rest != [] && head.rest[0] == ']' then Some(Parsed([head.value], head.rest[1..]))
      else if Separator(head.rest, ',') then
        match ParseItems(head.rest[2..])
        case Some(tail) => Some(Parsed([head.value] + tail.value, tail.rest))
        case None => None
      else None
  }

  function ParseFields(s: string): (r: Option<Parsed<seq<Field>>>)
    ensures r.Some? ==> |r.value.rest| < |s|
    decreases |s|, 1
  {
    if s == [] || s[0] != '\"' then None else
    match ParseChars(s[1..])
    case None => None
    case Some(key) =>
      if !Separator(key.rest, ':') then None else
      match Parse(key.rest[2..])
      case None => None
      case Some(head) =>
        var field := Field(key.value, head.value);
        if head.rest != [] && head.rest[0] == '}' then Some(Parsed([field], head.rest[1..]))
        else if Separator(head.rest, ',') then
          match ParseFields(head.rest[2..])
          case Some(tail) => Some(Parsed([field] + tail.value, tail.rest))
          case None => None
        else None
  }

  // ------------------------------------------------------------- round trip

  predicate NoDigit(rest: string) { rest == [] || !IsDigit(rest[0]) }

  lemma HexDigit(d: int)
    requires 0 <= d < 16
    ensures HexValue(Digit(d)) == Some(d)
  {
  }

  lemma HexDigits(a: int, b: int, c: int, d: int, rest: string)
    requires 0 <= a < 16 && 0 <= b < 16 && 0 <= c < 16 && 0 <= d < 16
    ensures ParseHex4([Digit(a), Digit(b), Digit(c), Digit(d)] + rest) == Some(4096 * a + 256 * b + 16 * c + d)
  {
    HexDigit(a);
    HexDigit(b);
    HexDigit(c);
    HexDigit(d);
  }

  lemma HexRoundTrip(n: int, rest: string)
    requires 0 <= n < 0x1_0000
    ensures ParseHex4(Hex4(n, rest)) == Some(n) && |Hex4(n, rest)| >= 4 && Hex4(n, rest)[4..] == rest
  {
    var q := n / 16;
    var p := q / 16;
    HexDigits(p / 16, p % 16, q % 16, n % 16, rest);
    assert n == 16 * q + n % 16 && q == 16 * p + q % 16 && p == 16 * (p / 16) + p % 16;
  }

  lemma SurrogateStep(s: string, hi: int, t: string, lo: int)
    requires ParseHex4(s) == Some(hi) && 0xD800 <= hi < 0xDC00 && s[4..] == ['\\', 'u'] + t
    requires ParseHex4(t) == Some(lo) && 0xDC00 <= lo < 0xE000
    ensures ParseUnicode(s) == Some(Parsed((0x1_0000 + (hi - 0xD800) * 0x400 + (lo - 0xDC00)) as char, t[4..]))
  {
    assert s[4] == s[4..][0] && s[5] == s[4..][1];
    assert s[6..] == s[4..][2..] == t;
    assert s[10..] == s[6..][4..];
  }

  lemma UnicodeRoundTrip(c: char, rest: string)
    ensures ParseUnicode(EscapeUnicode(c as int, rest)) == Some(Parsed(c, rest))
  {
    var n := c as int;
    if n < 0x1_0000 {
      HexRoundTrip(n, rest);
    } else {
      var hi, lo := 0xD800 + (n - 0x1_0000) / 0x400, 0xDC00 + (n - 0x1_0000) % 0x400;
      HexRoundTrip(lo, rest);
      HexRoundTrip(hi, ['\\', 'u'] + Hex4(lo, rest));
      SurrogateStep(EscapeUnicode(n, rest), hi, Hex4(lo, rest), lo);
      assert n == 0x1_0000 + (hi - 0xD800) * 0x400 + (lo - 0xDC00);
    }
  }

  lemma CharRoundTrip(c: char, rest: string)
    ensures ParseChar(EscapeChar(c, rest)) == Some(Parsed(c, rest))
  {
    var s := EscapeChar(c, rest);
    if s[0] != '\\' {
      assert s[1..] == rest;
    } else if s[1] == 'u' {
      assert s[2..] == EscapeUnicode(c as int, rest);
      UnicodeRoundTrip(c, rest);
    } else {
      assert s[2..] == rest;
    }
  }

  lemma {:induction false} CharsRoundTrip(s: string, rest: string)
    ensures ParseChars(PrintChars(s, rest)) == Some(Parsed(s, rest))
  {
    if s == [] {
      assert PrintChars(s, rest)[1..] == rest;
    } else {
      CharRoundTrip(s[0], PrintChars(s[1..], rest));
      CharsRoundTrip(s[1..], rest);
      assert [s[0]] + s[1..] == s;
    }
  }

  lemma {:induction false} DigitsRoundTrip(n: nat, rest: string)
    ensures ParseDigits(PrintNat(n, rest), 0) == ParseDigits(rest, n)
  {
    if n < 10 {
      assert PrintNat(n, rest)[1..] == rest;
    } else {
      var tail := [Digit(n % 10)] + rest;
      DigitsRoundTrip(n / 10, tail);
      assert tail[1..] == rest;
    }
  }

  lemma IntRoundTrip(n: int, rest: string)
    requires NoDigit(rest)
    ensures Parse(PrintInt(n, rest)) == Some(Parsed(JInt(n), rest))
  {
    if n < 0 {
      DigitsRoundTrip(-n, rest);
      assert PrintInt(n, rest)[1..] == PrintNat(-n, rest);
    } else {
      var s := PrintNat(n, rest);
      DigitsRoundTrip(n, rest);
      assert ParseDigits(s, 0) == ParseDigits(s[1..], s[0] as int - 48);
    }
  }

  lemma WordRoundTrip(j: Json, rest: string)
    requires j.JNull? || j.JBool? || j == JArr([]) || j == JObj([])
    ensures Parse(Print(j, rest)) == Some(Parsed(j, rest))
  {
    var s := Print(j, rest);
    match j
    case JNull => assert s[..4] == "null" && s[4..] == rest;
    case JBool(b) =>
      if b { assert s[..4] == "true" && s[4..] == rest; } else { assert s[..5] == "false" && s[5..] == rest; }
    case JArr(_) => assert s[2..] == rest;
    case JObj(_) => assert s[2..] == rest;
  }

  // One step of each parser, stated apart from what was printed.

  lemma ParseStrStep(t: string, str: string, rest: string)
    requires ParseChars(t) == Some(Parsed(str, rest))
    ensures Parse(['\"'] + t) == Some(Parsed(JStr(str), rest))
  {
    assert (['\"'] + t)[1..] == t;
  }

  lemma ParseArrStep(t: string, items: seq<Json>, rest: string)
    requires t != [] && t[0] != ']' && ParseItems(t) == Some(Parsed(items, rest))
    ensures Parse(['['] + t) == Some(Parsed(JArr(items), rest))
  {
    assert (['['] + t)[1..] == t;
  }

  lemma ParseObjStep(t: string, fields: seq<Field>, rest: string)
    requires t != [] && t[0] != '}' && ParseFields(t) == Some(Parsed(fields, rest))
    ensures Parse(['{'] + t) == Some(Parsed(JObj(fields), rest))
  {
    assert (['{'] + t)[1..] == t;
  }

  lemma ParseFieldsStep(s: string, f: Field, afterKey: string, tail: string)
    requires s != [] && s[0] == '\"' && ParseChars(s[1..]) == Some(Parsed(f.key, afterKey))
    requires Separator(afterKey, ':') && Parse(afterKey[2..]) == Some(Parsed(f.value, tail)) && tail != []
    ensures tail[0] == '}' ==> ParseFields(s) == Some(Parsed([f], tail[1..]))
    ensures Separator(tail, ',') && ParseFields(tail[2..]).Some? ==>
      ParseFields(s) == Some(Parsed([f] + ParseFields(tail[2..]).value.value, ParseFields(tail[2..]).value.rest))
  {
    assert Field(f.key, f.value) == f;
  }

  /** Decoding what was printed gives the value back, and leaves the text after it alone. */
  lemma {:induction false} RoundTrip(j: Json, rest: string)
    requires NoDigit(rest)
    ensures Parse(Print(j, rest)) == Some(Parsed(j, rest))
    decreases j, 1
  {
    match j
    case JInt(n) => IntRoundTrip(n, rest);
    case JStr(s) =>
      CharsRoundTrip(s, rest);
      ParseStrStep(PrintChars(s, rest), s, rest);
    case JArr(items) =>
      if items == [] {
        WordRoundTrip(j, rest);
      } else {
        ItemsRoundTrip(items, rest);
        ParseArrStep(PrintItems(items, rest), items, rest);
      }
    case JObj(fields) =>
      if fields == [] {
        WordRoundTrip(j, rest);
      } else {
        FieldsRoundTrip(fields, rest);
        ParseObjStep(PrintFields(fields, rest), fields, rest);
      }
    case _ => WordRoundTrip(j, rest);
  }

  lemma {:induction false} ItemsRoundTrip(items: seq<Json>, rest: string)
    requires items != []
    ensures ParseItems(PrintItems(items, rest)) == Some(Parsed(items, rest))
    decreases items, 0
  {
    if |items| == 1 {
      var tail := [']'] + rest;
      RoundTrip(items[0], tail);
      assert tail[1..] == rest && [items[0]] == items;
    } else {
      var tail := [',', ' '] + PrintItems(items[1..], rest);
      RoundTrip(items[0], tail);
      ItemsRoundTrip(items[1..], rest);
      assert tail[2..] == PrintItems(items[1..], rest) && [items[0]] + items[1..] == items;
    }
  }

  lemma {:induction false} FieldsRoundTrip(fields: seq<Field>, rest: string)
    requires fields != []
    ensures ParseFields(PrintFields(fields, rest)) == Some(Parsed(fields, rest))
    decreases fields, 0
  {
    var f := fields[0];
    if |fields| == 1 {
      RoundTrip(f.value, ['}'] + rest);
      LastField(f, rest);
      assert [f] == fields;
    } else {
      var more := PrintFields(fields[1..], rest);
      RoundTrip(f.value, [',', ' '] + more);
      FieldsRoundTrip(fields[1..], rest);
      FieldThenMore(f, more, fields[1..], rest);
      assert [f] + fields[1..] == fields;
    }
  }

  lemma LastField(f: Field, rest: string)
    requires Parse(Print(f.value, ['}'] + rest)) == Some(Parsed(f.value, ['}'] + rest))
    ensures ParseFields(PrintField(f, ['}'] + rest)) == Some(Parsed([f], rest))
  {
    FieldRoundTrip(f, ['}'] + rest);
    assert (['}'] + rest)[1..] == rest;
  }

  lemma FieldThenMore(f: Field, more: string, fields: seq<Field>, rest: string)
    requires Parse(Print(f.value, [',', ' '] + more)) == Some(Parsed(f.value, [',', ' '] + more))
    requires ParseFields(more) == Some(Parsed(fields, rest))
    ensures ParseFields(PrintField(f, [',', ' '] + more)) == Some(Parsed([f] + fields, rest))
  {
    var tail := [',', ' '] + more;
    assert tail[2..] == more;
    FieldRoundTrip(f, tail);
  }

  /** One field in front of a tail that is parsed already. */
  lemma FieldRoundTrip(f: Field, tail: string)
    requires Parse(Print(f.value, tail)) == Some(Parsed(f.value, tail)) && tail != []
    ensures tail[0] == '}' ==> ParseFields(PrintField(f, tail)) == Some(Parsed([f], tail[1..]))
    ensures Separator(tail, ',') && ParseFields(tail[2..]).Some? ==>
      ParseFields(PrintField(f, tail))
      == Some(Parsed([f] + ParseFields(tail[2..]).value.value, ParseFields(tail[2..]).value.rest))
  {
    var afterKey := [':', ' '] + Print(f.value, tail);
    var s := ['\"'] + PrintChars(f.key, afterKey);
    CharsRoundTrip(f.key, afterKey);
    assert s[1..] == PrintChars(f.key, afterKey);
    assert afterKey[2..] == Print(f.value, tail);
    ParseFieldsStep(s, f, afterKey, tail);
  }

  /** Same payload exactly when same JSON value: independent of dict order, and injective. */
  lemma DumpsCanonical(a: Json, b: Json)
    requires Wf(a) && Wf(b)
    ensures Dumps(a) == Dumps(b) <==> Denote(a) == Denote(b)
  {
    SortedSpec(a);
    SortedSpec(b);
    if Dumps(a) == Dumps(b) {
      RoundTrip(Sorted(a), []);
      RoundTrip(Sorted(b), []);
    } else if Denote(a) == Denote(b) {
      NormalUnique(Sorted(a), Sorted(b));
    }
  }

  lemma PrintNatInjective(m: nat, n: nat)
    requires PrintNat(m, []) == PrintNat(n, [])
    ensures m == n
  {
    DigitsRoundTrip(m, []);
    DigitsRoundTrip(n, []);
  }
}
