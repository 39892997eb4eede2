/** JSON values, their compact text and a parser for it (RFC 8259).  Numbers are integers. */
module Json {
  import opened Wrappers
  import opened Decimal
  import opened Hex

  datatype Value =
    | Null
    | Bool(b: bool)
    | Number(n: int)
    | Str(text: string)
    | Array(items: Items)
    | Object(fields: Fields)

  datatype Items = End | Item(head: Value, tail: Items)

  datatype Fields = NoField | Field(name: string, value: Value, rest: Fields)

  const MIN_NUMBER: int := -0x8000_0000_0000_0000
  const MAX_NUMBER: int := 0xFFFF_FFFF_FFFF_FFFF

  /** Code point order, which is also the byte order of UTF-8. */
  predicate Before(a: string, b: string) {
    if a == "" then b != ""
    else b != "" && (a[0] < b[0] || (a[0] == b[0] && Before(a[1..], b[1..])))
  }

  /** Object members are kept in strict name order. */
  predicate WellFormed(v: Value) {
    match v
    case Number(n) => MIN_NUMBER <= n <= MAX_NUMBER
    case Array(items) => WellFormedItems(items)
    case Object(fields) => WellFormedFields(fields)
    case _ => true
  }

  predicate WellFormedItems(items: Items) {
    items.Item? ==> WellFormed(items.head) && WellFormedItems(items.tail)
  }

  predicate WellFormedFields(fields: Fields) {
    fields.Field? ==>
      && WellFormed(fields.value)
      && WellFormedFields(fields.rest)
      && (fields.rest.Field? ==> Before(fields.name, fields.rest.name))
  }

  // ---- printing ------------------------------------------------------------------------------

  predicate IsControl(c: char) { c < ' ' }

  function Escape(c: char): string {
    if c == '\"' then "\\\""
    else if c == '\\' then "\\\\"
    else if c == '\n' then "\\n"
    else if c == '\r' then "\\r"
    else if c == '\t' then "\\t"
    else if c == 8 as char then "\\b"
    else if c == 12 as char then "\\f"
    else if IsControl(c) then "\\u00" + [LowerHexDigit(c as nat / 16), LowerHexDigit(c as nat % 16)]
    else [c]
  }

  function EscapeAll(s: string): string {
    if s == "" then "" else Escape(s[0]) + EscapeAll(s[1..])
  }

  function PrintString(s: string): string { "\"" + EscapeAll(s) + "\"" }

  function PrintNumber(n: int): string {
    if n < 0 then "-" + Print(-n) else Print(n)
  }

  function Text(v: Value): string {
    match v
    case Null => "null"
    case Bool(b) => if b then "true" else "false"
    case Number(n) => PrintNumber(n)
    case Str(s) => PrintString(s)
    case Array(items) => "[" + ItemsText(items) + "]"
    case Object(fields) => "{" + FieldsText(fields) + "}"
  }

  function ItemsText(items: Items): string {
    match items
    case End => ""
    case Item(v, End) => Text(v)
    case Item(v, tail) => Text(v) + "," + ItemsText(tail)
  }

  function FieldsText(fields: Fields): string {
    match fields
    case NoField => ""
    case Field(name, v, NoField) => PrintString(name) + ":" + Text(v)
    case Field(name, v, rest) => PrintString(name) + ":" + Text(v) + "," + FieldsText(rest)
  }

  // ---- parsing ---------------------------------------------------------------------------------

  datatype Parsed<T> = Fail | Got(value: T, rest: string)

  function Hex4(s: string): Option<nat> {
    if |s| < 4 then None
    else
      match (HexValue(s[0]), HexValue(s[1]), HexValue(s[2]), HexValue(s[3]))
      case (Some(a), Some(b), Some(c), Some(d)) => Some(((a * 16 + b) * 16 + c) * 16 + d)
      case _ => None
  }

  /** The escape after a backslash, including surrogate pairs. */
  function ParseEscape(s: string): (p: Parsed<char>)
    ensures p.Got? ==> |p.rest| < |s|
  {
    if s == "" then Fail
    else if s[0] == '\"' || s[0] == '\\' || s[0] == '/' then Got(s[0], s[1..])
    else if s[0] == 'n' then Got('\n', s[1..])
    else if s[0] == 'r' then Got('\r', s[1..])
    else if s[0] == 't' then Got('\t', s[1..])
    else if s[0] == 'b' then Got(8 as char, s[1..])
    else if s[0] == 'f' then Got(12 as char, s[1..])
    else if s[0] != 'u' then Fail
    else
      var code := Hex4(s[1..]);
      if code.None? then Fail
      else if code.value < 0xD800 || 0xE000 <= code.value < 0x10000 then Got(code.value as char, s[5..])
      else if code.value < 0xDC00 && |s| >= 11 && s[5] == '\\' && s[6] == 'u' then
        var low := Hex4(s[7..]);
        if low.Some? && 0xDC00 <= low.value < 0xE000
        then Got((0x10000 + (code.value - 0xD800) * 0x400 + (low.value - 0xDC00)) as char, s[11..])
        else Fail
      else Fail
  }

  /** A string after its opening quote. */
  function ParseString(s: string): (p: Parsed<string>)
    ensures p.Got? ==> |p.rest| < |s|
    decreases |s|
  {
    if s == "" || IsControl(s[0]) then Fail
    else if s[0] == '\"' then Got("", s[1..])
    else if s[0] == '\\' then
      var e := ParseEscape(s[1..]);
      if e.Fail? then Fail else Prepend(e.value, ParseString(e.rest))
    else Prepend(s[0], ParseString(s[1..]))
  }

  function Prepend(c: char, p: Parsed<string>): Parsed<string> {
    match p
    case Fail => Fail
    case Got(text, rest) => Got([c] + text, rest)
  }

  predicate IsSpace(c: char) { c == ' ' || c == '\n' || c == '\t' || c == '\r' }

  function SkipSpace(s: string): (r: string)
    ensures |r| <= |s|
  {
    if s != "" && IsSpace(s[0]) then SkipSpace(s[1..]) else s
  }

  /** Digits without a superfluous leading zero; fractions and exponents are not modelled. */
  function ParseNatural(s: string): (p: Parsed<nat>)
    ensures p.Got? ==> |p.rest| < |s|
  {
    var k := DigitRun(s);
    if k == 0 || (s[0] == '0' && k > 1) then Fail
    else if k < |s| && (s[k] == '.' || s[k] == 'e' || s[k] == 'E') then Fail
    else Got(Decimal.Value(s[..k]), s[k..])
  }

  function ParseNumber(s: string): (p: Parsed<Value>)
    ensures p.Got? ==> |p.rest| < |s|
  {
    if s != "" && s[0] == '-' then
      match ParseNatural(s[1..])
      case Fail => Fail
      case Got(n, rest) => if 0 < n <= -MIN_NUMBER then Got(Number(-(n as int)), rest) else Fail
    else
      match ParseNatural(s)
      case Fail => Fail
      case Got(n, rest) => if n <= MAX_NUMBER then Got(Number(n), rest) else Fail
  }

  function Keyword(s: string, word: string, v: Value): (p: Parsed<Value>)
    requires word != ""
    ensures p.Got? ==> |p.rest| < |s|
  {
    if |word| <= |s| && s[..|word|] == word then Got(v, s[|word|..]) else Fail
  }

  /** How deeply a value nests arrays and objects. */
  function Depth(v: Value): nat {
    match v
    case Array(items) => 1 + ItemsDepth(items)
    case Object(fields) => 1 + FieldsDepth(fields)
    case _ => 0
  }

  function ItemsDepth(items: Items): nat {
    if items.End? then 0 else Max(Depth(items.head), ItemsDepth(items.tail))
  }

  function FieldsDepth(fields: Fields): nat {
    if fields.NoField? then 0 else Max(Depth(fields.value), FieldsDepth(fields.rest))
  }

  function Max(a: nat, b: nat): nat { if a < b then b else a }

  /** The depth the library's parser starts with. Every bracket takes one, and none may be the
      last. */
  const RECURSION_LIMIT: nat := 128

  function ParseValue(s: string, left: nat): (p: Parsed<Value>)
    ensures p.Got? ==> |p.rest| < |s|
    decreases |s|, 0
  {
    var t := SkipSpace(s);
    if t == "" then Fail
    else if t[0] == 'n' then Keyword(t, "null", Null)
    else if t[0] == 't' then Keyword(t, "true", Bool(true))
    else if t[0] == 'f' then Keyword(t, "false", Bool(false))
    else if t[0] == '\"' then
      (match ParseString(t[1..])
       case Fail => Fail
       case Got(text, rest) => Got(Str(text), rest))
    else if t[0] == '[' then
      var u := SkipSpace(t[1..]);
      if left <= 1 then Fail
      else if u != "" && u[0] == ']' then Got(Array(End), u[1..])
      else
        (match ParseItems(u, left - 1)
         case Fail => Fail
         case Got(items, rest) => Got(Array(items), rest))
    else if t[0] == '{' then
      var u := SkipSpace(t[1..]);
      if left <= 1 then Fail
      else if u != "" && u[0] == '}' then Got(Object(NoField), u[1..])
      else
        (match ParseFields(u, left - 1)
         case Fail => Fail
         case Got(fields, rest) => Got(Object(Normalize(fields)), rest))
    else ParseNumber(t)
  }

  /** One or more array elements and the closing bracket. */
  function ParseItems(s: string, left: nat): (p: Parsed<Items>)
    ensures p.Got? ==> |p.rest| < |s|
    decreases |s|, 1
  {
    match ParseValue(s, left)
    case Fail => Fail
    case Got(v, rest) =>
      var t := SkipSpace(rest);
      if t == "" then Fail
      else if t[0] == ']' then Got(Item(v, End), t[1..])
      else if t[0] != ',' then Fail
      else
        match ParseItems(t[1..], left)
        case Fail => Fail
        case Got(items, rest) => Got(Item(v, items), rest)
  }

  /** One or more object members, in the order of the text, and the closing brace. */
  function ParseFields(s: string, left: nat): (p: Parsed<Fields>)
    ensures p.Got? ==> |p.rest| < |s|
    decreases |s|, 1
  {
    var n := SkipSpace(s);
    if n == "" || n[0] != '\"' then Fail
    else
      match ParseString(n[1..])
      case Fail => Fail
      case Got(name, rest) =>
        var c := SkipSpace(rest);
        if c == "" || c[0] != ':' then Fail
        else
          match ParseValue(c[1..], left)
          case Fail => Fail
          case Got(v, rest) =>
            var t := SkipSpace(rest);
            if t == "" then Fail
            else if t[0] == '}' then Got(Field(name, v, NoField), t[1..])
            else if t[0] != ',' then Fail
            else
              match ParseFields(t[1..], left)
              case Fail => Fail
              case Got(fields, rest) => Got(Field(name, v, fields), rest)
  }

  predicate HasName(fields: Fields, name: string) {
    fields.Field? && (fields.name == name || HasName(fields.rest, name))
  }

  function Insert(name: string, v: Value, fields: Fields): Fields {
    match fields
    case NoField => Field(name, v, NoField)
    case Field(n, w, rest) =>
      if Before(name, n) then Field(name, v, fields) else Field(n, w, Insert(name, v, rest))
  }

  /** The ordered map of the members; a later member replaces an earlier one of its name. */
  function Normalize(fields: Fields): Fields {
    match fields
    case NoField => NoField
    case Field(name, v, rest) =>
      var map' := Normalize(rest);
      if HasName(map', name) then map' else Insert(name, v, map')
  }

  /** A whole document: one value and nothing but white space around it. */
  function ParseDocument(s: string): Option<Value> {
    match ParseValue(s, RECURSION_LIMIT)
    case Fail => None
    case Got(v, rest) => if SkipSpace(rest) == "" then Some(v) else None
  }
}
