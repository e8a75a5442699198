// Canonical JSON text: what json.dumps(value, sort_keys=True, separators=(",", ":"))
// prints, with its default ASCII escaping (section 7 of RFC 8259).

module Json {

  // A Python string is a sequence of code points, lone surrogates included.
  type CodePoint = c: int | 0 <= c < 0x110000
  type Text = seq<CodePoint>

  // Object members are listed in the order of their sorted keys.
  datatype Json =
    | Null
    | Bool(b: bool)
    | Number(n: int)
    | Str(s: Text)
    | Arr(items: seq<Json>)
    | Obj(members: seq<Member>)

  datatype Member = Member(key: Text, value: Json)

  function Lit(s: string): Text {
    seq(|s|, i requires 0 <= i < |s| => s[i] as int)
  }

  /******* Encoding *******/

  function Digit(d: int): char
    requires 0 <= d < 16
  {
    if d < 10 then ('0' as int + d) as char else ('a' as int + d - 10) as char
  }

  function Digits(n: nat): string {
    if n < 10 then [Digit(n)] else Digits(n / 10) + [Digit(n % 10)]
  }

  function Decimal(n: int): string {
    if n < 0 then "-" + Digits(-n) else Digits(n)
  }

  function UnitEscape(c: int): string
    requires 0 <= c < 0x10000
  {
    ['\\', 'u', Digit(c / 16 / 16 / 16), Digit(c / 16 / 16 % 16), Digit(c / 16 % 16), Digit(c % 16)]
  }

  function High(c: CodePoint): CodePoint
    requires c >= 0x10000
  {
    0xD800 + (c - 0x10000) / 0x400
  }

  function Low(c: CodePoint): CodePoint
    requires c >= 0x10000
  {
    0xDC00 + (c - 0x10000) % 0x400
  }

  // One code point: verbatim, a two-character escape, one \uXXXX or a surrogate pair of them.
  function EscapeChar(c: CodePoint): string {
    if c == 0x22 then "\\\""
    else if c == 0x5C then "\\\\"
    else if c == 0x0A then "\\n"
    else if c == 0x0D then "\\r"
    else if c == 0x09 then "\\t"
    else if c == 0x0C then "\\f"
    else if c == 0x08 then "\\b"
    else if 0x20 <= c <= 0x7E then [c as char]
    else if c < 0x10000 then UnitEscape(c)
    else UnitEscape(High(c)) + UnitEscape(Low(c))
  }

  function Escape(s: Text): string {
    if s == [] then "" else EscapeChar(s[0]) + Escape(s[1..])
  }

  function Quote(s: Text): string {
    "\"" + Escape(s) + "\""
  }

  function Encode(j: Json): string
    decreases j, 0
  {
    match j
    case Null => "null"
    case Bool(b) => if b then "true" else "false"
    case Number(n) => Decimal(n)
    case Str(s) => Quote(s)
    case Arr(items) => "[" + EncodeItems(items) + "]"
    case Obj(members) => "{" + EncodeMembers(members) + "}"
  }

  function EncodeItems(items: seq<Json>): string
    decreases items, 1
  {
    if items == [] then ""
    else if |items| == 1 then Encode(items[0])
    else Encode(items[0]) + "," + EncodeItems(items[1..])
  }

  function EncodeMembers(ms: seq<Member>): string
    decreases ms, 1
  {
    if ms == [] then ""
    else if |ms| == 1 then Quote(ms[0].key) + ":" + Encode(ms[0].value)
    else Quote(ms[0].key) + ":" + Encode(ms[0].value) + "," + EncodeMembers(ms[1..])
  }

  /******* UTF-16 view *******/

  // The escaper sees a string through its UTF-16 code units: a supplementary
  // code point and the two surrogates that spell it print the same.
  function Utf16(s: Text): Text {
    if s == [] then []
    else if s[0] < 0x10000 then [s[0]] + Utf16(s[1..])
    else [High(s[0]), Low(s[0])] + Utf16(s[1..])
  }

  function Narrow(j: Json): Json
    decreases j, 0
  {
    match j
    case Str(s) => Str(Utf16(s))
    case Arr(items) => Arr(NarrowItems(items))
    case Obj(members) => Obj(NarrowMembers(members))
    case _ => j
  }

  function NarrowItems(items: seq<Json>): (r: seq<Json>)
    decreases items, 1
  {
    if items == [] then [] else [Narrow(items[0])] + NarrowItems(items[1..])
  }

  function NarrowMembers(ms: seq<Member>): (r: seq<Member>)
    decreases ms, 1
  {
    if ms == [] then []
    else [Member(Utf16(ms[0].key), Narrow(ms[0].value))] + NarrowMembers(ms[1..])
  }

  predicate Plain(s: Text) {
    forall i | 0 <= i < |s| :: s[i] < 0xD800 || s[i] > 0xDFFF
  }

  predicate Units(s: Text) {
    forall i | 0 <= i < |s| :: s[i] < 0x10000
  }
}
