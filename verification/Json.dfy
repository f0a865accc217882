/** JSON text as the engine reads and writes it (engine/core/src/json.cpp).

  A byte is the char with its code. A double is a real; read and show stand for
  std::from_chars and operator<<, and what is known of them is that small
  integers are read exactly. */
module Json {
  import opened Ids
  import opened Decimals

  /** An object is a std::map: its members in key order. */
  datatype Value =
    | Null
    | Bool(b: bool)
    | Number(n: real)
    | String(s: string)
    | Array(items: seq<Value>)
    | Object(members: seq<Member>)

  datatype Member = Member(key: string, value: Value)

  datatype Parsed = Parsed(value: Value, rest: string)

  datatype Text = Text(text: string, rest: string)

  type Reader = string -> Option<real>

  type Printer = real -> string

  const INTEGER_LIMIT := 1_000_000_000_000_000

  // ------------------------------------------------------------------------
  // Reading
  // ------------------------------------------------------------------------

  predicate IsSpace(ch: char) {
    ch == ' ' || ch == '\t' || ch == '\n' || ch == '\r'
  }

  function SkipSpace(s: string): (r: string)
    ensures |r| <= |s|
  {
    if s != [] && IsSpace(s[0]) then SkipSpace(s[1..]) else s
  }

  predicate StartsWith(s: string, ch: char) {
    s != [] && s[0] == ch
  }

  function HexDigit(ch: char): Option<nat> {
    if '0' <= ch <= '9' then Some(ch as nat - '0' as nat)
    else if 'a' <= ch <= 'f' then Some(ch as nat - 'a' as nat + 10)
    else if 'A' <= ch <= 'F' then Some(ch as nat - 'A' as nat + 10)
    else None
  }

  function HexCode(s: string): (code: Option<nat>)
    requires |s| >= 4
    ensures code.Some? ==> code.value < 0x1_0000
  {
    var a, b, c, d := HexDigit(s[0]), HexDigit(s[1]), HexDigit(s[2]), HexDigit(s[3]);
    if a.Some? && b.Some? && c.Some? && d.Some? then Some(((a.value * 16 + b.value) * 16 + c.value) * 16 + d.value)
    else None
  }

  /** The UTF-8 bytes of a code point of the basic plane. */
  function Utf8(code: nat): string
    requires code < 0x1_0000
  {
    if code < 0x80 then [code as char]
    else if code < 0x800 then [(0xC0 + code / 64) as char, (0x80 + code % 64) as char]
    else [(0xE0 + code / 4096) as char, (0x80 + code / 64 % 64) as char, (0x80 + code % 64) as char]
  }

  function Unescape(ch: char): Option<char> {
    match ch
    case '"' => Some('"')
    case '\\' => Some('\\')
    case '/' => Some('/')
    case 'b' => Some(8 as char)
    case 'f' => Some(12 as char)
    case 'n' => Some('\n')
    case 'r' => Some('\r')
    case 't' => Some('\t')
    case _ => None
  }

  /** The string whose closing quote is still to come, after out. */
  function ParseChars(s: string, out: string): (r: Option<Text>)
    ensures r.Some? ==> |r.value.rest| < |s|
    decreases |s|
  {
    if s == [] then None
    else if s[0] == '"' then Some(Text(out, s[1..]))
    else if (s[0] as int) < 0x20 then None
    else if s[0] != '\\' then ParseChars(s[1..], out + [s[0]])
    else if |s| == 1 then None
    else if s[1] == 'u' then
      if |s| < 6 then None
      else
        match HexCode(s[2..6])
        case Some(code) => ParseChars(s[6..], out + Utf8(code))
        case None => None
    else
      match Unescape(s[1])
      case Some(ch) => ParseChars(s[2..], out + [ch])
      case None => None
  }

  function ParseString(s: string): (r: Option<Text>)
    ensures r.Some? ==> |r.value.rest| < |s|
  {
    if StartsWith(s, '"') then ParseChars(s[1..], "") else None
  }

  /** The first index from i on that holds no digit. */
  function DigitsEnd(s: string, i: nat): (j: nat)
    requires i <= |s|
    ensures i <= j <= |s|
    decreases |s| - i
  {
    if i < |s| && IsDigit(s[i]) then DigitsEnd(s, i + 1) else i
  }

  /** Where a fraction that may start at i ends. */
  function FractionEnd(s: string, i: nat): (j: Option<nat>)
    requires i <= |s|
    ensures j.Some? ==> i <= j.value <= |s|
  {
    if i < |s| && s[i] == '.' then
      if i + 1 < |s| && IsDigit(s[i + 1]) then Some(DigitsEnd(s, i + 1)) else None
    else Some(i)
  }

  function ExponentEnd(s: string, i: nat): (j: Option<nat>)
    requires i <= |s|
    ensures j.Some? ==> i <= j.value <= |s|
  {
    if i < |s| && (s[i] == 'e' || s[i] == 'E') then
      var k := if i + 1 < |s| && (s[i + 1] == '+' || s[i + 1] == '-') then i + 2 else i + 1;
      if k < |s| && IsDigit(s[k]) then Some(DigitsEnd(s, k)) else None
    else Some(i)
  }

  function NumberEnd(s: string): (j: Option<nat>)
    ensures j.Some? ==> 0 < j.value <= |s|
  {
    var start := if StartsWith(s, '-') then 1 else 0;
    var whole := DigitsEnd(s, start);
    if whole == 0 then None
    else
      match FractionEnd(s, whole)
      case Some(i) => ExponentEnd(s, i)
      case None => None
  }

  function ParseNumber(s: string, read: Reader): (r: Option<Parsed>)
    ensures r.Some? ==> |r.value.rest| < |s|
  {
    match NumberEnd(s)
    case Some(end) => (match read(s[..end])
                       case Some(n) => Some(Parsed(Number(n), s[end..]))
                       case None => None)
    case None => None
  }

  function Literal(s: string, lit: string, v: Value): (r: Option<Parsed>)
    requires lit != []
    ensures r.Some? ==> |r.value.rest| < |s|
  {
    if lit <= s then Some(Parsed(v, s[|lit|..])) else None
  }

  function ParseValue(s: string, read: Reader): (r: Option<Parsed>)
    ensures r.Some? ==> |r.value.rest| < |s|
    decreases |s|, 0
  {
    var t := SkipSpace(s);
    if t == [] then None
    else
      match t[0]
      case '{' =>
        var u := SkipSpace(t[1..]);
        if StartsWith(u, '}') then Some(Parsed(Object([]), u[1..])) else ParseMembers(u, [], read)
      case '[' =>
        var u := SkipSpace(t[1..]);
        if StartsWith(u, ']') then Some(Parsed(Array([]), u[1..])) else ParseItems(u, [], read)
      case '"' => (match ParseString(t)
                   case Some(x) => Some(Parsed(String(x.text), x.rest))
                   case None => None)
      case 't' => Literal(t, "true", Bool(true))
      case 'f' => Literal(t, "false", Bool(false))
      case 'n' => Literal(t, "null", Null)
      case _ => ParseNumber(t, read)
  }

  /** std::map::emplace: a key that is there already keeps its value. */
  function Emplace(members: seq<Member>, m: Member): seq<Member> {
    if members == [] || Less(m.key, members[0].key) then [m] + members
    else if members[0].key == m.key then members
    else [members[0]] + Emplace(members[1..], m)
  }

  function ParseMembers(s: string, seen: seq<Member>, read: Reader): (r: Option<Parsed>)
    ensures r.Some? ==> |r.value.rest| < |s|
    decreases |s|, 1
  {
    match ParseString(SkipSpace(s))
    case None => None
    case Some(key) =>
      var t := SkipSpace(key.rest);
      if !StartsWith(t, ':') then None
      else
        match ParseValue(t[1..], read)
        case None => None
        case Some(v) =>
          var more := Emplace(seen, Member(key.text, v.value));
          var u := SkipSpace(v.rest);
          if StartsWith(u, ',') then ParseMembers(u[1..], more, read)
          else if StartsWith(u, '}') then Some(Parsed(Object(more), u[1..]))
          else None
  }

  function ParseItems(s: string, seen: seq<Value>, read: Reader): (r: Option<Parsed>)
    ensures r.Some? ==> |r.value.rest| < |s|
    decreases |s|, 1
  {
    match ParseValue(s, read)
    case None => None
    case Some(v) =>
      var u := SkipSpace(v.rest);
      if StartsWith(u, ',') then ParseItems(u[1..], seen + [v.value], read)
      else if StartsWith(u, ']') then Some(Parsed(Array(seen + [v.value]), u[1..]))
      else None
  }

  /** A whole document. */
  function Parse(s: string, read: Reader): Option<Value> {
    match ParseValue(SkipSpace(s), read)
    case Some(p) => if SkipSpace(p.rest) == [] then Some(p.value) else None
    case None => None
  }

  // ------------------------------------------------------------------------
  // Writing
  // ------------------------------------------------------------------------

  function HexChar(d: nat): char
    requires d < 16
  {
    if d < 10 then ('0' as int + d) as char else ('a' as int + d - 10) as char
  }

  function Escape(ch: char): string {
    match ch
    case '"' => "\\\""
    case '\\' => "\\\\"
    case '\n' => "\\n"
    case '\r' => "\\r"
    case '\t' => "\\t"
    case _ =>
      if ch as int == 8 then "\\b"
      else if ch as int == 12 then "\\f"
      else if (ch as int) < 0x20 then "\\u00" + [HexChar(ch as int / 16), HexChar(ch as int % 16)]
      else [ch]
  }

  function EscapeAll(s: string): string {
    if s == [] then [] else Escape(s[0]) + EscapeAll(s[1..])
  }

  function Quoted(s: string): string {
    "\"" + EscapeAll(s) + "\""
  }

  predicate IsSmallInteger(n: real) {
    n.Floor as real == n && -INTEGER_LIMIT < n.Floor < INTEGER_LIMIT
  }

  function Signed(n: int): string {
    if n < 0 then "-" + Decimal(-n) else Decimal(n)
  }

  function Serialize(v: Value, show: Printer): string
    decreases v
  {
    match v
    case Null => "null"
    case Bool(b) => if b then "true" else "false"
    case Number(n) => if IsSmallInteger(n) then Signed(n.Floor) else show(n)
    case String(s) => Quoted(s)
    case Array(items) => "[" + SerializeItems(items, show) + "]"
    case Object(members) => "{" + SerializeMembers(members, show) + "}"
  }

  function SerializeItems(items: seq<Value>, show: Printer): string
    decreases items
  {
    if items == [] then []
    else if |items| == 1 then Serialize(items[0], show)
    else Serialize(items[0], show) + "," + SerializeItems(items[1..], show)
  }

  function SerializeMember(m: Member, show: Printer): string
    decreases m
  {
    Quoted(m.key) + ":" + Serialize(m.value, show)
  }

  function SerializeMembers(members: seq<Member>, show: Printer): string
    decreases members
  {
    if members == [] then []
    else if |members| == 1 then SerializeMember(members[0], show)
    else SerializeMember(members[0], show) + "," + SerializeMembers(members[1..], show)
  }
}
