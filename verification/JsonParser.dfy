/** The recursive-descent parser that advances through the text, and the writer
  that appends to a stream (engine/core/src/json.cpp). */
module JsonParser {
  import opened Ids
  import opened Decimals
  import opened Json

  /** The method's answer and its position are those of the specification. */
  predicate Agrees(spec: Option<Parsed>, answer: Option<Value>, rest: string) {
    match spec
    case Some(p) => answer == Some(p.value) && rest == p.rest
    case None => answer == None
  }

  class Parser {
    const text: string
    const read: Reader
    var pos: nat

    constructor (text: string, read: Reader)
      ensures this.text == text && this.read == read && pos == 0
    {
      this.text, this.read, pos := text, read, 0;
    }

    ghost predicate Valid()
      reads this
    {
      pos <= |text|
    }

    ghost function Rest(): string
      requires Valid()
      reads this
    {
      text[pos..]
    }

    method SkipWs()
      requires Valid()
      modifies this
      ensures Valid() && pos >= old(pos) && Rest() == SkipSpace(old(Rest()))
    {
      while pos < |text| && IsSpace(text[pos])
        invariant Valid() && pos >= old(pos) && SkipSpace(Rest()) == SkipSpace(old(Rest()))
        decreases |text| - pos
      {
        assert text[pos..][1..] == text[pos + 1..];
        pos := pos + 1;
      }
    }

    method Consume(ch: char) returns (ok: bool)
      requires Valid()
      modifies this
      ensures Valid() && ok == StartsWith(old(Rest()), ch)
      ensures Rest() == if ok then old(Rest())[1..] else old(Rest())
      ensures pos == if ok then old(pos) + 1 else old(pos)
    {
      ok := pos < |text| && text[pos] == ch;
      if ok { pos := pos + 1; }
    }

    method ConsumeLit(lit: string) returns (ok: bool)
      requires Valid() && lit != []
      modifies this
      ensures Valid() && pos >= old(pos) && ok == (lit <= old(Rest()))
      ensures Rest() == if ok then old(Rest())[|lit|..] else old(Rest())
    {
      ok := pos + |lit| <= |text| && text[pos..pos + |lit|] == lit;
      if ok {
        assert Rest()[..|lit|] == lit;
        pos := pos + |lit|;
      }
    }

    /** Reads to the closing quote. */
    method ParseString() returns (r: Option<string>)
      requires Valid()
      modifies this
      ensures Valid() && pos >= old(pos)
      ensures match Json.ParseString(old(Rest()))
              case Some(t) => r == Some(t.text) && Rest() == t.rest
              case None => r == None
    {
      hide Utf8, HexCode, Unescape;
      var open := Consume('"');
      if !open { return None; }
      var out := "";
      ghost var whole := ParseChars(Rest(), "");
      while true
        invariant Valid() && pos > old(pos) && ParseChars(Rest(), out) == whole
        decreases |text| - pos
      {
        if pos == |text| { return None; }
        ghost var here := Rest();
        var ch := text[pos];
        pos := pos + 1;
        assert Rest() == here[1..];
        if ch == '"' { return Some(out); }
        if (ch as int) < 0x20 { return None; }
        if ch != '\\' {
          out := out + [ch];
        } else {
          if pos == |text| { return None; }
          var esc := text[pos];
          pos := pos + 1;
          assert Rest() == here[2..];
          if esc == 'u' {
            if pos + 4 > |text| { return None; }
            assert text[pos..pos + 4] == here[2..6];
            var code := HexCode(text[pos..pos + 4]);
            pos := pos + 4;
            assert Rest() == here[6..];
            if code.None? { return None; }
            out := out + Utf8(code.value);
          } else {
            var plain := Unescape(esc);
            if plain.None? { return None; }
            out := out + [plain.value];
          }
        }
      }
    }

    method SkipDigits()
      requires Valid()
      modifies this
      ensures Valid() && pos >= old(pos) && pos == DigitsEnd(text, old(pos))
    {
      while pos < |text| && IsDigit(text[pos])
        invariant Valid() && pos >= old(pos) && DigitsEnd(text, pos) == DigitsEnd(text, old(pos))
        decreases |text| - pos
      {
        pos := pos + 1;
      }
    }

    method SkipFraction() returns (ok: bool)
      requires Valid()
      modifies this
      ensures Valid() && pos >= old(pos)
      ensures FractionEnd(text, old(pos)) == if ok then Some(pos) else None
    {
      if pos < |text| && text[pos] == '.' {
        pos := pos + 1;
        if pos == |text| || !IsDigit(text[pos]) { return false; }
        SkipDigits();
      }
      ok := true;
    }

    method SkipExponent() returns (ok: bool)
      requires Valid()
      modifies this
      ensures Valid() && pos >= old(pos)
      ensures ExponentEnd(text, old(pos)) == if ok then Some(pos) else None
    {
      if pos < |text| && (text[pos] == 'e' || text[pos] == 'E') {
        pos := pos + 1;
        if pos < |text| && (text[pos] == '+' || text[pos] == '-') { pos := pos + 1; }
        if pos == |text| || !IsDigit(text[pos]) { return false; }
        SkipDigits();
      }
      ok := true;
    }

    /** Scans the longest number, then reads it. */
    method ParseNumber() returns (r: Option<Value>)
      requires Valid()
      modifies this
      ensures Valid() && pos >= old(pos)
      ensures Agrees(Json.ParseNumber(old(Rest()), read), r, Rest())
    {
      hide FractionEnd, ExponentEnd, NumberEnd, DigitsEnd;
      var start := pos;
      NumberEndShifted(text, start);
      if pos < |text| && text[pos] == '-' { pos := pos + 1; }
      SkipDigits();
      if pos == start { return None; }
      var fraction := SkipFraction();
      if !fraction { return None; }
      var exponent := SkipExponent();
      if !exponent { return None; }
      assert text[start..pos] == text[start..][..pos - start] && text[pos..] == text[start..][pos - start..];
      var n := read(text[start..pos]);
      if n.None? { return None; }
      r := Some(Number(n.value));
    }

    method ParseValue() returns (r: Option<Value>)
      requires Valid()
      modifies this
      ensures Valid() && pos >= old(pos) && (r.Some? ==> pos > old(pos))
      ensures Agrees(Json.ParseValue(old(Rest()), read), r, Rest())
      decreases |text| - pos, 1
    {
      hide Json.ParseMembers, Json.ParseItems, Json.ParseString, Json.ParseNumber;
      SkipWs();
      ghost var before := old(pos);
      if pos == |text| { return None; }
      match text[pos] {
        case '{' => r := ParseObject();
        case '[' => r := ParseArray();
        case '"' =>
          var s := ParseString();
          r := if s.Some? then Some(String(s.value)) else None;
        case 't' =>
          var ok := ConsumeLit("true");
          r := if ok then Some(Bool(true)) else None;
        case 'f' =>
          var ok := ConsumeLit("false");
          r := if ok then Some(Bool(false)) else None;
        case 'n' =>
          var ok := ConsumeLit("null");
          r := if ok then Some(Null) else None;
        case _ => r := ParseNumber();
      }
      if r.Some? { assert |Rest()| < |old(Rest())|; }
    }

    method ParseObject() returns (r: Option<Value>)
      requires Valid() && StartsWith(Rest(), '{')
      modifies this
      ensures Valid() && pos > old(pos)
      ensures var u := SkipSpace(old(Rest())[1..]);
        Agrees(if StartsWith(u, '}') then Some(Parsed(Object([]), u[1..])) else ParseMembers(u, [], read), r, Rest())
      decreases |text| - pos, 0
    {
      hide Json.ParseValue, Json.ParseString;
      pos := pos + 1;
      SkipWs();
      var empty := Consume('}');
      if empty { return Some(Object([])); }
      var obj: seq<Member> := [];
      ghost var whole := ParseMembers(Rest(), [], read);
      while true
        invariant Valid() && pos > old(pos) && ParseMembers(Rest(), obj, read) == whole
        decreases |text| - pos
      {
        SkipWs();
        var key := ParseString();
        if key.None? { return None; }
        SkipWs();
        var colon := Consume(':');
        if !colon { return None; }
        var value := ParseValue();
        if value.None? { return None; }
        obj := Emplace(obj, Member(key.value, value.value));
        SkipWs();
        var comma := Consume(',');
        if comma { continue; }
        var end := Consume('}');
        if end { return Some(Object(obj)); }
        return None;
      }
    }

    method ParseArray() returns (r: Option<Value>)
      requires Valid() && StartsWith(Rest(), '[')
      modifies this
      ensures Valid() && pos > old(pos)
      ensures var u := SkipSpace(old(Rest())[1..]);
        Agrees(if StartsWith(u, ']') then Some(Parsed(Array([]), u[1..])) else ParseItems(u, [], read), r, Rest())
      decreases |text| - pos, 0
    {
      hide Json.ParseValue;
      pos := pos + 1;
      SkipWs();
      var empty := Consume(']');
      if empty { return Some(Array([])); }
      var arr: seq<Value> := [];
      ghost var whole := ParseItems(Rest(), [], read);
      while true
        invariant Valid() && pos > old(pos) && ParseItems(Rest(), arr, read) == whole
        decreases |text| - pos
      {
        var value := ParseValue();
        if value.None? { return None; }
        arr := arr + [value.value];
        SkipWs();
        var comma := Consume(',');
        if comma { continue; }
        var end := Consume(']');
        if end { return Some(Array(arr)); }
        return None;
      }
    }

    /** A whole document: nothing but space may follow the value. */
    method Run() returns (r: Option<Value>)
      requires pos == 0
      modifies this
      ensures r == Parse(text, read)
    {
      hide Json.ParseValue;
      assert text[0..] == text;
      SkipWs();
      r := ParseValue();
      if r.None? { return; }
      SkipWs();
      if pos != |text| { return None; }
    }
  }

  /** Scanning the text from start is scanning what is left of it. */
  lemma {:induction false} DigitsEndShifted(text: string, start: nat, i: nat)
    requires start <= i <= |text|
    ensures DigitsEnd(text[start..], i - start) == DigitsEnd(text, i) - start
    decreases |text| - i
  {
    if i < |text| && IsDigit(text[i]) { DigitsEndShifted(text, start, i + 1); }
  }

  /** The end of a number that starts at start. */
  function NumberEndAt(text: string, start: nat): Option<nat>
    requires start <= |text|
  {
    var first := if start < |text| && text[start] == '-' then start + 1 else start;
    var whole := DigitsEnd(text, first);
    if whole == start then None
    else
      match FractionEnd(text, whole)
      case Some(i) => ExponentEnd(text, i)
      case None => None
  }

  function Back(end: Option<nat>, start: nat): Option<int> {
    match end
    case Some(i) => Some(i - start)
    case None => None
  }

  lemma FractionShifted(text: string, start: nat, i: nat)
    requires start <= i <= |text|
    ensures FractionEnd(text[start..], i - start) == Back(FractionEnd(text, i), start)
  {
    if i < |text| { DigitsEndShifted(text, start, i + 1); }
  }

  lemma ExponentShifted(text: string, start: nat, i: nat)
    requires start <= i <= |text|
    ensures ExponentEnd(text[start..], i - start) == Back(ExponentEnd(text, i), start)
  {
    if i < |text| {
      var k := if i + 1 < |text| && (text[i + 1] == '+' || text[i + 1] == '-') then i + 2 else i + 1;
      DigitsEndShifted(text, start, k);
    }
  }

  lemma NumberEndShifted(text: string, start: nat)
    requires start <= |text|
    ensures NumberEnd(text[start..]) == Back(NumberEndAt(text, start), start)
  {
    hide FractionEnd, ExponentEnd, DigitsEnd;
    var first := if start < |text| && text[start] == '-' then start + 1 else start;
    DigitsEndShifted(text, start, first);
    var whole := DigitsEnd(text, first);
    FractionShifted(text, start, whole);
    if FractionEnd(text, whole).Some? { ExponentShifted(text, start, FractionEnd(text, whole).value); }
  }

  lemma {:induction false} EscapeAllAppend(s: string, ch: char)
    ensures EscapeAll(s + [ch]) == EscapeAll(s) + Escape(ch)
  {
    hide Escape;
    if s == [] {
      assert s + [ch] == [ch] && [ch][1..] == [];
    } else {
      assert (s + [ch])[1..] == s[1..] + [ch];
      EscapeAllAppend(s[1..], ch);
    }
  }

  lemma {:induction false} ItemsAppend(items: seq<Value>, v: Value, show: Printer)
    ensures SerializeItems(items + [v], show) ==
            SerializeItems(items, show) + (if items == [] then "" else ",") + Serialize(v, show)
  {
    hide Serialize;
    if items == [] {
      assert items + [v] == [v];
    } else {
      assert (items + [v])[1..] == items[1..] + [v];
      ItemsAppend(items[1..], v, show);
    }
  }

  lemma {:induction false} MembersAppend(members: seq<Member>, m: Member, show: Printer)
    ensures SerializeMembers(members + [m], show) ==
            SerializeMembers(members, show) + (if members == [] then "" else ",") + SerializeMember(m, show)
  {
    hide SerializeMember;
    if members == [] {
      assert members + [m] == [m];
    } else {
      assert (members + [m])[1..] == members[1..] + [m];
      MembersAppend(members[1..], m, show);
    }
  }

  class Writer {
    const show: Printer
    var out: string

    constructor (show: Printer)
      ensures this.show == show && out == ""
    {
      this.show, out := show, "";
    }

    method WriteString(s: string)
      modifies this
      ensures out == old(out) + Quoted(s)
    {
      hide Escape, EscapeAll;
      out := out + "\"";
      EscapeNothing();
      for i := 0 to |s|
        invariant out == old(out) + "\"" + EscapeAll(s[..i])
      {
        assert s[..i + 1] == s[..i] + [s[i]];
        EscapeAllAppend(s[..i], s[i]);
        out := out + Escape(s[i]);
      }
      assert s[..|s|] == s;
      out := out + "\"";
    }

    method Write(v: Value)
      modifies this
      ensures out == old(out) + Serialize(v, show)
      decreases v, 1
    {
      match v {
        case Null => out := out + "null";
        case Bool(b) => out := out + if b then "true" else "false";
        case Number(n) => out := out + if IsSmallInteger(n) then Signed(n.Floor) else show(n);
        case String(s) => WriteString(s);
        case Array(items) => WriteItems(items);
        case Object(members) => WriteMembers(members);
      }
    }

    method WriteItems(items: seq<Value>)
      modifies this
      ensures out == old(out) + "[" + SerializeItems(items, show) + "]"
      decreases items, 0
    {
      hide Serialize;
      out := out + "[";
      for i := 0 to |items|
        invariant out == old(out) + "[" + SerializeItems(items[..i], show)
      {
        assert items[..i + 1] == items[..i] + [items[i]];
        ItemsAppend(items[..i], items[i], show);
        if i > 0 { out := out + ","; }
        Write(items[i]);
      }
      assert items[..|items|] == items;
      out := out + "]";
    }

    method WriteMembers(members: seq<Member>)
      modifies this
      ensures out == old(out) + "{" + SerializeMembers(members, show) + "}"
      decreases members, 0
    {
      hide Serialize, Quoted;
      out := out + "{";
      for i := 0 to |members|
        invariant out == old(out) + "{" + SerializeMembers(members[..i], show)
      {
        assert members[..i + 1] == members[..i] + [members[i]];
        MembersAppend(members[..i], members[i], show);
        if i > 0 { out := out + ","; }
        WriteString(members[i].key);
        out := out + ":";
        Write(members[i].value);
      }
      assert members[..|members|] == members;
      out := out + "}";
    }
  }

  lemma EscapeNothing()
    ensures EscapeAll([]) == []
  {
  }
}
