/** parse and serialize undo each other (engine/core/src/json.cpp). */
module JsonRoundTrip {
  import opened Ids
  import opened Sorting
  import opened Decimals
  import opened Json

  /** The reader gets small integers right. */
  ghost predicate ReadsIntegers(read: Reader) {
    forall n: int {:trigger Signed(n)} :: -INTEGER_LIMIT < n < INTEGER_LIMIT ==> read(Signed(n)) == Some(n as real)
  }

  predicate KeyBefore(a: Member, b: Member) {
    Less(a.key, b.key)
  }

  /** Every number is a small integer, and every object a map in key order. */
  ghost predicate Plain(v: Value)
    decreases v
  {
    match v
    case Number(n) => IsSmallInteger(n)
    case Array(items) => forall i :: 0 <= i < |items| ==> Plain(items[i])
    case Object(members) =>
      && (forall i :: 0 <= i < |members| ==> Plain(members[i].value))
      && (forall i, j :: 0 <= i < j < |members| ==> KeyBefore(members[i], members[j]))
    case _ => true
  }

  /** What may follow a value: nothing that would lengthen a number. */
  predicate Stops(t: string) {
    t == [] || !(IsDigit(t[0]) || t[0] == '.' || t[0] == 'e' || t[0] == 'E')
  }

  // --- strings ----------------------------------------------------------------

  lemma HexRoundTrip(d: nat)
    requires d < 16
    ensures HexDigit(HexChar(d)) == Some(d)
  {
  }

  /** One escaped character reads back as itself, whatever follows. */
  lemma EscapeReads(ch: char, t: string, out: string)
    ensures ParseChars(Escape(ch) + t, out) == ParseChars(t, out + [ch])
  {
    var s := Escape(ch) + t;
    if |Escape(ch)| == 6 {
      var hi, lo := ch as int / 16, ch as int % 16;
      HexRoundTrip(hi);
      HexRoundTrip(lo);
      assert s[2..6] == ['0', '0', HexChar(hi), HexChar(lo)];
      assert s[6..] == t;
      assert HexCode(s[2..6]) == Some(ch as nat);
    } else if |Escape(ch)| == 2 {
      assert s[2..] == t;
    } else {
      assert s[1..] == t;
    }
  }

  lemma {:induction false} EscapeAllReads(s: string, t: string, out: string)
    ensures ParseChars(EscapeAll(s) + "\"" + t, out) == Some(Text(out + s, t))
  {
    hide Escape;
    if s == [] {
      assert EscapeAll(s) + "\"" + t == "\"" + t;
      assert out + s == out;
    } else {
      var rest := EscapeAll(s[1..]) + "\"" + t;
      assert EscapeAll(s) + "\"" + t == Escape(s[0]) + rest;
      EscapeReads(s[0], rest, out);
      EscapeAllReads(s[1..], t, out + [s[0]]);
      assert out + [s[0]] + s[1..] == out + s;
    }
  }

  /** Any byte string survives. */
  lemma StringReads(s: string, t: string)
    ensures ParseString(Quoted(s) + t) == Some(Text(s, t))
  {
    EscapeAllReads(s, t, "");
    assert (Quoted(s) + t)[1..] == EscapeAll(s) + "\"" + t && "" + s == s;
  }

  // --- numbers ----------------------------------------------------------------

  lemma {:induction false} DigitsRun(s: string, i: nat, j: nat)
    requires i <= j <= |s| && forall k :: i <= k < j ==> IsDigit(s[k])
    requires j == |s| || !IsDigit(s[j])
    ensures DigitsEnd(s, i) == j
    decreases j - i
  {
    if i < j { DigitsRun(s, i + 1, j); }
  }

  lemma IntegerReads(n: int, t: string, read: Reader)
    requires -INTEGER_LIMIT < n < INTEGER_LIMIT && ReadsIntegers(read) && Stops(t)
    ensures ParseNumber(Signed(n) + t, read) == Some(Parsed(Number(n as real), t))
  {
    var digits := Decimal(if n < 0 then -n else n);
    var s, end, start := Signed(n) + t, |Signed(n)|, if n < 0 then 1 else 0;
    forall k | start <= k < end ensures IsDigit(s[k]) { assert s[k] == digits[k - start]; }
    if n >= 0 { assert IsDigit(s[0]); }
    assert StartsWith(s, '-') == (n < 0);
    DigitsRun(s, start, end);
    assert end < |s| ==> s[end] == t[0];
    assert NumberEnd(s) == Some(end);
    assert s[..end] == Signed(n) && s[end..] == t;
  }

  // --- values -----------------------------------------------------------------

  /** No value starts with a space, and its first character tells its kind. */
  lemma FirstChar(v: Value, show: Printer)
    requires Plain(v)
    ensures var s := Serialize(v, show);
      && s != [] && !IsSpace(s[0])
      && (v.Number? ==> s[0] == '-' || IsDigit(s[0]))
  {
    if v.Number? {
      var n := v.n.Floor;
      if n >= 0 { assert IsDigit(Decimal(n)[0]); }
    }
  }

  lemma NoSpace(s: string, t: string)
    requires s != [] && !IsSpace(s[0])
    ensures SkipSpace(s + t) == s + t && (s + t)[0] == s[0]
  {
  }

  /** A value is read back exactly where it ends. */
  lemma {:induction false} ValueReads(v: Value, t: string, read: Reader, show: Printer)
    requires Plain(v) && ReadsIntegers(read) && Stops(t)
    ensures ParseValue(Serialize(v, show) + t, read) == Some(Parsed(v, t))
    decreases v, 1
  {
    var s := Serialize(v, show);
    FirstChar(v, show);
    NoSpace(s, t);
    match v {
      case Null => assert (s + t)[4..] == t;
      case Bool(b) => if b { assert (s + t)[4..] == t; } else { assert (s + t)[5..] == t; }
      case Number(n) => IntegerReads(n.Floor, t, read);
      case String(x) => StringReads(x, t);
      case Array(items) => ArrayReads(v, t, read, show);
      case Object(members) => ObjectReads(v, t, read, show);
    }
  }

  lemma {:induction false} ArrayReads(v: Value, t: string, read: Reader, show: Printer)
    requires v.Array? && Plain(v) && ReadsIntegers(read) && Stops(t)
    ensures ParseValue(Serialize(v, show) + t, read) == Some(Parsed(v, t))
    decreases v, 0
  {
    var s, body := Serialize(v, show) + t, SerializeItems(v.items, show) + "]" + t;
    assert s == "[" + body && s[1..] == body && SkipSpace(s) == s;
    if v.items == [] {
      assert body == "]" + t && SkipSpace(body) == body && body[1..] == t;
    } else {
      ItemsStart(v.items, show);
      NoSpace(SerializeItems(v.items, show), "]" + t);
      assert body == SerializeItems(v.items, show) + ("]" + t);
      ItemsRead(v.items, [], t, read, show);
      assert [] + v.items == v.items;
    }
  }

  lemma ItemsStart(items: seq<Value>, show: Printer)
    requires items != [] && Plain(items[0])
    ensures var s := SerializeItems(items, show); s != [] && !IsSpace(s[0]) && s[0] != ']'
  {
    FirstChar(items[0], show);
    var s := Serialize(items[0], show);
    assert SerializeItems(items, show)[0] == s[0];
  }

  lemma {:induction false} ItemReads(item: Value, u: string, seen: seq<Value>, read: Reader, show: Printer)
    requires Plain(item) && ReadsIntegers(read) && u != [] && !IsSpace(u[0]) && Stops(u)
    ensures ParseItems(Serialize(item, show) + u, seen, read) ==
            if StartsWith(u, ',') then ParseItems(u[1..], seen + [item], read)
            else if StartsWith(u, ']') then Some(Parsed(Array(seen + [item]), u[1..]))
            else None
    decreases item, 2
  {
    hide ParseValue, Serialize;
    ValueReads(item, u, read, show);
  }

  lemma {:induction false} ItemsRead(items: seq<Value>, seen: seq<Value>, t: string, read: Reader, show: Printer)
    requires items != [] && ReadsIntegers(read) && forall i :: 0 <= i < |items| ==> Plain(items[i])
    ensures ParseItems(SerializeItems(items, show) + "]" + t, seen, read) == Some(Parsed(Array(seen + items), t))
    decreases items
  {
    hide ParseValue, Serialize, ParseItems, Plain;
    var first := Serialize(items[0], show);
    if |items| == 1 {
      ItemReads(items[0], "]" + t, seen, read, show);
      assert SerializeItems(items, show) + "]" + t == first + ("]" + t);
      assert ("]" + t)[1..] == t && seen + [items[0]] == seen + items;
    } else {
      var rest := SerializeItems(items[1..], show) + "]" + t;
      assert SerializeItems(items, show) + "]" + t == first + ("," + rest);
      ItemReads(items[0], "," + rest, seen, read, show);
      assert ("," + rest)[1..] == rest;
      ItemsRead(items[1..], seen + [items[0]], t, read, show);
      assert seen + [items[0]] + items[1..] == seen + items;
    }
  }

  lemma {:induction false} EmplaceLast(members: seq<Member>, m: Member)
    requires forall i :: 0 <= i < |members| ==> KeyBefore(members[i], m)
    ensures Emplace(members, m) == members + [m]
  {
    if members != [] {
      LessAsymmetric(members[0].key, m.key);
      EmplaceLast(members[1..], m);
    }
  }

  lemma {:induction false} ObjectReads(v: Value, t: string, read: Reader, show: Printer)
    requires v.Object? && Plain(v) && ReadsIntegers(read) && Stops(t)
    ensures ParseValue(Serialize(v, show) + t, read) == Some(Parsed(v, t))
    decreases v, 0
  {
    var s, body := Serialize(v, show) + t, SerializeMembers(v.members, show) + "}" + t;
    assert s == "{" + body && s[1..] == body && SkipSpace(s) == s;
    if v.members == [] {
      assert body == "}" + t && SkipSpace(body) == body && body[1..] == t;
    } else {
      assert SerializeMembers(v.members, show)[0] == '"';
      NoSpace(SerializeMembers(v.members, show), "}" + t);
      assert body == SerializeMembers(v.members, show) + ("}" + t);
      MembersRead(v.members, [], t, read, show);
      assert [] + v.members == v.members;
    }
  }

  lemma {:induction false} MemberReads(m: Member, u: string, seen: seq<Member>, read: Reader, show: Printer)
    requires Plain(m.value) && ReadsIntegers(read) && u != [] && !IsSpace(u[0]) && Stops(u)
    requires forall i :: 0 <= i < |seen| ==> KeyBefore(seen[i], m)
    ensures ParseMembers(SerializeMember(m, show) + u, seen, read) ==
            if StartsWith(u, ',') then ParseMembers(u[1..], seen + [m], read)
            else if StartsWith(u, '}') then Some(Parsed(Object(seen + [m]), u[1..]))
            else None
    decreases m, 1
  {
    var value := Serialize(m.value, show);
    var s := SerializeMember(m, show) + u;
    assert s == Quoted(m.key) + (":" + value + u) && s[0] == '"' && SkipSpace(s) == s;
    StringReads(m.key, ":" + value + u);
    assert (":" + value + u)[1..] == value + u && SkipSpace(":" + value + u) == ":" + value + u;
    ValueReads(m.value, u, read, show);
    EmplaceLast(seen, m);
    assert Member(m.key, m.value) == m;
  }

  lemma {:induction false} MembersRead(members: seq<Member>, seen: seq<Member>, t: string, read: Reader, show: Printer)
    requires members != [] && ReadsIntegers(read) && forall i :: 0 <= i < |members| ==> Plain(members[i].value)
    requires var all := seen + members; forall i, j :: 0 <= i < j < |all| ==> KeyBefore(all[i], all[j])
    ensures ParseMembers(SerializeMembers(members, show) + "}" + t, seen, read) == Some(Parsed(Object(seen + members), t))
    decreases members
  {
    hide ParseMembers, SerializeMember, Plain, KeyBefore;
    var m, all := members[0], seen + members;
    forall i | 0 <= i < |seen| ensures KeyBefore(seen[i], m) { assert all[i] == seen[i] && all[|seen|] == m; }
    if |members| == 1 {
      MemberReads(m, "}" + t, seen, read, show);
      assert SerializeMembers(members, show) + "}" + t == SerializeMember(m, show) + ("}" + t);
      assert ("}" + t)[1..] == t && seen + [m] == all;
    } else {
      var rest := SerializeMembers(members[1..], show) + "}" + t;
      assert SerializeMembers(members, show) + "}" + t == SerializeMember(m, show) + ("," + rest);
      MemberReads(m, "," + rest, seen, read, show);
      assert ("," + rest)[1..] == rest && seen + [m] + members[1..] == all;
      MembersRead(members[1..], seen + [m], t, read, show);
    }
  }

  /** Printing and parsing a document gives it back, for arbitrary strings and
    any nesting. */
  lemma RoundTrip(v: Value, read: Reader, show: Printer)
    requires Plain(v) && ReadsIntegers(read)
    ensures Parse(Serialize(v, show), read) == Some(v)
  {
    var s := Serialize(v, show);
    FirstChar(v, show);
    NoSpace(s, []);
    ValueReads(v, [], read, show);
    assert s + [] == s;
  }

  /** So different documents print differently. */
  lemma SerializeInjective(v: Value, w: Value, read: Reader, show: Printer)
    requires Plain(v) && Plain(w) && ReadsIntegers(read) && Serialize(v, show) == Serialize(w, show)
    ensures v == w
  {
    RoundTrip(v, read, show);
    RoundTrip(w, read, show);
  }

  /** The first of two members with one key wins. */
  lemma DuplicateKeyKeepsFirst(key: string, v: Value, w: Value)
    ensures Emplace(Emplace([], Member(key, v)), Member(key, w)) == [Member(key, v)]
  {
    if Less(key, key) { LessAsymmetric(key, key); }
  }
}
