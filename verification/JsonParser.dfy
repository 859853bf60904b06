/** `json.loads` on the values the protocol uses, and the proof that it undoes the printer. */
module JsonParser {
  import opened Wrappers
  import opened Text
  import opened Json

  predicate IsSpace(c: char) {
    c == ' ' || c == '\t' || c == '\n' || c == '\r'
  }

  function SkipSpace(s: string): (r: string)
    ensures |r| <= |s|
  {
    if s != "" && IsSpace(s[0]) then SkipSpace(s[1..]) else s
  }

  function HexDigits4(s: string): (r: Option<int>)
    requires |s| >= 4
  {
    var a, b, c, d := HexValue(s[0]), HexValue(s[1]), HexValue(s[2]), HexValue(s[3]);
    if a.None? || b.None? || c.None? || d.None? then None
    else Some(a.value * 4096 + b.value * 256 + c.value * 16 + d.value)
  }

  /** The character an escape stands for, given the text after the backslash.
      Escaped surrogate halves, which the printer never emits, are refused. */
  function Unescape(s: string): (r: Option<(char, string)>)
    ensures r.Some? ==> |r.value.1| < |s|
  {
    if s == "" then None
    else if s[0] == '\"' || s[0] == '\\' || s[0] == '/' then Some((s[0], s[1..]))
    else if s[0] == 'b' then Some((8 as char, s[1..]))
    else if s[0] == 'f' then Some((12 as char, s[1..]))
    else if s[0] == 'n' then Some(('\n', s[1..]))
    else if s[0] == 'r' then Some(('\r', s[1..]))
    else if s[0] == 't' then Some(('\t', s[1..]))
    else if s[0] == 'u' && |s| >= 5 then
      var n := HexDigits4(s[1..]);
      if n.Some? && (0 <= n.value < 0xD800 || 0xE000 <= n.value < 0x10000)
      then Some((n.value as char, s[5..])) else None
    else None
  }

  /** Text up to the closing quote, given the text after the opening one. */
  function ParseString(s: string): (r: Option<(string, string)>)
    ensures r.Some? ==> |r.value.1| < |s|
    decreases |s|
  {
    if s == "" then None
    else if s[0] == '\"' then Some(("", s[1..]))
    else if s[0] == '\\' then
      var e := Unescape(s[1..]);
      if e.None? then None
      else
        var rest := ParseString(e.value.1);
        if rest.None? then None else Some(([e.value.0] + rest.value.0, rest.value.1))
    else if s[0] < ' ' then None
    else
      var rest := ParseString(s[1..]);
      if rest.None? then None else Some(([s[0]] + rest.value.0, rest.value.1))
  }

  /** Text after which an integer has ended. */
  predicate Boundary(s: string) {
    s == "" || (!IsDigit(s[0]) && s[0] != '.' && s[0] != 'e' && s[0] != 'E')
  }

  function ParseNat(s: string): (r: Option<(nat, string)>)
    ensures r.Some? ==> |r.value.1| < |s|
  {
    var n := DigitPrefix(s);
    if n == 0 || (n > 1 && s[0] == '0') || !Boundary(s[n..]) then None
    else Some((DecimalValue(s[..n]), s[n..]))
  }

  function ParseValue(s: string): (r: Option<(Json, string)>)
    ensures r.Some? ==> |r.value.1| < |s|
    decreases |s|, 0
  {
    if s == "" then None
    else if "null" <= s then Some((JNull, s[4..]))
    else if "true" <= s then Some((JBool(true), s[4..]))
    else if "false" <= s then Some((JBool(false), s[5..]))
    else if s[0] == '\"' then
      var t := ParseString(s[1..]);
      if t.None? then None else Some((JStr(t.value.0), t.value.1))
    else if s[0] == '[' then
      var r := SkipSpace(s[1..]);
      if r != "" && r[0] == ']' then Some((JArr([]), r[1..]))
      else
        var items := ParseItems(r);
        if items.None? then None else Some((JArr(items.value.0), items.value.1))
    else if s[0] == '{' then
      var r := SkipSpace(s[1..]);
      if r != "" && r[0] == '}' then Some((JObj([]), r[1..]))
      else
        var members := ParseMembers(r);
        if members.None? then None else Some((JObj(members.value.0), members.value.1))
    else if s[0] == '-' then
      var n := ParseNat(s[1..]);
      if n.None? then None else Some((JInt(0 - n.value.0), n.value.1))
    else
      var n := ParseNat(s);
      if n.None? then None else Some((JInt(n.value.0), n.value.1))
  }

  /** One or more items and the closing bracket. */
  function ParseItems(s: string): (r: Option<(seq<Json>, string)>)
    ensures r.Some? ==> |r.value.1| < |s|
    decreases |s|, 1
  {
    var v := ParseValue(s);
    if v.None? then None
    else
      var t := SkipSpace(v.value.1);
      if t == "" then None
      else if t[0] == ']' then Some(([v.value.0], t[1..]))
      else if t[0] == ',' then
        var rest := ParseItems(SkipSpace(t[1..]));
        if rest.None? then None else Some(([v.value.0] + rest.value.0, rest.value.1))
      else None
  }

  function ParseMember(s: string): (r: Option<(Member, string)>)
    ensures r.Some? ==> |r.value.1| < |s|
    decreases |s|, 1
  {
    if s == "" || s[0] != '\"' then None
    else
      var k := ParseString(s[1..]);
      if k.None? then None
      else
        var t := SkipSpace(k.value.1);
        if t == "" || t[0] != ':' then None
        else
          var v := ParseValue(SkipSpace(t[1..]));
          if v.None? then None else Some(((k.value.0, v.value.0), v.value.1))
  }

  function ParseMembers(s: string): (r: Option<(seq<Member>, string)>)
    ensures r.Some? ==> |r.value.1| < |s|
    decreases |s|, 2
  {
    var m := ParseMember(s);
    if m.None? then None
    else
      var t := SkipSpace(m.value.1);
      if t == "" then None
      else if t[0] == '}' then Some(([m.value.0], t[1..]))
      else if t[0] == ',' then
        var rest := ParseMembers(SkipSpace(t[1..]));
        if rest.None? then None else Some(([m.value.0] + rest.value.0, rest.value.1))
      else None
  }

  /** A whole document. */
  function Loads(s: string): (r: Option<Json>)
  {
    var v := ParseValue(SkipSpace(s));
    if v.Some? && SkipSpace(v.value.1) == "" then Some(v.value.0) else None
  }

  // ---------------------------------------------------------------- the printer is undone

  lemma UnescapeUndoes(c: char, rest: string)
    requires EscapeChar(c)[0] == '\\'
    ensures Unescape((EscapeChar(c) + rest)[1..]) == Some((c, rest))
  {
    var e := EscapeChar(c);
    var s := (e + rest)[1..];
    assert forall i | 0 < i < |e| :: s[i - 1] == e[i];
    if |e| == 2 {
      assert s[1..] == rest;
    } else if |e| == 6 {
      HexCharRoundTrip(c as int / 16);
      HexCharRoundTrip(c as int % 16);
      HexCharRoundTrip(0);
      assert s[1..][0] == '0' && s[1..][1] == '0' && s[1..][2] == e[4] && s[1..][3] == e[5];
      assert HexDigits4(s[1..]) == Some(c as int);
      assert s[5..] == rest;
    }
  }

  lemma {:induction false} StringUndone(s: string, rest: string)
    ensures ParseString(Escape(s) + "\"" + rest) == Some((s, rest))
  {
    var text := Escape(s) + "\"" + rest;
    if s == "" {
      assert text == "\"" + rest;
    } else {
      var e, tail := EscapeChar(s[0]), Escape(s[1..]) + "\"" + rest;
      assert text == e + tail;
      StringUndone(s[1..], rest);
      if e[0] == '\\' {
        UnescapeUndoes(s[0], tail);
      } else {
        assert text[1..] == tail;
      }
      assert s == [s[0]] + s[1..];
    }
  }

  lemma QuoteUndone(s: string, rest: string)
    ensures Quote(s) + rest == "\"" + (Escape(s) + "\"" + rest)
    ensures (Quote(s) + rest)[1..] == Escape(s) + "\"" + rest
    ensures ParseString((Quote(s) + rest)[1..]) == Some((s, rest))
  {
    StringUndone(s, rest);
  }

  lemma {:induction false} NoLeadingZero(n: nat)
    ensures n >= 10 ==> |Decimal(n)| > 1 && Decimal(n)[0] != '0'
    ensures n < 10 ==> |Decimal(n)| == 1
    ensures n > 0 ==> Decimal(n)[0] != '0'
  {
    if n >= 10 {
      NoLeadingZero(n / 10);
    }
  }

  lemma NatUndone(n: nat, rest: string)
    requires Boundary(rest)
    ensures ParseNat(Decimal(n) + rest) == Some((n, rest))
  {
    var ds := Decimal(n);
    DigitPrefixOf(ds, rest);
    DecimalRoundTrip(n);
    NoLeadingZero(n);
    assert (ds + rest)[..|ds|] == ds && (ds + rest)[|ds|..] == rest;
  }

  predicate PlainStart(s: string) {
    s != "" && !IsSpace(s[0]) && s[0] != ']' && s[0] != '}'
  }

  lemma PrintStart(v: Json, f: Format)
    ensures PlainStart(Print(v, f))
  {
    if v.JInt? {
      assert v.n >= 0 ==> IsDigit(PrintInt(v.n)[0]);
    }
  }

  lemma SkipNothing(s: string, rest: string)
    requires PlainStart(s)
    ensures SkipSpace(s + rest) == s + rest
    ensures SkipSpace(" " + (s + rest)) == s + rest
    ensures PlainStart(s + rest)
  {
    assert (" " + (s + rest))[1..] == s + rest;
  }

  lemma ItemSeparator(f: Format, s: string, rest: string)
    requires PlainStart(s)
    ensures SkipSpace(f.Item() + (s + rest)) == f.Item() + (s + rest)
    ensures (f.Item() + (s + rest))[0] == ',' && SkipSpace((f.Item() + (s + rest))[1..]) == s + rest
    ensures SkipSpace(f.Key() + (s + rest)) == f.Key() + (s + rest)
    ensures (f.Key() + (s + rest))[0] == ':' && SkipSpace((f.Key() + (s + rest))[1..]) == s + rest
  {
    SkipNothing(s, rest);
    if f.Spaced? {
      assert (f.Item() + (s + rest))[1..] == " " + (s + rest);
      assert (f.Key() + (s + rest))[1..] == " " + (s + rest);
    } else {
      assert (f.Item() + (s + rest))[1..] == s + rest;
      assert (f.Key() + (s + rest))[1..] == s + rest;
    }
  }

  lemma LiteralStart(s: string)
    requires s != "" && s[0] != 'n' && s[0] != 't' && s[0] != 'f'
    ensures !("null" <= s) && !("true" <= s) && !("false" <= s)
  {
  }

  lemma ListText(start: string, body: string, end: string, rest: string)
    requires |start| == 1
    ensures start + body + end + rest == start + (body + (end + rest))
    ensures (start + body + end + rest)[1..] == body + (end + rest)
    ensures (start + body + end + rest)[0] == start[0]
  {
  }

  lemma LiteralRead(s: string, rest: string)
    ensures s == "null" + rest ==> ParseValue(s) == Some((JNull, rest))
    ensures s == "true" + rest ==> ParseValue(s) == Some((JBool(true), rest))
    ensures s == "false" + rest ==> ParseValue(s) == Some((JBool(false), rest))
  {
    if s == "null" + rest {
      assert "null" <= s && s[4..] == rest;
    } else if s == "true" + rest {
      assert s[0] == 't' && "true" <= s && s[4..] == rest;
    } else if s == "false" + rest {
      assert s[0] == 'f' && "false" <= s && s[5..] == rest;
    }
  }

  lemma NumberRead(s: string, n: nat, rest: string)
    requires s != "" && IsDigit(s[0]) && ParseNat(s) == Some((n, rest))
    ensures ParseValue(s) == Some((JInt(n), rest))
    ensures ParseValue("-" + s) == Some((JInt(0 - n), rest))
  {
    LiteralStart(s);
    LiteralStart("-" + s);
    assert ("-" + s)[1..] == s;
  }

  lemma TextRead(s: string, t: string, rest: string)
    requires s != "" && s[0] == '\"' && ParseString(s[1..]) == Some((t, rest))
    ensures ParseValue(s) == Some((JStr(t), rest))
  {
    LiteralStart(s);
  }

  lemma ScalarUndone(v: Json, f: Format, rest: string)
    requires Boundary(rest) && !v.JArr? && !v.JObj?
    ensures ParseValue(Print(v, f) + rest) == Some((v, rest))
  {
    if v.JInt? {
      var m: nat := if v.n < 0 then -v.n else v.n;
      NatUndone(m, rest);
      NumberRead(Decimal(m) + rest, m, rest);
      assert "-" + (Decimal(m) + rest) == "-" + Decimal(m) + rest;
    } else if v.JStr? {
      QuoteUndone(v.s, rest);
      TextRead(Quote(v.s) + rest, v.s, rest);
    } else {
      LiteralRead(Print(v, f) + rest, rest);
    }
  }

  lemma ArrayRead(s: string, items: seq<Json>, rest: string)
    requires s != "" && s[0] == '['
    requires SkipSpace(s[1..]) == s[1..] && s[1..] != ""
    requires s[1] == ']' ==> items == [] && rest == s[2..]
    requires s[1] != ']' ==> ParseItems(s[1..]) == Some((items, rest))
    ensures ParseValue(s) == Some((JArr(items), rest))
  {
    LiteralStart(s);
  }

  lemma ObjectRead(s: string, members: seq<Member>, rest: string)
    requires s != "" && s[0] == '{'
    requires SkipSpace(s[1..]) == s[1..] && s[1..] != ""
    requires s[1] == '}' ==> members == [] && rest == s[2..]
    requires s[1] != '}' ==> ParseMembers(s[1..]) == Some((members, rest))
    ensures ParseValue(s) == Some((JObj(members), rest))
  {
    LiteralStart(s);
  }

  lemma ItemsRead(s: string, v: Json, tail: string, u: string, items: seq<Json>, rest: string)
    requires ParseValue(s) == Some((v, tail)) && SkipSpace(tail) == tail && tail != ""
    requires tail[0] == ']' ==> items == [] && rest == tail[1..]
    requires tail[0] != ']' ==> tail[0] == ',' && SkipSpace(tail[1..]) == u && ParseItems(u) == Some((items, rest))
    ensures ParseItems(s) == Some(([v] + items, rest))
  {
    assert [v] + [] == [v];
  }

  lemma MembersRead(s: string, m: Member, tail: string, u: string, members: seq<Member>, rest: string)
    requires ParseMember(s) == Some((m, tail)) && SkipSpace(tail) == tail && tail != ""
    requires tail[0] == '}' ==> members == [] && rest == tail[1..]
    requires tail[0] != '}' ==> tail[0] == ',' && SkipSpace(tail[1..]) == u && ParseMembers(u) == Some((members, rest))
    ensures ParseMembers(s) == Some(([m] + members, rest))
  {
    assert [m] + [] == [m];
  }

  lemma MemberRead(s: string, k: string, tail: string, v: Json, u: string, rest: string)
    requires s != "" && s[0] == '\"' && ParseString(s[1..]) == Some((k, tail))
    requires SkipSpace(tail) == tail && tail != "" && tail[0] == ':'
    requires SkipSpace(tail[1..]) == u && ParseValue(u) == Some((v, rest))
    ensures ParseMember(s) == Some(((k, v), rest))
  {
  }

  /** The parser undoes the printer in either format, whatever text follows. */
  lemma {:induction false} ValueUndone(v: Json, f: Format, rest: string)
    requires Boundary(rest)
    ensures ParseValue(Print(v, f) + rest) == Some((v, rest))
    decreases v, 1
  {
    if v.JArr? {
      ArrayUndone(v.items, f, rest);
    } else if v.JObj? {
      ObjectUndone(v.members, f, rest);
    } else {
      ScalarUndone(v, f, rest);
    }
  }

  lemma {:induction false} ArrayUndone(items: seq<Json>, f: Format, rest: string)
    ensures ParseValue("[" + PrintItems(items, f) + "]" + rest) == Some((JArr(items), rest))
    decreases items, 1
  {
    var body := PrintItems(items, f);
    ListText("[", body, "]", rest);
    if items == [] {
      assert body + ("]" + rest) == "]" + rest;
    } else {
      ItemsStart(items, f);
      SkipNothing(body, "]" + rest);
      ItemsUndone(items, f, rest);
    }
    ArrayRead("[" + body + "]" + rest, items, rest);
  }

  lemma {:induction false} ObjectUndone(members: seq<Member>, f: Format, rest: string)
    ensures ParseValue("{" + PrintMembers(members, f) + "}" + rest) == Some((JObj(members), rest))
    decreases members, 3
  {
    var body := PrintMembers(members, f);
    ListText("{", body, "}", rest);
    if members == [] {
      assert body + ("}" + rest) == "}" + rest;
    } else {
      MembersStart(members, f);
      SkipNothing(body, "}" + rest);
      MembersUndone(members, f, rest);
    }
    ObjectRead("{" + body + "}" + rest, members, rest);
  }

  lemma ItemsStart(items: seq<Json>, f: Format)
    requires items != []
    ensures PlainStart(PrintItems(items, f))
  {
    PrintStart(items[0], f);
  }

  lemma {:induction false} ItemsUndone(items: seq<Json>, f: Format, rest: string)
    requires items != []
    ensures ParseItems(PrintItems(items, f) + ("]" + rest)) == Some((items, rest))
    decreases items, 0
  {
    var text := PrintItems(items, f) + ("]" + rest);
    var first := Print(items[0], f);
    assert items == [items[0]] + items[1..];
    if |items| == 1 {
      ValueUndone(items[0], f, "]" + rest);
      ItemsRead(text, items[0], "]" + rest, "", [], rest);
    } else {
      var more := PrintItems(items[1..], f);
      var tail := f.Item() + (more + ("]" + rest));
      ItemsStart(items[1..], f);
      ItemSeparator(f, more, "]" + rest);
      assert text == first + tail by {
        Reassociate(first, f.Item(), more, "]" + rest);
      }
      ValueUndone(items[0], f, tail);
      ItemsUndone(items[1..], f, rest);
      ItemsRead(text, items[0], tail, more + ("]" + rest), items[1..], rest);
    }
  }

  lemma Reassociate(a: string, b: string, c: string, d: string)
    ensures a + b + c + d == a + (b + (c + d))
  {
  }

  lemma MembersStart(members: seq<Member>, f: Format)
    requires members != []
    ensures PlainStart(PrintMembers(members, f))
  {
    assert PrintMember(members[0], f)[0] == '\"';
  }

  lemma {:induction false} MemberUndone(m: Member, f: Format, rest: string)
    requires Boundary(rest)
    ensures ParseMember(PrintMember(m, f) + rest) == Some((m, rest))
    decreases m, 2
  {
    var value := Print(m.1, f);
    var tail := f.Key() + (value + rest);
    Reassociate(Quote(m.0), f.Key(), value, rest);
    QuoteUndone(m.0, tail);
    PrintStart(m.1, f);
    ItemSeparator(f, value, rest);
    ValueUndone(m.1, f, rest);
    MemberRead(Quote(m.0) + tail, m.0, tail, m.1, value + rest, rest);
  }

  lemma {:induction false} MembersUndone(members: seq<Member>, f: Format, rest: string)
    requires members != []
    ensures ParseMembers(PrintMembers(members, f) + ("}" + rest)) == Some((members, rest))
    decreases members, 2
  {
    var text := PrintMembers(members, f) + ("}" + rest);
    var first := PrintMember(members[0], f);
    assert members == [members[0]] + members[1..];
    if |members| == 1 {
      MemberUndone(members[0], f, "}" + rest);
      MembersRead(text, members[0], "}" + rest, "", [], rest);
    } else {
      var more := PrintMembers(members[1..], f);
      var tail := f.Item() + (more + ("}" + rest));
      MembersStart(members[1..], f);
      ItemSeparator(f, more, "}" + rest);
      assert text == first + tail by {
        Reassociate(first, f.Item(), more, "}" + rest);
      }
      MemberUndone(members[0], f, tail);
      MembersUndone(members[1..], f, rest);
      MembersRead(text, members[0], tail, more + ("}" + rest), members[1..], rest);
    }
  }

  /** Whatever is printed can be read back: `json.loads(json.dumps(v)) == v`, member order included. */
  lemma LoadsUndoesPrint(v: Json, f: Format)
    ensures Loads(Print(v, f)) == Some(v)
  {
    PrintStart(v, f);
    SkipNothing(Print(v, f), "");
    ValueUndone(v, f, "");
    assert Print(v, f) + "" == Print(v, f);
  }
}
