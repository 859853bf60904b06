/** `write_json` and `read_json`: JSON documents on disk, indented by two spaces, and the proof that reading
    undoes writing. */
module JsonFile {
  import opened Wrappers
  import opened Text
  import opened Json
  import opened JsonParser
  import Utf8

  function Spaces(n: nat): string {
    if n == 0 then "" else "  " + Spaces(n - 1)
  }

  /** A line break and the indentation of level `n`. */
  function Break(n: nat): string {
    "\n" + Spaces(n)
  }

  /** `json.dumps(..., ensure_ascii=False, indent=2)` of a value at level `n`. */
  function Indented(v: Json, n: nat): (s: string)
    decreases v, 1
  {
    match v
    case JArr(items) =>
      if items == [] then "[]" else "[" + (Break(n + 1) + (IndentedItems(items, n + 1) + (Break(n) + "]")))
    case JObj(members) =>
      if members == [] then "{}" else "{" + (Break(n + 1) + (IndentedMembers(members, n + 1) + (Break(n) + "}")))
    case _ => Print(v, Spaced)
  }

  function IndentedItems(items: seq<Json>, n: nat): string
    requires items != []
    decreases items, 0
  {
    if |items| == 1 then Indented(items[0], n)
    else Indented(items[0], n) + ("," + (Break(n) + IndentedItems(items[1..], n)))
  }

  function IndentedMember(m: Member, n: nat): string
    decreases m, 2
  {
    Quote(m.0) + (": " + Indented(m.1, n))
  }

  function IndentedMembers(members: seq<Member>, n: nat): string
    requires members != []
    decreases members, 0
  {
    if |members| == 1 then IndentedMember(members[0], n)
    else IndentedMember(members[0], n) + ("," + (Break(n) + IndentedMembers(members[1..], n)))
  }

  function WriteJson(v: Json): bytes {
    Utf8.Encode(Indented(v, 0) + "\n")
  }

  function ReadJson(data: bytes): Option<Json> {
    var text := Utf8.Decode(data);
    if text.None? then None else Loads(text.value)
  }

  // ----- Reading undoes writing -----

  lemma {:induction false} SkipSpaces(n: nat, s: string)
    requires s == "" || !IsSpace(s[0])
    ensures SkipSpace(Spaces(n) + s) == s
  {
    if n == 0 {
      assert Spaces(n) + s == s;
    } else {
      SkipSpaces(n - 1, s);
      var t := Spaces(n - 1) + s;
      assert Spaces(n) + s == "  " + t;
      assert ("  " + t)[1..] == " " + t && (" " + t)[1..] == t;
    }
  }

  lemma SkipBreak(n: nat, s: string)
    requires s == "" || !IsSpace(s[0])
    ensures SkipSpace(Break(n) + s) == s
  {
    SkipSpaces(n, s);
    assert (Break(n) + s)[1..] == Spaces(n) + s;
  }

  lemma IndentedStart(v: Json, n: nat)
    ensures PlainStart(Indented(v, n))
  {
    if !v.JArr? && !v.JObj? {
      PrintStart(v, Spaced);
    }
  }

  lemma BreakBoundary(n: nat, s: string)
    ensures Boundary(Break(n) + s)
  {
  }

  lemma {:induction false} ValueReadBack(v: Json, n: nat, rest: string)
    requires Boundary(rest)
    ensures ParseValue(Indented(v, n) + rest) == Some((v, rest))
    decreases v, 1
  {
    match v {
      case JArr(items) => ArrayReadBack(items, n, rest);
      case JObj(members) => ObjectReadBack(members, n, rest);
      case _ => ScalarUndone(v, Spaced, rest);
    }
  }

  lemma OpenedText(start: string, gap: string, body: string, end: string, rest: string)
    requires |start| == 1
    ensures (start + (gap + (body + end)) + rest)[0] == start[0]
    ensures (start + (gap + (body + end)) + rest)[1..] == gap + (body + (end + rest))
  {
  }

  lemma JoinedText(first: string, gap: string, more: string, end: string)
    ensures first + ("," + (gap + more)) + end == first + ("," + (gap + (more + end)))
    ensures ("," + (gap + (more + end)))[0] == ',' && ("," + (gap + (more + end)))[1..] == gap + (more + end)
    ensures SkipSpace("," + (gap + (more + end))) == "," + (gap + (more + end))
  {
  }

  lemma ColonText(key: string, value: string, rest: string)
    ensures (key + (": " + value)) + rest == key + (": " + (value + rest))
    ensures (": " + (value + rest))[0] == ':' && (": " + (value + rest))[1..] == " " + (value + rest)
    ensures SkipSpace(": " + (value + rest)) == ": " + (value + rest)
  {
  }

  lemma GapText(gap: string, bracket: string, rest: string)
    ensures (gap + bracket) + rest == gap + (bracket + rest)
  {
  }

  /** Brackets around nothing. */
  lemma EmptyRead(rest: string)
    ensures ParseValue("[]" + rest) == Some((JArr([]), rest))
    ensures ParseValue("{}" + rest) == Some((JObj([]), rest))
  {
    LiteralStart("[]" + rest);
    LiteralStart("{}" + rest);
    assert ("[]" + rest)[1..] == "]" + rest && ("]" + rest)[1..] == rest;
    assert ("{}" + rest)[1..] == "}" + rest && ("}" + rest)[1..] == rest;
  }

  /** Brackets, with a gap after the opening one. */
  lemma OpenRead(s: string, u: string, items: seq<Json>, members: seq<Member>, rest: string)
    requires s != "" && SkipSpace(s[1..]) == u && PlainStart(u)
    ensures s[0] == '[' && ParseItems(u) == Some((items, rest)) ==> ParseValue(s) == Some((JArr(items), rest))
    ensures s[0] == '{' && ParseMembers(u) == Some((members, rest)) ==> ParseValue(s) == Some((JObj(members), rest))
  {
    if s[0] == '[' || s[0] == '{' {
      LiteralStart(s);
    }
  }

  lemma {:induction false} ArrayReadBack(items: seq<Json>, n: nat, rest: string)
    ensures ParseValue(Indented(JArr(items), n) + rest) == Some((JArr(items), rest))
    decreases items, 1
  {
    if items == [] {
      EmptyRead(rest);
    } else {
      var body, end := IndentedItems(items, n + 1), Break(n) + "]";
      OpenedText("[", Break(n + 1), body, end, rest);
      GapText(Break(n), "]", rest);
      ItemsReadBack(items, n + 1, n, rest);
      SkipBreak(n + 1, body + (end + rest));
      OpenRead(Indented(JArr(items), n) + rest, body + (end + rest), items, [], rest);
    }
  }

  lemma LastItem(s: string, v: Json, tail: string, rest: string)
    requires ParseValue(s) == Some((v, tail)) && SkipSpace(tail) == "]" + rest
    ensures ParseItems(s) == Some(([v], rest))
  {
    assert ("]" + rest)[1..] == rest;
  }

  lemma {:induction false} ItemsReadBack(items: seq<Json>, n: nat, m: nat, rest: string)
    requires items != []
    ensures PlainStart(IndentedItems(items, n))
    ensures ParseItems(IndentedItems(items, n) + (Break(m) + ("]" + rest))) == Some((items, rest))
    decreases items, 0
  {
    var first, end := Indented(items[0], n), Break(m) + ("]" + rest);
    IndentedStart(items[0], n);
    if |items| == 1 {
      SkipBreak(m, "]" + rest);
      BreakBoundary(m, "]" + rest);
      ValueReadBack(items[0], n, end);
      LastItem(first + end, items[0], end, rest);
      assert items == [items[0]];
    } else {
      var more := IndentedItems(items[1..], n);
      var tail := "," + (Break(n) + (more + end));
      JoinedText(first, Break(n), more, end);
      ItemsReadBack(items[1..], n, m, rest);
      SkipBreak(n, more + end);
      ValueReadBack(items[0], n, tail);
      ItemsRead(first + tail, items[0], tail, more + end, items[1..], rest);
      assert items == [items[0]] + items[1..];
    }
  }

  lemma {:induction false} ObjectReadBack(members: seq<Member>, n: nat, rest: string)
    ensures ParseValue(Indented(JObj(members), n) + rest) == Some((JObj(members), rest))
    decreases members, 3
  {
    if members == [] {
      EmptyRead(rest);
    } else {
      var body, end := IndentedMembers(members, n + 1), Break(n) + "}";
      OpenedText("{", Break(n + 1), body, end, rest);
      GapText(Break(n), "}", rest);
      MembersStartPlain(members, n + 1);
      MembersReadBack(members, n + 1, n, rest);
      SkipBreak(n + 1, body + (end + rest));
      OpenRead(Indented(JObj(members), n) + rest, body + (end + rest), [], members, rest);
    }
  }

  lemma {:induction false} MemberReadBack(m: Member, n: nat, rest: string)
    requires Boundary(rest)
    ensures ParseMember(IndentedMember(m, n) + rest) == Some((m, rest))
    decreases m, 2
  {
    var value := Indented(m.1, n);
    var tail := ": " + (value + rest);
    ColonText(Quote(m.0), value, rest);
    QuoteUndone(m.0, tail);
    IndentedStart(m.1, n);
    SkipNothing(value, rest);
    ValueReadBack(m.1, n, rest);
    MemberRead(Quote(m.0) + tail, m.0, tail, m.1, value + rest, rest);
  }

  lemma MembersStartPlain(members: seq<Member>, n: nat)
    requires members != []
    ensures PlainStart(IndentedMembers(members, n))
  {
    assert IndentedMember(members[0], n)[0] == '\"';
  }

  lemma LastMember(s: string, m: Member, tail: string, rest: string)
    requires ParseMember(s) == Some((m, tail)) && SkipSpace(tail) == "}" + rest
    ensures ParseMembers(s) == Some(([m], rest))
  {
    assert ("}" + rest)[1..] == rest;
  }

  lemma {:induction false} MembersReadBack(members: seq<Member>, n: nat, m: nat, rest: string)
    requires members != []
    ensures ParseMembers(IndentedMembers(members, n) + (Break(m) + ("}" + rest))) == Some((members, rest))
    decreases members, 2
  {
    var first, end := IndentedMember(members[0], n), Break(m) + ("}" + rest);
    if |members| == 1 {
      SkipBreak(m, "}" + rest);
      BreakBoundary(m, "}" + rest);
      MemberReadBack(members[0], n, end);
      LastMember(first + end, members[0], end, rest);
      assert members == [members[0]];
    } else {
      var more := IndentedMembers(members[1..], n);
      var tail := "," + (Break(n) + (more + end));
      JoinedText(first, Break(n), more, end);
      MembersStartPlain(members[1..], n);
      MembersReadBack(members[1..], n, m, rest);
      SkipBreak(n, more + end);
      MemberReadBack(members[0], n, tail);
      MembersRead(first + tail, members[0], tail, more + end, members[1..], rest);
      assert members == [members[0]] + members[1..];
    }
  }

  /** What `write_json` stores, `read_json` gives back, member order included. */
  lemma ReadUndoesWrite(v: Json)
    ensures ReadJson(WriteJson(v)) == Some(v)
  {
    var text := Indented(v, 0) + "\n";
    Utf8.RoundTrip(text);
    IndentedStart(v, 0);
    SkipNothing(Indented(v, 0), "\n");
    ValueReadBack(v, 0, "\n");
    SkipBreak(0, "");
    assert Break(0) + "" == "\n";
  }
}
