/** The server-sent event stream: how the gateway frames events and how observers take them apart. */
module EventStream {
  import opened Wrappers
  import opened Text
  import opened Json
  import opened JsonParser
  import opened Canonical

  // ---------------------------------------------------------------- the gateway's side

  /** One event of the stream: its id, its type and its JSON with sorted keys and default separators. */
  datatype Frame = Frame(id: nat, value: Json)

  function DataText(f: Frame): string {
    Print(Normalize(f.value), Spaced)
  }

  function FrameBlock(f: Frame): string {
    "id: " + Decimal(f.id) + ("\n" + ("event: live_event" + ("\n" + ("data: " + DataText(f)))))
  }

  function Frames(fs: seq<Frame>): string {
    if fs == [] then "" else FrameBlock(fs[0]) + ("\n\n" + Frames(fs[1..]))
  }

  function StreamBody(fs: seq<Frame>): string {
    if fs == [] then ": keepalive" + "\n\n" else Frames(fs)
  }

  // ---------------------------------------------------------------- the observer's side

  /** `str.replace("\r\n", "\n")`. */
  function ReplaceCrLf(s: string): string {
    if |s| < 2 then s
    else if s[0] == '\r' && s[1] == '\n' then "\n" + ReplaceCrLf(s[2..])
    else [s[0]] + ReplaceCrLf(s[1..])
  }

  /** Where the first empty line starts, or the length of the text. */
  function FindBlank(s: string): (n: nat)
    ensures n <= |s| && (n < |s| ==> n + 2 <= |s|)
  {
    if |s| < 2 then |s|
    else if s[0] == '\n' && s[1] == '\n' then 0
    else 1 + FindBlank(s[1..])
  }

  /** `str.split("\n\n")`. */
  function SplitBlocks(s: string): seq<string>
    decreases |s|
  {
    var n := FindBlank(s);
    if n == |s| then [s] else [s[..n]] + SplitBlocks(s[n + 2..])
  }

  /** The characters `str.splitlines` ends a line at. */
  predicate IsLineBreak(c: char) {
    c == '\n' || c == '\r' || 0x0b <= c as int <= 0x0c || 0x1c <= c as int <= 0x1e || IsUnescapedBreak(c)
  }

  /** Those that the JSON printer leaves as they are. */
  predicate IsUnescapedBreak(c: char) {
    c as int == 0x85 || c as int == 0x2028 || c as int == 0x2029
  }

  function FindBreak(s: string): (n: nat)
    ensures n <= |s|
    ensures forall i | 0 <= i < n :: !IsLineBreak(s[i])
    ensures n < |s| ==> IsLineBreak(s[n])
  {
    if s == "" || IsLineBreak(s[0]) then 0 else 1 + FindBreak(s[1..])
  }

  /** `str.splitlines`. */
  function SplitLines(s: string): seq<string>
    decreases |s|
  {
    if s == "" then []
    else
      var n := FindBreak(s);
      if n == |s| then [s]
      else
        var width := if s[n] == '\r' && n + 1 < |s| && s[n + 1] == '\n' then 2 else 1;
        [s[..n]] + SplitLines(s[n + width..])
  }

  function DataOf(lines: seq<string>): seq<string> {
    if lines == [] then []
    else (if "data: " <= lines[0] then [lines[0][6..]] else []) + DataOf(lines[1..])
  }

  function JoinLines(parts: seq<string>): string {
    if parts == [] then "" else if |parts| == 1 then parts[0] else parts[0] + ("\n" + JoinLines(parts[1..]))
  }

  /** The values of the blocks that carry data; `None` when one of them is not JSON. */
  function BlockValues(blocks: seq<string>): Option<seq<Json>> {
    if blocks == [] then Some([])
    else
      var data := DataOf(SplitLines(blocks[0]));
      var rest := BlockValues(blocks[1..]);
      if data == [] then rest
      else
        var v := Loads(JoinLines(data));
        if v.None? || rest.None? then None else Some([v.value] + rest.value)
  }

  /** `_sse_events`. */
  function SseEvents(body: string): Option<seq<Json>> {
    BlockValues(SplitBlocks(ReplaceCrLf(body)))
  }

  // ---------------------------------------------------------------- what the printer can emit

  /** No control character. */
  predicate Plain(s: string) {
    forall i | 0 <= i < |s| :: s[i] >= ' '
  }

  lemma {:induction false} DecimalIsPlain(n: nat)
    ensures Plain(Decimal(n))
  {
    assert forall i | 0 <= i < |Decimal(n)| :: IsDigit(Decimal(n)[i]);
  }

  lemma EscapeCharIsPlain(c: char)
    ensures Plain(EscapeChar(c))
  {
    if c < ' ' && |EscapeChar(c)| == 6 {
      HexCharRoundTrip(c as int / 16);
      HexCharRoundTrip(c as int % 16);
    }
  }

  lemma {:induction false} EscapeIsPlain(s: string)
    ensures Plain(Escape(s))
  {
    if s != "" {
      EscapeCharIsPlain(s[0]);
      EscapeIsPlain(s[1..]);
    }
  }

  lemma {:induction false} PrintIsPlain(v: Json, f: Format)
    ensures Plain(Print(v, f))
    decreases v, 1
  {
    match v {
      case JInt(n) => DecimalIsPlain(if n < 0 then -n else n);
      case JStr(s) => EscapeIsPlain(s);
      case JArr(items) => ItemsArePlain(items, f);
      case JObj(members) => MembersArePlain(members, f);
      case _ =>
    }
  }

  lemma {:induction false} ItemsArePlain(items: seq<Json>, f: Format)
    ensures Plain(PrintItems(items, f))
    decreases items, 0
  {
    if items != [] {
      PrintIsPlain(items[0], f);
      ItemsArePlain(items[1..], f);
    }
  }

  lemma {:induction false} MemberIsPlain(m: Member, f: Format)
    ensures Plain(PrintMember(m, f))
    decreases m, 2
  {
    EscapeIsPlain(m.0);
    PrintIsPlain(m.1, f);
  }

  lemma {:induction false} MembersArePlain(members: seq<Member>, f: Format)
    ensures Plain(PrintMembers(members, f))
    decreases members, 0
  {
    if members != [] {
      MemberIsPlain(members[0], f);
      MembersArePlain(members[1..], f);
    }
  }

  // ---------------------------------------------------------------- a text cut inside a string is not JSON

  /** What can follow the cut: nothing, or a control character. */
  predicate CutTail(c: string) {
    c == "" || c[0] < ' '
  }

  predicate RawAt(s: string, k: nat) {
    k < |s| && s[k] as int >= 0x80
  }

  lemma EscapeCharRaw(c: char, k: nat)
    requires RawAt(EscapeChar(c), k)
    ensures k == 0 && EscapeChar(c) == [c] && c as int >= 0x80
  {
    if c < ' ' && |EscapeChar(c)| == 6 {
      HexCharRoundTrip(c as int / 16);
      HexCharRoundTrip(c as int % 16);
    }
  }

  /** An escaped character does not make a text readable that is not. */
  lemma EscapedNotRead(c: char, tail: string)
    requires ParseString(tail).None?
    ensures ParseString(EscapeChar(c) + tail).None?
  {
    var e := EscapeChar(c);
    var text := e + tail;
    assert text[0] == e[0];
    if e[0] == '\\' {
      UnescapeUndoes(c, tail);
    } else {
      PlainEscape(c);
      assert text[1..] == tail;
    }
  }

  lemma PlainEscape(c: char)
    requires EscapeChar(c)[0] != '\\'
    ensures EscapeChar(c) == [c] && c != '\"'
  {
  }

  lemma CutSplits(e: string, rest: string, k: nat, c: string)
    requires k < |e + rest|
    ensures k < |e| ==> (e + rest)[k] == e[k]
    ensures k >= |e| ==> (e + rest)[..k] + c == e + (rest[..k - |e|] + c) && (e + rest)[k] == rest[k - |e|]
    ensures k == 0 ==> (e + rest)[..k] + c == c
  {
  }

  lemma {:induction false} StringCut(s: string, k: nat, c: string)
    requires RawAt(Escape(s), k) && CutTail(c)
    ensures ParseString(Escape(s)[..k] + c).None?
  {
    var e, rest := EscapeChar(s[0]), Escape(s[1..]);
    CutSplits(e, rest, k, c);
    if k < |e| {
      EscapeCharRaw(s[0], k);
    } else {
      StringCut(s[1..], k - |e|, c);
      EscapedNotRead(s[0], rest[..k - |e|] + c);
    }
  }

  lemma InsideQuotes(e: string, k: nat, c: string)
    requires RawAt("\"" + e + "\"", k)
    ensures 0 < k <= |e| && RawAt(e, k - 1)
    ensures var text := ("\"" + e + "\"")[..k] + c;
            text != "" && text[0] == '\"' && text[1..] == e[..k - 1] + c
  {
    assert ("\"" + e + "\"")[k] == (e + "\"")[k - 1];
  }

  lemma QuoteCut(s: string, k: nat, c: string)
    requires RawAt(Quote(s), k) && CutTail(c)
    ensures var text := Quote(s)[..k] + c;
            text != "" && text[0] == '\"' && ParseString(text[1..]).None?
  {
    var e := Escape(s);
    InsideQuotes(e, k, c);
    StringCut(s, k - 1, c);
  }

  lemma {:induction false} DecimalNotRaw(n: int, k: nat)
    ensures !RawAt(PrintInt(n), k)
  {
    var d := Decimal(if n < 0 then -n else n);
    assert forall i | 0 <= i < |d| :: IsDigit(d[i]);
  }

  lemma {:induction false} ValueCut(v: Json, f: Format, k: nat, c: string)
    requires RawAt(Print(v, f), k) && CutTail(c)
    ensures ParseValue(Print(v, f)[..k] + c).None?
    decreases v, 1
  {
    match v {
      case JInt(n) => DecimalNotRaw(n, k);
      case JStr(s) =>
        QuoteCut(s, k, c);
        LiteralStart(Quote(s)[..k] + c);
      case JArr(items) => ArrayCut(items, f, k, c);
      case JObj(members) => ObjectCut(members, f, k, c);
      case _ =>
    }
  }

  lemma ListCut(start: string, body: string, end: string, k: nat, c: string)
    requires |start| == 1 && start[0] as int < 0x80 && |end| == 1 && end[0] as int < 0x80
    requires RawAt(start + body + end, k)
    ensures 0 < k && RawAt(body, k - 1)
    ensures (start + body + end)[..k] + c == start + (body[..k - 1] + c)
  {
  }

  lemma BadArray(s: string)
    requires SkipSpace(s) == s && (s == "" || s[0] != ']') && ParseItems(s).None?
    ensures ParseValue("[" + s).None?
  {
    LiteralStart("[" + s);
    assert ("[" + s)[1..] == s;
  }

  lemma BadObject(s: string)
    requires SkipSpace(s) == s && (s == "" || s[0] != '}') && ParseMembers(s).None?
    ensures ParseValue("{" + s).None?
  {
    LiteralStart("{" + s);
    assert ("{" + s)[1..] == s;
  }

  /** The first character of printed text survives a later cut. */
  lemma CutStart(s: string, k: nat, c: string)
    requires PlainStart(s) && RawAt(s, k) && s[0] as int < 0x80
    ensures k > 0 && PlainStart(s[..k] + c) && SkipSpace(s[..k] + c) == s[..k] + c
  {
  }

  lemma PrintStartsAscii(v: Json, f: Format)
    ensures Print(v, f)[0] as int < 0x80
  {
    if v.JInt? {
      assert v.n >= 0 ==> IsDigit(PrintInt(v.n)[0]);
    }
  }

  lemma {:induction false} ArrayCut(items: seq<Json>, f: Format, k: nat, c: string)
    requires RawAt("[" + PrintItems(items, f) + "]", k) && CutTail(c)
    ensures ParseValue(("[" + PrintItems(items, f) + "]")[..k] + c).None?
    decreases items, 1
  {
    var body := PrintItems(items, f);
    ListCut("[", body, "]", k, c);
    ItemsStart(items, f);
    PrintStartsAscii(items[0], f);
    CutStart(body, k - 1, c);
    ItemsCut(items, f, k - 1, c);
    BadArray(body[..k - 1] + c);
  }

  lemma {:induction false} ObjectCut(members: seq<Member>, f: Format, k: nat, c: string)
    requires RawAt("{" + PrintMembers(members, f) + "}", k) && CutTail(c)
    ensures ParseValue(("{" + PrintMembers(members, f) + "}")[..k] + c).None?
    decreases members, 3
  {
    var body := PrintMembers(members, f);
    ListCut("{", body, "}", k, c);
    MembersStart(members, f);
    assert PrintMember(members[0], f)[0] == '\"';
    CutStart(body, k - 1, c);
    MembersCut(members, f, k - 1, c);
    BadObject(body[..k - 1] + c);
  }

  /** Where a cut falls in `first + sep + more`, and what is left of the text. */
  lemma SeparatedCut(first: string, sep: string, more: string, k: nat, c: string)
    requires RawAt(first + sep + more, k) && forall i | 0 <= i < |sep| :: sep[i] as int < 0x80
    ensures k < |first| ==> RawAt(first, k) && (first + sep + more)[..k] + c == first[..k] + c
    ensures k >= |first| ==> k >= |first| + |sep| && RawAt(more, k - |first| - |sep|)
    ensures k >= |first| ==>
              (first + sep + more)[..k] + c == first + (sep + (more[..k - |first| - |sep|] + c))
  {
  }

  lemma ItemsStopAfterBadValue(s: string)
    requires ParseValue(s).None?
    ensures ParseItems(s).None?
  {
  }

  lemma ItemsStopAfterBadRest(s: string, v: Json, tail: string, u: string)
    requires ParseValue(s) == Some((v, tail)) && SkipSpace(tail) == tail && tail != "" && tail[0] == ','
    requires SkipSpace(tail[1..]) == u && ParseItems(u).None?
    ensures ParseItems(s).None?
  {
  }

  lemma {:induction false} ItemsCut(items: seq<Json>, f: Format, k: nat, c: string)
    requires items != [] && RawAt(PrintItems(items, f), k) && CutTail(c)
    ensures ParseItems(PrintItems(items, f)[..k] + c).None?
    decreases items, 0
  {
    var first := Print(items[0], f);
    if |items| == 1 {
      ValueCut(items[0], f, k, c);
      ItemsStopAfterBadValue(first[..k] + c);
    } else {
      var more := PrintItems(items[1..], f);
      SeparatedCut(first, f.Item(), more, k, c);
      if k < |first| {
        ValueCut(items[0], f, k, c);
        ItemsStopAfterBadValue(first[..k] + c);
      } else {
        var j := k - |first| - |f.Item()|;
        ItemsStart(items[1..], f);
        PrintStartsAscii(items[1], f);
        CutStart(more, j, c);
        ItemSeparator(f, more[..j] + c, "");
        assert more[..j] + c + "" == more[..j] + c;
        var tail := f.Item() + (more[..j] + c);
        ValueUndone(items[0], f, tail);
        ItemsCut(items[1..], f, j, c);
        ItemsStopAfterBadRest(first + tail, items[0], tail, more[..j] + c);
      }
    }
  }

  lemma {:induction false} MemberCut(m: Member, f: Format, k: nat, c: string)
    requires RawAt(PrintMember(m, f), k) && CutTail(c)
    ensures ParseMember(PrintMember(m, f)[..k] + c).None?
    decreases m, 2
  {
    var key, value := Quote(m.0), Print(m.1, f);
    SeparatedCut(key, f.Key(), value, k, c);
    if k < |key| {
      QuoteCut(m.0, k, c);
    } else {
      var j := k - |key| - |f.Key()|;
      PrintStart(m.1, f);
      PrintStartsAscii(m.1, f);
      CutStart(value, j, c);
      ItemSeparator(f, value[..j] + c, "");
      assert value[..j] + c + "" == value[..j] + c;
      var tail := f.Key() + (value[..j] + c);
      QuoteUndone(m.0, tail);
      ValueCut(m.1, f, j, c);
    }
  }

  lemma MembersStopAfterBadMember(s: string)
    requires ParseMember(s).None?
    ensures ParseMembers(s).None?
  {
  }

  lemma MembersStopAfterBadRest(s: string, m: Member, tail: string, u: string)
    requires ParseMember(s) == Some((m, tail)) && SkipSpace(tail) == tail && tail != "" && tail[0] == ','
    requires SkipSpace(tail[1..]) == u && ParseMembers(u).None?
    ensures ParseMembers(s).None?
  {
  }

  lemma {:induction false} MembersCut(members: seq<Member>, f: Format, k: nat, c: string)
    requires members != [] && RawAt(PrintMembers(members, f), k) && CutTail(c)
    ensures ParseMembers(PrintMembers(members, f)[..k] + c).None?
    decreases members, 2
  {
    var first := PrintMember(members[0], f);
    if |members| == 1 {
      MemberCut(members[0], f, k, c);
      MembersStopAfterBadMember(first[..k] + c);
    } else {
      var more := PrintMembers(members[1..], f);
      SeparatedCut(first, f.Item(), more, k, c);
      if k < |first| {
        MemberCut(members[0], f, k, c);
        MembersStopAfterBadMember(first[..k] + c);
      } else {
        var j := k - |first| - |f.Item()|;
        MembersStart(members[1..], f);
        assert PrintMember(members[1], f)[0] == '\"';
        CutStart(more, j, c);
        ItemSeparator(f, more[..j] + c, "");
        assert more[..j] + c + "" == more[..j] + c;
        var tail := f.Item() + (more[..j] + c);
        MemberUndone(members[0], f, tail);
        MembersCut(members[1..], f, j, c);
        MembersStopAfterBadRest(first + tail, members[0], tail, more[..j] + c);
      }
    }
  }

  /** Text cut before a raw character, and continued with nothing or a control character, is refused. */
  lemma CutTextRefused(v: Json, f: Format, k: nat, c: string)
    requires RawAt(Print(v, f), k) && CutTail(c)
    ensures Loads(Print(v, f)[..k] + c).None?
  {
    PrintStart(v, f);
    PrintStartsAscii(v, f);
    CutStart(Print(v, f), k, c);
    ValueCut(v, f, k, c);
  }

  // ---------------------------------------------------------------- taking the body apart

  lemma {:induction false} NoCrLf(s: string)
    requires forall i | 0 <= i < |s| :: s[i] != '\r'
    ensures ReplaceCrLf(s) == s
  {
    if |s| >= 2 {
      NoCrLf(s[1..]);
    }
  }

  lemma {:induction false} BlankAfterLine(line: string, rest: string)
    requires Plain(line) && |rest| >= 2
    ensures FindBlank(line + rest) == |line| + FindBlank(rest)
  {
    if line == "" {
      assert line + rest == rest;
    } else {
      BlankAfterLine(line[1..], rest);
      assert (line + rest)[1..] == line[1..] + rest;
    }
  }

  lemma BlankAfterBreak(line: string, rest: string)
    requires Plain(line) && line != ""
    ensures FindBlank("\n" + (line + rest)) == 1 + FindBlank(line + rest)
  {
    assert ("\n" + (line + rest))[1..] == line + rest;
  }

  lemma BreakAndLine(line: string, rest: string)
    requires Plain(line) && line != "" && |rest| >= 2
    ensures FindBlank("\n" + (line + rest)) == 1 + |line| + FindBlank(rest)
  {
    BlankAfterLine(line, rest);
    BlankAfterBreak(line, rest);
  }

  lemma TwoLinesEnd(b: string, d: string, rest: string)
    requires Plain(b) && Plain(d) && b != "" && d != "" && |rest| >= 2
    ensures FindBlank("\n" + (b + ("\n" + (d + rest)))) == 1 + |b| + 1 + |d| + FindBlank(rest)
  {
    BreakAndLine(d, rest);
    BreakAndLine(b, "\n" + (d + rest));
  }

  lemma LinesJoin(a: string, b: string, d: string, rest: string)
    ensures a + ("\n" + (b + ("\n" + d))) + rest == a + ("\n" + (b + ("\n" + (d + rest))))
    ensures |a + ("\n" + (b + ("\n" + d)))| == |a| + 1 + |b| + 1 + |d|
  {
  }

  lemma FirstLine(a: string, t: string, n: nat)
    requires Plain(a) && |t| >= 2 && FindBlank(t) == n
    ensures FindBlank(a + t) == |a| + n
  {
    BlankAfterLine(a, t);
  }

  lemma BlockEnds(f: Frame, rest: string)
    ensures FindBlank(FrameBlock(f) + ("\n\n" + rest)) == |FrameBlock(f)|
  {
    var a, b, d := "id: " + Decimal(f.id), "event: live_event", "data: " + DataText(f);
    DecimalIsPlain(f.id);
    PrintIsPlain(Normalize(f.value), Spaced);
    ThreeLinesEnd(a, b, d, "\n\n" + rest);
  }

  lemma ThreeLinesEnd(a: string, b: string, d: string, rest: string)
    requires Plain(a) && Plain(b) && Plain(d) && b != "" && d != ""
    requires |rest| >= 2 && FindBlank(rest) == 0
    ensures FindBlank(a + ("\n" + (b + ("\n" + d))) + rest) == |a + ("\n" + (b + ("\n" + d)))|
  {
    LinesJoin(a, b, d, rest);
    TwoLinesEnd(b, d, rest);
    FirstLine(a, "\n" + (b + ("\n" + (d + rest))), 2 + |b| + |d|);
  }

  lemma BlockSplits(block: string, rest: string)
    requires FindBlank(block + ("\n\n" + rest)) == |block|
    ensures SplitBlocks(block + ("\n\n" + rest)) == [block] + SplitBlocks(rest)
  {
    var text := block + ("\n\n" + rest);
    assert text[..|block|] == block && text[|block| + 2..] == rest;
  }

  lemma {:induction false} BlocksOfFrames(fs: seq<Frame>)
    ensures SplitBlocks(Frames(fs)) == Blocks(fs) + [""]
  {
    if fs == [] {
      assert Blocks(fs) + [""] == [""];
    } else {
      var rest := Frames(fs[1..]);
      BlockEnds(fs[0], rest);
      BlockSplits(FrameBlock(fs[0]), rest);
      BlocksOfFrames(fs[1..]);
      assert [FrameBlock(fs[0])] + (Blocks(fs[1..]) + [""]) == Blocks(fs) + [""];
    }
  }

  function Blocks(fs: seq<Frame>): seq<string> {
    if fs == [] then [] else [FrameBlock(fs[0])] + Blocks(fs[1..])
  }

  predicate Unbroken(s: string) {
    forall i | 0 <= i < |s| :: !IsLineBreak(s[i])
  }

  lemma {:induction false} BreakAfterLine(line: string, rest: string)
    requires Unbroken(line) && rest != "" && IsLineBreak(rest[0])
    ensures FindBreak(line + rest) == |line|
  {
    if line == "" {
      assert line + rest == rest;
    } else {
      BreakAfterLine(line[1..], rest);
      assert (line + rest)[1..] == line[1..] + rest;
    }
  }

  lemma LinesAfterLine(line: string, b: char, rest: string)
    requires Unbroken(line) && IsLineBreak(b) && b != '\r'
    ensures SplitLines(line + ([b] + rest)) == [line] + SplitLines(rest)
  {
    BreakAfterLine(line, [b] + rest);
    var text := line + ([b] + rest);
    assert text[..|line|] == line && text[|line| + 1..] == rest && text[|line|] == b;
  }

  lemma {:induction false} DataOfConcat(a: string, lines: seq<string>)
    ensures DataOf([a] + lines) == (if "data: " <= a then [a[6..]] else []) + DataOf(lines)
  {
    assert ([a] + lines)[1..] == lines;
  }

  /** The data part of a frame, given how its last line splits. */
  lemma FrameData(f: Frame)
    ensures DataOf(SplitLines(FrameBlock(f))) == DataOf(SplitLines("data: " + DataText(f)))
  {
    var a, b, d := "id: " + Decimal(f.id), "event: live_event", "data: " + DataText(f);
    assert forall i | 0 <= i < |Decimal(f.id)| :: IsDigit(Decimal(f.id)[i]);
    assert Unbroken(a) && Unbroken(b);
    LinesAfterLine(b, '\n', d);
    LinesAfterLine(a, '\n', b + ("\n" + d));
    assert FrameBlock(f) == a + (['\n'] + (b + (['\n'] + d)));
    DataOfConcat(b, SplitLines(d));
    DataOfConcat(a, [b] + SplitLines(d));
    assert a[0] == 'i' && b[0] == 'e';
    assert !("data: " <= a) && !("data: " <= b);
    assert DataOf([b] + SplitLines(d)) == DataOf(SplitLines(d));
  }

  /** A text the stream can carry. */
  predicate Carried(s: string) {
    forall i | 0 <= i < |s| :: !IsUnescapedBreak(s[i])
  }

  lemma CarriedData(text: string)
    requires Plain(text) && Carried(text)
    ensures DataOf(SplitLines("data: " + text)) == [text]
  {
    var d := "data: " + text;
    assert Unbroken(d);
    assert FindBreak(d) == |d|;
    assert SplitLines(d) == [d];
    DataOfConcat(d, []);
    assert [d] + [] == [d] && d[..6] == "data: " && d[6..] == text;
  }

  lemma JoinStarts(first: string, rest: seq<string>) returns (c: string)
    ensures CutTail(c) && JoinLines([first] + rest) == first + c
  {
    if rest == [] {
      c := "";
      assert [first] + rest == [first];
    } else {
      c := "\n" + JoinLines(rest);
      assert ([first] + rest)[1..] == rest;
    }
  }

  /** A text with one of the three characters arrives cut before the first of them. */
  lemma BrokenData(text: string) returns (k: nat, c: string)
    requires Plain(text) && !Carried(text)
    ensures RawAt(text, k) && CutTail(c)
    ensures DataOf(SplitLines("data: " + text)) != []
    ensures JoinLines(DataOf(SplitLines("data: " + text))) == text[..k] + c
  {
    k := FindBreak(text);
    var i :| 0 <= i < |text| && IsUnescapedBreak(text[i]);
    assert k < |text| && IsUnescapedBreak(text[k]) && RawAt(text, k);
    var line := "data: " + text[..k];
    assert "data: " + text == line + ([text[k]] + text[k + 1..]);
    LinesAfterLine(line, text[k], text[k + 1..]);
    DataOfConcat(line, SplitLines(text[k + 1..]));
    assert line[..6] == "data: " && line[6..] == text[..k];
    c := JoinStarts(text[..k], DataOf(SplitLines(text[k + 1..])));
  }

  /** What the observer makes of one frame. */
  lemma FrameArrives(f: Frame)
    ensures var data := DataOf(SplitLines(FrameBlock(f)));
            && data != []
            && Loads(JoinLines(data)) == if Carried(DataText(f)) then Some(Normalize(f.value)) else None
  {
    FrameData(f);
    PrintIsPlain(Normalize(f.value), Spaced);
    if Carried(DataText(f)) {
      CarriedData(DataText(f));
      LoadsUndoesPrint(Normalize(f.value), Spaced);
    } else {
      var k, c := BrokenData(DataText(f));
      CutTextRefused(Normalize(f.value), Spaced, k, c);
    }
  }

  function Values(fs: seq<Frame>): seq<Json> {
    if fs == [] then [] else [Normalize(fs[0].value)] + Values(fs[1..])
  }

  lemma BlockWithData(block: string, rest: seq<string>, v: Option<Json>, vs: Option<seq<Json>>)
    requires DataOf(SplitLines(block)) != [] && Loads(JoinLines(DataOf(SplitLines(block)))) == v
    requires BlockValues(rest) == vs
    ensures BlockValues([block] + rest) == if v.None? || vs.None? then None else Some([v.value] + vs.value)
  {
    assert ([block] + rest)[1..] == rest;
  }

  lemma BlockWithoutData(block: string, rest: seq<string>)
    requires DataOf(SplitLines(block)) == []
    ensures BlockValues([block] + rest) == BlockValues(rest)
  {
    assert ([block] + rest)[1..] == rest;
  }

  lemma LastBlock()
    ensures BlockValues([""]) == Some([])
  {
    assert SplitLines("") == [];
    BlockWithoutData("", []);
    assert [""] + [] == [""];
  }

  predicate AllCarried(fs: seq<Frame>) {
    forall f | f in fs :: Carried(DataText(f))
  }

  lemma {:induction false} BlocksArrive(fs: seq<Frame>)
    ensures BlockValues(Blocks(fs) + [""]) == if AllCarried(fs) then Some(Values(fs)) else None
  {
    if fs == [] {
      LastBlock();
      assert Blocks(fs) + [""] == [""];
    } else {
      var rest := Blocks(fs[1..]) + [""];
      FrameArrives(fs[0]);
      BlocksArrive(fs[1..]);
      BlockWithData(FrameBlock(fs[0]), rest, if Carried(DataText(fs[0])) then Some(Normalize(fs[0].value)) else None,
                    if AllCarried(fs[1..]) then Some(Values(fs[1..])) else None);
      assert Blocks(fs) + [""] == [FrameBlock(fs[0])] + rest;
      assert fs == [fs[0]] + fs[1..];
    }
  }

  lemma {:induction false} FramesHaveNoCr(fs: seq<Frame>)
    ensures forall i | 0 <= i < |Frames(fs)| :: Frames(fs)[i] != '\r'
  {
    if fs != [] {
      var d := "data: " + DataText(fs[0]);
      DecimalIsPlain(fs[0].id);
      PrintIsPlain(Normalize(fs[0].value), Spaced);
      assert Plain(d);
      FramesHaveNoCr(fs[1..]);
    }
  }

  lemma OneLineBlocks(line: string)
    requires Plain(line)
    ensures SplitBlocks(ReplaceCrLf(line + "\n\n")) == [line] + [""]
  {
    NoCrLf(line + "\n\n");
    assert line + "\n\n" == line + ("\n\n" + "");
    BlankAfterLine(line, "\n\n" + "");
    BlockSplits(line, "");
  }

  lemma OneLineBody(line: string)
    requires Plain(line) && DataOf(SplitLines(line)) == []
    ensures SseEvents(line + "\n\n") == Some([])
  {
    OneLineBlocks(line);
    BlockWithoutData(line, [""]);
    LastBlock();
  }

  lemma KeepaliveIsEmpty(line: string)
    requires line == ": keepalive"
    ensures SseEvents(line + "\n\n") == Some([])
  {
    KeepalivePlain(line);
    KeepaliveLine(line);
    OneLineBody(line);
  }

  lemma KeepalivePlain(line: string)
    requires line == ": keepalive"
    ensures Plain(line)
  {
  }

  lemma KeepaliveLine(line: string)
    requires line == ": keepalive"
    ensures DataOf(SplitLines(line)) == []
  {
    assert FindBreak(line) == |line|;
    assert SplitLines(line) == [line];
    DataOfConcat(line, []);
    assert [line] + [] == [line] && line[0] == ':';
    assert !("data: " <= line);
  }

  /** The stream round trip, exactly: the observer gets back the events that were sent, in order, if and
      only if none of their JSON texts contains U+0085, U+2028 or U+2029. With one of those characters
      the whole response is refused. */
  lemma StreamRoundTrip(fs: seq<Frame>)
    ensures SseEvents(StreamBody(fs)) == if AllCarried(fs) then Some(Values(fs)) else None
  {
    if fs == [] {
      var line := ": keepalive";
      KeepaliveIsEmpty(line);
    } else {
      FramesHaveNoCr(fs);
      NoCrLf(Frames(fs));
      BlocksOfFrames(fs);
      BlocksArrive(fs);
    }
  }
}
