/** JSON values and `json.dumps(..., ensure_ascii=False)` as a printer on them. */
module Json {
  import opened Text

  /** An object keeps its members in the insertion order of the source's dictionary. */
  type Member = (string, Json)

  datatype Json =
    | JNull
    | JBool(b: bool)
    | JInt(n: int)
    | JStr(s: string)
    | JArr(items: seq<Json>)
    | JObj(members: seq<Member>)

  /** The two separator settings the repository uses: `(",", ":")` and the default `(", ", ": ")`. */
  datatype Format = Compact | Spaced {
    function Item(): string { if Compact? then "," else ", " }
    function Key(): string { if Compact? then ":" else ": " }
  }

  /** Section 7 of RFC 8259 with `ensure_ascii=False`: only quote, backslash and control characters are escaped. */
  function EscapeChar(c: char): (r: string)
    ensures |r| > 0
  {
    if c == '\"' then "\\\""
    else if c == '\\' then "\\\\"
    else if c == '\n' then "\\n"
    else if c == '\r' then "\\r"
    else if c == '\t' then "\\t"
    else if c == 8 as char then "\\b"
    else if c == 12 as char then "\\f"
    else if c < ' ' then ['\\', 'u', '0', '0', HexChar(c as int / 16), HexChar(c as int % 16)]
    else [c]
  }

  function Escape(s: string): string {
    if s == "" then "" else EscapeChar(s[0]) + Escape(s[1..])
  }

  function Quote(s: string): (r: string)
  {
    "\"" + Escape(s) + "\""
  }

  function PrintInt(n: int): (s: string)
    ensures |s| > 0
  {
    if n < 0 then "-" + Decimal(-n) else Decimal(n)
  }

  function Print(v: Json, f: Format): (s: string)
    ensures |s| > 0
    decreases v, 1
  {
    match v
    case JNull => "null"
    case JBool(b) => if b then "true" else "false"
    case JInt(n) => PrintInt(n)
    case JStr(s) => Quote(s)
    case JArr(items) => "[" + PrintItems(items, f) + "]"
    case JObj(members) => "{" + PrintMembers(members, f) + "}"
  }

  function PrintItems(items: seq<Json>, f: Format): string
    decreases items, 0
  {
    if items == [] then ""
    else if |items| == 1 then Print(items[0], f)
    else Print(items[0], f) + f.Item() + PrintItems(items[1..], f)
  }

  function PrintMember(m: Member, f: Format): (s: string)
    ensures |s| > 0
    decreases m, 2
  {
    Quote(m.0) + f.Key() + Print(m.1, f)
  }

  function PrintMembers(members: seq<Member>, f: Format): string
    decreases members, 0
  {
    if members == [] then ""
    else if |members| == 1 then PrintMember(members[0], f)
    else PrintMember(members[0], f) + f.Item() + PrintMembers(members[1..], f)
  }
}
