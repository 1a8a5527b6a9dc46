/** JSON values and their compact text, as the data models print themselves. */
module JsonText {
  import opened Wrappers

  datatype Json =
    | Null
    | Boolean(truth: bool)
    | Number(digits: string)
    | Text(text: string)
    | List(items: seq<Json>)
    | Object(members: seq<Member>)

  datatype Member = Member(name: string, value: Json)

  // ---------- Printing ----------

  const HEX: string := "0123456789abcdef"

  function EscapeChar(c: char): string {
    if c == '\"' then "\\\""
    else if c == '\\' then "\\\\"
    else if c == '\U{8}' then "\\b"
    else if c == '\t' then "\\t"
    else if c == '\n' then "\\n"
    else if c == '\U{c}' then "\\f"
    else if c == '\r' then "\\r"
    else if c < ' ' then "\\u00" + [HEX[c as int / 16], HEX[c as int % 16]]
    else [c]
  }

  function Escape(s: string): string {
    if s == "" then "" else EscapeChar(s[0]) + Escape(s[1..])
  }

  function Quote(s: string): string {
    "\"" + Escape(s) + "\""
  }

  /** The parts with one comma between neighbours. */
  function Join(parts: seq<string>): string {
    if parts == [] then ""
    else if |parts| == 1 then parts[0]
    else parts[0] + "," + Join(parts[1..])
  }

  function Print(j: Json): string
    decreases j, 0
  {
    match j
    case Null => "null"
    case Boolean(truth) => if truth then "true" else "false"
    case Number(digits) => digits
    case Text(text) => Quote(text)
    case List(items) => "[" + Join(PrintAll(items)) + "]"
    case Object(members) => "{" + Join(PrintMembers(members)) + "}"
  }

  function PrintAll(items: seq<Json>): (parts: seq<string>)
    ensures |parts| == |items|
    ensures forall i | 0 <= i < |items| :: parts[i] == Print(items[i])
    decreases items, 1
  {
    if items == [] then [] else [Print(items[0])] + PrintAll(items[1..])
  }

  function PrintMembers(members: seq<Member>): (parts: seq<string>)
    ensures |parts| == |members|
    ensures forall i | 0 <= i < |members| :: parts[i] == Quote(members[i].name) + ":" + Print(members[i].value)
    decreases members, 1
  {
    if members == [] then []
    else [Quote(members[0].name) + ":" + Print(members[0].value)] + PrintMembers(members[1..])
  }

  // ---------- Lengths ----------

  /** The length of a printed list, counted one element at a time. */
  function JoinedLength(parts: seq<string>): nat {
    if parts == [] then 0
    else
      var earlier := parts[..|parts| - 1];
      JoinedLength(earlier) + |parts[|parts| - 1]| + (if earlier == [] then 0 else 1)
  }

  lemma {:induction false} JoinAppend(parts: seq<string>, last: string)
    ensures Join(parts + [last]) == if parts == [] then last else Join(parts) + "," + last
  {
    if |parts| == 1 {
      assert (parts + [last])[1..] == [last];
    } else if parts != [] {
      assert (parts + [last])[1..] == parts[1..] + [last];
      JoinAppend(parts[1..], last);
    }
  }

  /** Counting element by element gives the length of the whole text. */
  lemma {:induction false} JoinLength(parts: seq<string>)
    ensures |Join(parts)| == JoinedLength(parts)
  {
    if parts != [] {
      var earlier := parts[..|parts| - 1];
      assert earlier + [parts[|parts| - 1]] == parts;
      JoinAppend(earlier, parts[|parts| - 1]);
      JoinLength(earlier);
    }
  }

  predicate Printable(s: string) {
    forall i | 0 <= i < |s| :: s[i] >= ' '
  }

  /** Without control characters, escaping at most doubles a text. */
  lemma {:induction false} EscapeAtMostDoubles(s: string)
    requires Printable(s)
    ensures |Escape(s)| <= 2 * |s|
  {
    if s != "" {
      EscapeAtMostDoubles(s[1..]);
    }
  }

  // ---------- Escaping loses nothing (section 7 of RFC 8259) ----------

  function HexValue(c: char): Option<int> {
    if '0' <= c <= '9' then Some(c as int - '0' as int)
    else if 'a' <= c <= 'f' then Some(c as int - 'a' as int + 10)
    else None
  }

  /** The first character of an escaped text, and how many characters stand for it. */
  function Unescaped(s: string): Option<(char, nat)> {
    if s == "" || s[0] < ' ' || s[0] == '\"' then None
    else if s[0] != '\\' then Some((s[0], 1))
    else if |s| < 2 then None
    else
      match s[1]
      case '\"' => Some(('\"', 2))
      case '\\' => Some(('\\', 2))
      case 'b' => Some(('\U{8}', 2))
      case 't' => Some(('\t', 2))
      case 'n' => Some(('\n', 2))
      case 'f' => Some(('\U{c}', 2))
      case 'r' => Some(('\r', 2))
      case 'u' =>
        if |s| < 6 || s[2] != '0' || s[3] != '0' then None
        else
          (match (HexValue(s[4]), HexValue(s[5]))
           case (Some(high), Some(low)) => Some(((16 * high + low) as char, 6))
           case _ => None)
      case _ => None
  }

  /** The text that an escaped text stands for, as far as it can be read. */
  function Unescape(s: string): Option<string>
    decreases |s|
  {
    if s == "" then Some("")
    else
      match Unescaped(s)
      case None => None
      case Some((c, n)) =>
        if n == 0 || n > |s| then None
        else
          match Unescape(s[n..])
          case None => None
          case Some(rest) => Some([c] + rest)
  }

  lemma EscapedChar(c: char, rest: string)
    ensures Unescaped(EscapeChar(c) + rest) == Some((c, |EscapeChar(c)|)) && |EscapeChar(c)| >= 1
  {
    var e := EscapeChar(c);
    if c < ' ' {
      HexDigits(c as int);
      assert |e| == 2 || (|e| == 6 && e[..4] == "\\u00");
      assert |e| == 6 ==> e[4] == HEX[c as int / 16] && e[5] == HEX[c as int % 16] && (e + rest)[..6] == e;
    }
    assert (e + rest)[0] == e[0] && (|e| >= 2 ==> (e + rest)[1] == e[1]);
  }

  lemma HexDigits(v: int)
    requires 0 <= v < 32
    ensures HexValue(HEX[v / 16]) == Some(v / 16) && HexValue(HEX[v % 16]) == Some(v % 16)
  {
    assert forall d | 0 <= d < 16 :: HexValue(HEX[d]) == Some(d);
  }

  /** Reading an escaped text gives the text back; so different texts are printed differently. */
  lemma {:induction false} EscapeRoundTrip(s: string)
    ensures Unescape(Escape(s)) == Some(s)
  {
    hide EscapeChar, Unescaped;
    if s != "" {
      var first, rest := EscapeChar(s[0]), Escape(s[1..]);
      EscapedChar(s[0], rest);
      EscapeRoundTrip(s[1..]);
      var t := first + rest;
      assert Escape(s) == t && t[|first|..] == rest && s == [s[0]] + s[1..];
      assert Unescape(t) == Some([s[0]] + s[1..]);
    }
  }
}
