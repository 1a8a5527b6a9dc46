/** History cursors: a position printed as JSON and sent as unpadded base64url text. */
module CursorCodec {
  import opened Wrappers
  import opened JsonText
  import opened History

  type Byte = b: int | 0 <= b < 256

  // ---------- Base64url (sections 3.2 and 5 of RFC 4648) ----------

  function Symbol(v: int): char
    requires 0 <= v < 64
  {
    if v < 26 then 'A' + v as char
    else if v < 52 then 'a' + (v - 26) as char
    else if v < 62 then '0' + (v - 52) as char
    else if v == 62 then '-'
    else '_'
  }

  function Value(c: char): (v: Option<int>)
    ensures v.Some? ==> 0 <= v.value < 64
  {
    if 'A' <= c <= 'Z' then Some(c as int - 'A' as int)
    else if 'a' <= c <= 'z' then Some(c as int - 'a' as int + 26)
    else if '0' <= c <= '9' then Some(c as int - '0' as int + 52)
    else if c == '-' then Some(62)
    else if c == '_' then Some(63)
    else None
  }

  /** The test vectors of section 10 of RFC 4648, and one with both symbols of the URL alphabet
      (section 5). */
  lemma TestVectors()
    ensures Encode([]) == "" && Encode([102]) == "Zg==" && Encode([102, 111]) == "Zm8=" && Encode([102, 111, 111]) == "Zm9v"
    ensures Encode([102, 111, 111, 98]) == "Zm9vYg==" && Encode([102, 111, 111, 98, 97]) == "Zm9vYmE="
    ensures Encode([102, 111, 111, 98, 97, 114]) == "Zm9vYmFy"
    ensures Encode([251, 255, 254]) == "-__-"
  {
    hide Unpadded;
    FirstThree();
    LastThree();
  }

  lemma LastThree()
    ensures Unpadded([]) == "" && Unpadded([102]) == "Zg" && Unpadded([102, 111]) == "Zm8" && Unpadded([102, 111, 111]) == "Zm9v"
    ensures Unpadded([102, 111, 111, 98]) == "Zm9vYg" && Unpadded([102, 111, 111, 98, 97]) == "Zm9vYmE"
    ensures Unpadded([102, 111, 111, 98, 97, 114]) == "Zm9vYmFy" && Unpadded([251, 255, 254]) == "-__-"
  {
    FirstThree();
    assert [102, 111, 111][3..] == [] && [251, 255, 254][3..] == [];
    assert [102, 111, 111, 98][3..] == [98] && [102, 111, 111, 98, 97][3..] == [98, 97];
    assert [102, 111, 111, 98, 97, 114][3..] == [98, 97, 114];
  }

  lemma FirstThree()
    ensures Unpadded([98]) == "Yg" && Unpadded([98, 97]) == "YmE" && Unpadded([98, 97, 114]) == "YmFy"
  {
    assert [98, 97, 114][3..] == [];
  }

  lemma SymbolRoundTrip(v: int)
    requires 0 <= v < 64
    ensures Value(Symbol(v)) == Some(v) && Symbol(v) != '='
  {}

  /** Text without its padding. */
  function Unpadded(bytes: seq<Byte>): string {
    if bytes == [] then ""
    else if |bytes| == 1 then
      [Symbol(bytes[0] / 4), Symbol(bytes[0] % 4 * 16)]
    else if |bytes| == 2 then
      [Symbol(bytes[0] / 4), Symbol(bytes[0] % 4 * 16 + bytes[1] / 16), Symbol(bytes[1] % 16 * 4)]
    else
      [Symbol(bytes[0] / 4), Symbol(bytes[0] % 4 * 16 + bytes[1] / 16),
       Symbol(bytes[1] % 16 * 4 + bytes[2] / 64), Symbol(bytes[2] % 64)]
      + Unpadded(bytes[3..])
  }

  function Padding(length: nat): string {
    match length % 4
    case 0 => ""
    case 1 => "==="
    case 2 => "=="
    case _ => "="
  }

  function Encode(bytes: seq<Byte>): string {
    Unpadded(bytes) + Padding(|Unpadded(bytes)|)
  }

  /** `rstrip("=")` */
  function StripPadding(s: string): string {
    if s != "" && s[|s| - 1] == '=' then StripPadding(s[..|s| - 1]) else s
  }

  function Quantum(a: int, b: int, c: int, d: int): seq<Byte>
    requires 0 <= a < 64 && 0 <= b < 64 && 0 <= c < 64 && 0 <= d < 64
  {
    [a * 4 + b / 16, b % 16 * 16 + c / 4, c % 4 * 64 + d]
  }

  function Decode(s: string): Option<seq<Byte>> {
    if s == "" then Some([])
    else if |s| < 4 then None
    else if |s| == 4 && s[3] == '=' then
      match (Value(s[0]), Value(s[1]))
      case (Some(a), Some(b)) =>
        if s[2] == '=' then Some(Quantum(a, b, 0, 0)[..1])
        else if Value(s[2]).None? then None
        else Some(Quantum(a, b, Value(s[2]).value, 0)[..2])
      case _ => None
    else
      match (Value(s[0]), Value(s[1]), Value(s[2]), Value(s[3]), Decode(s[4..]))
      case (Some(a), Some(b), Some(c), Some(d), Some(rest)) => Some(Quantum(a, b, c, d) + rest)
      case _ => None
  }

  lemma {:induction false} UnpaddedHasNoPadding(bytes: seq<Byte>)
    ensures forall i | 0 <= i < |Unpadded(bytes)| :: Unpadded(bytes)[i] != '='
    ensures |Unpadded(bytes)| % 4 != 1
  {
    hide Symbol;
    forall v | 0 <= v < 64 ensures Symbol(v) != '=' {
      SymbolRoundTrip(v);
    }
    if |bytes| > 2 {
      UnpaddedHasNoPadding(bytes[3..]);
      UnpaddedThree(bytes);
    }
  }

  lemma {:induction false} StripRemovesPadding(s: string, padding: string)
    requires forall i | 0 <= i < |s| :: s[i] != '='
    requires forall i | 0 <= i < |padding| :: padding[i] == '='
    ensures StripPadding(s + padding) == s
  {
    if padding == "" {
      assert s + padding == s;
    } else {
      assert (s + padding)[..|s| + |padding| - 1] == s + padding[..|padding| - 1];
      StripRemovesPadding(s, padding[..|padding| - 1]);
    }
  }

  lemma QuantumRoundTrip(a: Byte, b: Byte, c: Byte)
    ensures Quantum(a / 4, a % 4 * 16 + b / 16, b % 16 * 4 + c / 64, c % 64) == [a, b, c]
  {}

  lemma DecodeOne(a: Byte)
    ensures Decode([Symbol(a / 4), Symbol(a % 4 * 16), '=', '=']) == Some([a])
  {
    hide Symbol, Value;
    SymbolRoundTrip(a / 4);
    SymbolRoundTrip(a % 4 * 16);
    assert Quantum(a / 4, a % 4 * 16, 0, 0)[..1] == [a];
  }

  lemma DecodeTwo(a: Byte, b: Byte)
    ensures Decode([Symbol(a / 4), Symbol(a % 4 * 16 + b / 16), Symbol(b % 16 * 4), '=']) == Some([a, b])
  {
    hide Symbol, Value;
    SymbolRoundTrip(a / 4);
    SymbolRoundTrip(a % 4 * 16 + b / 16);
    SymbolRoundTrip(b % 16 * 4);
    QuantumRoundTrip(a, b, 0);
    hide Quantum;
    assert Quantum(a / 4, a % 4 * 16 + b / 16, b % 16 * 4, 0)[..2] == [a, b];
  }

  lemma DecodeThree(a: Byte, b: Byte, c: Byte, rest: string)
    requires Decode(rest).Some?
    ensures Decode([Symbol(a / 4), Symbol(a % 4 * 16 + b / 16), Symbol(b % 16 * 4 + c / 64), Symbol(c % 64)] + rest) ==
            Some([a, b, c] + Decode(rest).value)
  {
    hide Symbol, Value, Quantum;
    SymbolRoundTrip(a / 4);
    SymbolRoundTrip(a % 4 * 16 + b / 16);
    SymbolRoundTrip(b % 16 * 4 + c / 64);
    SymbolRoundTrip(c % 64);
    QuantumRoundTrip(a, b, c);
    var head := [Symbol(a / 4), Symbol(a % 4 * 16 + b / 16), Symbol(b % 16 * 4 + c / 64), Symbol(c % 64)];
    assert (head + rest)[4..] == rest && (head + rest)[..4] == head;
  }

  lemma UnpaddedThree(bytes: seq<Byte>)
    requires |bytes| > 2
    ensures Unpadded(bytes) ==
      [Symbol(bytes[0] / 4), Symbol(bytes[0] % 4 * 16 + bytes[1] / 16),
       Symbol(bytes[1] % 16 * 4 + bytes[2] / 64), Symbol(bytes[2] % 64)] + Unpadded(bytes[3..])
  {
    hide Symbol;
  }

  lemma {:induction false} DecodeUnpadded(bytes: seq<Byte>)
    ensures Decode(Unpadded(bytes) + Padding(|Unpadded(bytes)|)) == Some(bytes)
  {
    hide Symbol, Decode;
    if bytes == [] {
      DecodeEmpty();
    } else if |bytes| == 1 {
      DecodeOne(bytes[0]);
      assert |Unpadded(bytes)| == 2 && Padding(2) == "==";
      assert Unpadded(bytes) + Padding(|Unpadded(bytes)|) == [Symbol(bytes[0] / 4), Symbol(bytes[0] % 4 * 16), '=', '='];
      assert bytes == [bytes[0]];
    } else if |bytes| == 2 {
      DecodeTwo(bytes[0], bytes[1]);
      assert |Unpadded(bytes)| == 3 && Padding(3) == "=";
      assert Unpadded(bytes) + Padding(|Unpadded(bytes)|) ==
        [Symbol(bytes[0] / 4), Symbol(bytes[0] % 4 * 16 + bytes[1] / 16), Symbol(bytes[1] % 16 * 4), '='];
      assert bytes == [bytes[0], bytes[1]];
    } else {
      DecodeMore(bytes);
      DecodeUnpadded(bytes[3..]);
      assert bytes == [bytes[0], bytes[1], bytes[2]] + bytes[3..];
    }
  }

  lemma DecodeEmpty()
    ensures Decode("") == Some([])
  {}

  lemma DecodeMore(bytes: seq<Byte>)
    requires |bytes| > 2
    ensures var rest := Unpadded(bytes[3..]) + Padding(|Unpadded(bytes[3..])|);
      Decode(rest).Some? ==>
        Decode(Unpadded(bytes) + Padding(|Unpadded(bytes)|)) == Some([bytes[0], bytes[1], bytes[2]] + Decode(rest).value)
  {
    UnpaddedThree(bytes);
    hide Symbol, Decode, Unpadded, Padding;
    var rest := Unpadded(bytes[3..]);
    var tail := rest + Padding(|rest|);
    PaddingRepeats(|rest|);
    var head := [Symbol(bytes[0] / 4), Symbol(bytes[0] % 4 * 16 + bytes[1] / 16),
                 Symbol(bytes[1] % 16 * 4 + bytes[2] / 64), Symbol(bytes[2] % 64)];
    assert Unpadded(bytes) + Padding(|Unpadded(bytes)|) == head + tail;
    if Decode(tail).Some? {
      DecodeThree(bytes[0], bytes[1], bytes[2], tail);
    }
  }

  lemma PaddingRepeats(n: nat)
    ensures Padding(4 + n) == Padding(n)
  {}

  /** Stripping the padding loses nothing: decoding restores it from the length. */
  lemma Base64RoundTrip(bytes: seq<Byte>)
    ensures var sent := StripPadding(Encode(bytes));
            sent == Unpadded(bytes) && Decode(sent + Padding(|sent|)) == Some(bytes)
  {
    UnpaddedHasNoPadding(bytes);
    StripRemovesPadding(Unpadded(bytes), Padding(|Unpadded(bytes)|));
    DecodeUnpadded(bytes);
  }

  // ---------- The payload ----------

  predicate Ascii(s: string) {
    forall i | 0 <= i < |s| :: s[i] < '\U{80}'
  }

  predicate PlainAscii(s: string) {
    forall i | 0 <= i < |s| :: ' ' <= s[i] < '\U{80}' && s[i] != '\"' && s[i] != '\\'
  }

  function BytesOf(s: string): seq<Byte>
    requires Ascii(s)
  {
    seq(|s|, i requires 0 <= i < |s| => s[i] as int)
  }

  function TextOf(bytes: seq<Byte>): Option<string> {
    if exists i | 0 <= i < |bytes| :: bytes[i] >= 128 then None
    else Some(seq(|bytes|, i requires 0 <= i < |bytes| && bytes[i] < 128 => bytes[i] as char))
  }

  /** Printing and reading of timestamps and ids. */
  datatype Formats = Formats(
    printTime: int -> string, readTime: string -> Option<int>, readId: string -> Option<string>)
  {
    /** Printed times are plain and read back. */
    ghost predicate Sound() {
      forall t :: PlainAscii(printTime(t)) && readTime(printTime(t)) == Some(t)
    }

    /** An id in its canonical form reads back as itself. */
    predicate Canonical(id: string) {
      PlainAscii(id) && readId(id) == Some(id)
    }
  }

  function Payload(time: string, id: string): Json {
    Object([Member("accepted_at", Text(time)), Member("job_id", Text(id))])
  }

  const HEAD: string := "{\"accepted_at\":\""
  const MIDDLE: string := "\",\"job_id\":\""
  const TAIL: string := "\"}"

  /** The text before the first quote, or all of it. */
  function UntilQuote(s: string): string {
    if s == "" || s[0] == '\"' then "" else [s[0]] + UntilQuote(s[1..])
  }

  function After(s: string, prefix: string): Option<string> {
    if |prefix| <= |s| && s[..|prefix|] == prefix then Some(s[|prefix|..]) else None
  }

  /** Read a compact payload whose two texts need no escapes. */
  function ReadPayload(s: string): Option<(string, string)> {
    match After(s, HEAD)
    case None => None
    case Some(rest) =>
      var time := UntilQuote(rest);
      match After(rest, time + MIDDLE)
      case None => None
      case Some(last) =>
        var id := UntilQuote(last);
        if last == id + TAIL then Some((time, id)) else None
  }

  function EncodeCursor(c: Cursor, f: Formats): string
    requires PlainAscii(f.printTime(c.time)) && PlainAscii(c.id)
  {
    var text := Print(Payload(f.printTime(c.time), c.id));
    PayloadText(f.printTime(c.time), c.id);
    StripPadding(Encode(BytesOf(text)))
  }

  /** No result stands for the error of an invalid cursor. */
  function DecodeCursor(cursor: string, f: Formats): Option<Cursor> {
    match Decode(cursor + Padding(|cursor|))
    case None => None
    case Some(bytes) =>
      match TextOf(bytes)
      case None => None
      case Some(text) =>
        match ReadPayload(text)
        case None => None
        case Some((time, id)) =>
          match (f.readTime(time), f.readId(id))
          case (Some(t), Some(canonical)) => Some(Cursor(t, canonical))
          case _ => None
  }

  lemma {:induction false} PlainIsNotEscaped(s: string)
    requires PlainAscii(s)
    ensures Escape(s) == s
  {
    if s != "" {
      PlainIsNotEscaped(s[1..]);
    }
  }

  lemma PayloadText(time: string, id: string)
    requires PlainAscii(time) && PlainAscii(id)
    ensures Print(Payload(time, id)) == HEAD + time + MIDDLE + id + TAIL && Ascii(Print(Payload(time, id)))
  {
    hide Escape, Print;
    PlainQuote(time);
    PlainQuote(id);
    MemberNames();
    PrintText(time);
    PrintText(id);
    TwoParts(Payload(time, id).members[0], Payload(time, id).members[1]);
    hide Quote;
    assert Payload(time, id).members == [Payload(time, id).members[0], Payload(time, id).members[1]];
    assert Print(Payload(time, id)) == HEAD + time + MIDDLE + id + TAIL;
  }

  lemma MemberNames()
    ensures "{" + Quote("accepted_at") + ":" + "\"" == HEAD
    ensures "\"" + "," + Quote("job_id") + ":" + "\"" == MIDDLE
  {
    hide Quote;
    PlainQuote("accepted_at");
    PlainQuote("job_id");
  }

  lemma PlainQuote(s: string)
    requires PlainAscii(s)
    ensures Quote(s) == "\"" + s + "\""
  {
    PlainIsNotEscaped(s);
  }

  lemma PrintText(s: string)
    ensures Print(Text(s)) == Quote(s)
  {
    hide Quote;
  }

  lemma TwoParts(a: Member, b: Member)
    ensures Print(Object([a, b])) ==
            "{" + (Quote(a.name) + ":" + Print(a.value)) + "," + (Quote(b.name) + ":" + Print(b.value)) + "}"
  {
    hide Quote;
    var parts := PrintMembers([a, b]);
    JoinAppend([parts[0]], parts[1]);
    assert [parts[0]] + [parts[1]] == parts;
  }

  lemma {:induction false} UntilQuoteStops(s: string, rest: string)
    requires PlainAscii(s) && rest != "" && rest[0] == '\"'
    ensures UntilQuote(s + rest) == s
  {
    if s == "" {
      assert s + rest == rest;
    } else {
      assert (s + rest)[1..] == s[1..] + rest;
      UntilQuoteStops(s[1..], rest);
    }
  }

  lemma PayloadRoundTrip(time: string, id: string)
    requires PlainAscii(time) && PlainAscii(id)
    ensures ReadPayload(HEAD + time + MIDDLE + id + TAIL) == Some((time, id))
  {
    var text := HEAD + time + MIDDLE + id + TAIL;
    var rest := time + (MIDDLE + id + TAIL);
    assert text[|HEAD|..] == rest && text[..|HEAD|] == HEAD;
    UntilQuoteStops(time, MIDDLE + id + TAIL);
    var last := id + TAIL;
    assert rest[..|time + MIDDLE|] == time + MIDDLE && rest[|time + MIDDLE|..] == last;
    UntilQuoteStops(id, TAIL);
  }

  lemma TextRoundTrip(s: string)
    requires Ascii(s)
    ensures TextOf(BytesOf(s)) == Some(s)
  {
    assert TextOf(BytesOf(s)).Some? && TextOf(BytesOf(s)).value == s;
  }

  /** A cursor that was handed out decodes to the position it stands for. */
  lemma CursorRoundTrip(c: Cursor, f: Formats)
    requires f.Sound() && f.Canonical(c.id)
    ensures DecodeCursor(EncodeCursor(c, f), f) == Some(c)
  {
    var time := f.printTime(c.time);
    PayloadText(time, c.id);
    var text := Print(Payload(time, c.id));
    Base64RoundTrip(BytesOf(text));
    TextRoundTrip(text);
    PayloadRoundTrip(time, c.id);
    hide Print, Encode, StripPadding, Decode, Unpadded, BytesOf, TextOf, ReadPayload, Padding, PlainAscii;
  }

  // ---------- Which texts are read ----------

  /** Whole quanta of symbols, of which the last may end in one or two padding characters. */
  predicate Padded(s: string) {
    && |s| % 4 == 0
    && (forall i | 0 <= i < |s| - 2 :: Value(s[i]).Some?)
    && (s != "" ==>
          && (Value(s[|s| - 2]).Some? || (s[|s| - 2] == '=' && s[|s| - 1] == '='))
          && (Value(s[|s| - 1]).Some? || s[|s| - 1] == '='))
  }

  /** Exactly such texts are decoded: three bytes for each quantum, less one for each padding character. */
  lemma {:induction false} DecodedExactly(s: string)
    ensures Decode(s).Some? <==> Padded(s)
    ensures Decode(s).Some? ==>
      |Decode(s).value| == |s| / 4 * 3 - (if s == "" || s[|s| - 1] != '=' then 0 else if s[|s| - 2] != '=' then 1 else 2)
  {
    PaddingIsNoSymbol();
    hide Value;
    if |s| > 4 {
      DecodedExactly(s[4..]);
      PaddedNext(s);
    }
  }

  lemma PaddingIsNoSymbol()
    ensures Value('=').None?
  {}

  lemma PaddedNext(s: string)
    requires |s| > 4
    ensures Padded(s) <==> Padded(s[4..]) && s[4..] != "" && forall i | 0 <= i < 4 :: Value(s[i]).Some?
  {
    hide Value;
    var rest := s[4..];
    assert forall i | 0 <= i < |rest| :: rest[i] == s[i + 4];
    if Padded(s) {
      assert |s| >= 8;
    }
    if Padded(rest) && forall i | 0 <= i < 4 :: Value(s[i]).Some? {
      forall i | 0 <= i < |s| - 2 ensures Value(s[i]).Some? {
        if i >= 4 {
          assert rest[i - 4] == s[i];
        }
      }
    }
  }

  predicate Quoteless(s: string) {
    forall i | 0 <= i < |s| :: s[i] != '\"'
  }

  lemma {:induction false} UntilQuoteIs(s: string)
    ensures Quoteless(UntilQuote(s)) && UntilQuote(s) <= s
  {
    if s != "" && s[0] != '\"' {
      UntilQuoteIs(s[1..]);
    }
  }

  lemma {:induction false} QuoteEnds(s: string, rest: string)
    requires Quoteless(s) && rest != "" && rest[0] == '\"'
    ensures UntilQuote(s + rest) == s
  {
    if s == "" {
      assert s + rest == rest;
    } else {
      assert (s + rest)[1..] == s[1..] + rest;
      QuoteEnds(s[1..], rest);
    }
  }

  /** A payload is read exactly when it has the two texts between the fixed parts. */
  lemma PayloadExactly(s: string, time: string, id: string)
    ensures ReadPayload(s) == Some((time, id)) <==> s == HEAD + time + MIDDLE + id + TAIL && Quoteless(time) && Quoteless(id)
  {
    hide UntilQuote;
    if s == HEAD + time + MIDDLE + id + TAIL && Quoteless(time) && Quoteless(id) {
      var rest := time + (MIDDLE + id + TAIL);
      assert s[|HEAD|..] == rest && s[..|HEAD|] == HEAD;
      QuoteEnds(time, MIDDLE + id + TAIL);
      var last := id + TAIL;
      assert rest[..|time + MIDDLE|] == time + MIDDLE && rest[|time + MIDDLE|..] == last;
      QuoteEnds(id, TAIL);
    }
    if ReadPayload(s) == Some((time, id)) {
      var rest := After(s, HEAD).value;
      UntilQuoteIs(rest);
      var last := After(rest, time + MIDDLE).value;
      UntilQuoteIs(last);
      assert s == HEAD + rest && rest == time + MIDDLE + last;
    }
  }
}
