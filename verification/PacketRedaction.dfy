/** Text cleaning on ASCII text, and an input for which redaction after truncation makes the whole
    packet fail. */
module PacketRedaction {
  import opened Wrappers
  import opened JsonText
  import opened EvidencePacket
  import opened PacketContents

  predicate Blank(c: char) {
    c == ' ' || '\t' <= c <= '\r' || '\U{1c}' <= c <= '\U{1f}'
  }

  predicate Dropped(c: char) {
    (c < ' ' && c != '\t' && c != '\r' && c != '\n') || c == '\U{7f}'
  }

  /** Words separated by one blank; other control characters are dropped. */
  function Squeeze(s: string): (r: string)
    ensures |r| <= |s| && Printable(r)
    ensures r != "" ==> r[0] != ' '
  {
    if s == "" then ""
    else
      var rest := Squeeze(s[1..]);
      if Dropped(s[0]) || Blank(s[0]) then rest
      else if rest == "" then [s[0]]
      else if BlankNext(s[1..]) then [s[0], ' '] + rest
      else [s[0]] + rest
  }

  /** The next character that is not dropped is a blank. */
  predicate BlankNext(s: string) {
    s != "" && (if Dropped(s[0]) then BlankNext(s[1..]) else Blank(s[0]))
  }

  function Structural(s: string, max: nat): Option<string> {
    var clean := Squeeze(s);
    if clean == "" then None else Some(if |clean| <= max then clean else clean[..max])
  }

  const MARK: string := "[redacted contact]"

  predicate Letter(c: char) {
    'a' <= c <= 'z' || 'A' <= c <= 'Z'
  }

  predicate AddressAt(w: string, at: nat, dot: nat) {
    && 0 < at && at + 1 < dot && dot + 2 < |w|
    && w[at] == '@' && w[dot] == '.'
    && (forall i | 0 <= i < |w| && i != at :: w[i] != '@')
    && (forall i | dot < i < |w| :: Letter(w[i]))
  }

  /** A word with one `@` inside and at least two letters behind its last dot. */
  predicate IsAddress(w: string) {
    exists at, dot | 0 <= at < |w| && 0 <= dot < |w| :: AddressAt(w, at, dot)
  }

  function FirstBlank(t: string): (k: nat)
    ensures k <= |t| && (k < |t| ==> t[k] == ' ')
  {
    if t == "" || t[0] == ' ' then 0 else 1 + FirstBlank(t[1..])
  }

  function RedactWord(w: string): (r: string)
    ensures Printable(w) ==> Printable(r)
  {
    assert Printable(MARK);
    if IsAddress(w) then MARK else w
  }

  /** Each word that is an address is replaced. */
  function Redact(t: string): string {
    var k := FirstBlank(t);
    if k == |t| then RedactWord(t) else RedactWord(t[..k]) + " " + Redact(t[k + 1..])
  }

  function SameText(s: string): Option<string> {
    Some(s)
  }

  function SameFields(j: Json): Json {
    j
  }

  /** The cleaning of ASCII texts whose words are addresses or nothing to redact. */
  const Ascii: Cleaner := Cleaner(SameText, SameText, Structural, Redact, SameFields)

  lemma {:induction false} RedactIsPrintable(t: string)
    requires Printable(t)
    ensures Printable(Redact(t))
  {
    hide RedactWord, IsAddress, FirstBlank;
    var k := FirstBlank(t);
    if k < |t| {
      RedactIsPrintable(t[k + 1..]);
    }
  }

  lemma AsciiIsSound()
    ensures Ascii.Sound()
  {
    hide Redact, Squeeze;
    forall t | Printable(t)
      ensures Printable(Redact(t))
    {
      RedactIsPrintable(t);
    }
  }

  /** `count` words `x`, each with a blank behind it, and then `last`. */
  function Padded(count: nat, last: string): (r: string)
    ensures |r| == 2 * count + |last|
  {
    if count == 0 then last else "x " + Padded(count - 1, last)
  }

  lemma {:induction false} SqueezePadded(count: nat, last: string)
    requires Squeeze(last) == last && last != ""
    ensures Squeeze(Padded(count, last)) == Padded(count, last)
  {
    if count > 0 {
      var rest := Padded(count - 1, last);
      SqueezePadded(count - 1, last);
      assert ("x " + rest)[1..] == " " + rest && (" " + rest)[1..] == rest;
      assert Squeeze(" " + rest) == rest;
    }
  }

  lemma {:induction false} RedactPadded(count: nat, last: string)
    ensures Redact(Padded(count, last)) == Padded(count, Redact(last))
  {
    hide Redact;
    if count > 0 {
      RedactPadded(count - 1, last);
      RedactNext(Padded(count - 1, last));
    }
  }

  lemma RedactNext(rest: string)
    ensures Redact("x " + rest) == "x " + Redact(rest)
  {
    hide RedactWord, FirstBlank;
    PaddedWord(rest);
    LetterWord();
    assert "x" + " " + Redact(rest) == "x " + Redact(rest);
  }

  lemma PaddedWord(rest: string)
    ensures FirstBlank("x " + rest) == 1 && ("x " + rest)[..1] == "x" && ("x " + rest)[2..] == rest
  {
    assert ("x " + rest)[1..] == " " + rest;
  }

  lemma LetterWord()
    ensures RedactWord("x") == "x"
  {
    assert !IsAddress("x");
  }

  const ADDRESS: string := "a@b.co"

  lemma AddressFacts()
    ensures Squeeze(ADDRESS) == ADDRESS && Redact(ADDRESS) == MARK
  {
    hide Squeeze, Redact, FirstBlank, IsAddress;
    NothingSqueezed();
    assert ADDRESS == ['a'] + "@b.co" && "@b.co" == ['@'] + "b.co" && "b.co" == ['b'] + ".co" && ".co" == ['.'] + "co" && "co" == ['c'] + "o";
    assert "o" == ['o'] + "";
    SqueezeNext('o', "");
    SqueezeNext('c', "o");
    SqueezeNext('.', "co");
    SqueezeNext('b', ".co");
    SqueezeNext('@', "b.co");
    SqueezeNext('a', "@b.co");
    AddressIsOne();
    RedactOne(ADDRESS);
  }

  lemma AddressIsOne()
    ensures IsAddress(ADDRESS)
  {
    assert AddressAt(ADDRESS, 1, 3);
  }

  lemma NothingSqueezed()
    ensures Squeeze("") == ""
  {}

  lemma SqueezeNext(c: char, s: string)
    requires Squeeze(s) == s && !Dropped(c) && !Blank(c) && (s == "" || (!Dropped(s[0]) && !Blank(s[0])))
    ensures Squeeze([c] + s) == [c] + s
  {
    assert ([c] + s)[1..] == s;
  }

  lemma RedactOne(w: string)
    requires IsAddress(w) && forall i | 0 <= i < |w| :: w[i] != ' '
    ensures Redact(w) == MARK
  {
    hide IsAddress;
  }

  /** A title of exactly 240 characters that ends in an address. */
  const LongTitle: string := Padded(117, ADDRESS)

  const LongSource: SourceInput := SourceInput("s1", "profile", "primary", "p", LongTitle, "https://p", "e", Null)

  /** The title passes the limit of 240 before redaction and is 252 characters long after it. */
  lemma TitleOverflows()
    ensures |LongTitle| == 240 && Structural(LongTitle, 240) == Some(LongTitle)
    ensures !Bounded(RequiredText(Ascii, LongTitle, 240), 240)
  {
    hide Padded, Squeeze, Redact, ADDRESS, MARK;
    AddressFacts();
    AddressLengths();
    SqueezePadded(117, ADDRESS);
    RedactPadded(117, ADDRESS);
    PaddedIsStripped(117, MARK);
  }

  lemma AddressLengths()
    ensures |ADDRESS| == 6 && |MARK| == 18 && MARK[17] != ' ' && MARK[0] != ' '
  {}

  lemma PaddedIsStripped(count: nat, last: string)
    requires last != "" && last[0] != ' ' && last[|last| - 1] != ' '
    ensures Strip(Padded(count, last)) == Padded(count, last)
  {
    PaddedEnds(count, last);
  }

  lemma {:induction false} PaddedEnds(count: nat, last: string)
    requires last != ""
    ensures Padded(count, last)[|Padded(count, last)| - 1] == last[|last| - 1]
    ensures Padded(count, last)[0] == if count == 0 then last[0] else 'x'
  {
    if count > 0 {
      PaddedEnds(count - 1, last);
    }
  }

  /** With this one source, a packet cannot be built within any limits. */
  lemma LongTitleSpoilsPacket(seed: SeedInput, accounts: seq<AccountInput>, limits: Limits)
    requires limits.Valid()
    ensures Ascii.Sound() && |LongSource.title| == 240
    ensures HasInvalidText(Ascii, seed, [LongSource], accounts, limits)
  {
    hide Squeeze, Redact, Structural, RequiredText, Bounded, SkeletonSize, SanitizeSeed, LongTitle;
    AsciiIsSound();
    TitleOverflows();
    var clean := SanitizeSeed(Ascii, seed);
    if clean.Some? {
      assert [LongSource][..0] == [];
      assert Spoils([LongSource], SourceRule(Ascii), SourceId, SourceSize, limits.maxSources,
                    SkeletonSize(clean.value, false, false), limits.SourceBudget(), 0);
    }
  }

  /** The builder then reports an invalid text instead of shortening it. */
  method BuildWithLongTitle(seed: SeedInput, accounts: seq<AccountInput>, limits: Limits) returns (r: BuildResult)
    requires limits.Valid()
    ensures r == InvalidText
  {
    hide *;
    LongTitleSpoilsPacket(seed, accounts, limits);
    r := BuildPacket(Ascii, seed, [LongSource], accounts, limits);
  }

  // ---------- No address is left ----------

  /** `t[i..j]` is a whole word. */
  predicate Word(t: string, i: nat, j: nat) {
    && i <= j <= |t|
    && (i == 0 || t[i - 1] == ' ') && (j == |t| || t[j] == ' ')
    && forall k | i <= k < j :: t[k] != ' '
  }

  predicate HasAddress(t: string) {
    exists i, j | 0 <= i <= j <= |t| :: Word(t, i, j) && IsAddress(t[i..j])
  }

  lemma ShortIsNoAddress(w: string)
    requires forall k | 0 <= k < |w| :: w[k] != '@'
    ensures !IsAddress(w)
  {}

  lemma MarkHasNoAddress()
    ensures !HasAddress(MARK) && !HasAddress("unknown")
  {
    hide IsAddress, Word;
    forall i, j | 0 <= i <= j <= |MARK| ensures !IsAddress(MARK[i..j]) {
      ShortIsNoAddress(MARK[i..j]);
    }
    forall i, j | 0 <= i <= j <= 7 ensures !IsAddress("unknown"[i..j]) {
      ShortIsNoAddress("unknown"[i..j]);
    }
  }

  lemma OneWord(w: string)
    requires forall k | 0 <= k < |w| :: w[k] != ' '
    ensures !HasAddress(RedactWord(w))
  {
    hide IsAddress;
    MarkHasNoAddress();
    if !IsAddress(w) {
      forall i, j | 0 <= i <= j <= |w| && Word(w, i, j)
        ensures !IsAddress(w[i..j])
      {
        assert i == 0 && j == |w|;
        assert w[0..|w|] == w;
      }
    }
  }

  lemma FirstBlankIsFirst(t: string)
    ensures forall i | 0 <= i < FirstBlank(t) :: t[i] != ' '
  {}

  lemma JoinedWords(left: string, right: string)
    requires !HasAddress(left) && !HasAddress(right)
    ensures !HasAddress(left + " " + right)
  {
    hide IsAddress;
    var t := left + " " + right;
    forall i, j | 0 <= i <= j <= |t| && Word(t, i, j)
      ensures !IsAddress(t[i..j])
    {
      assert t[|left|] == ' ';
      if i <= |left| {
        assert j <= |left|;
        assert t[i..j] == left[i..j];
        assert forall n | 0 <= n < |left| :: t[n] == left[n];
        assert i > 0 ==> left[i - 1] == t[i - 1];
        assert Word(left, i, j);
      } else {
        var k, l := i - |left| - 1, j - |left| - 1;
        assert t[i..j] == right[k..l];
        assert forall n | 0 <= n < |right| :: t[|left| + 1 + n] == right[n];
        assert Word(right, k, l);
      }
    }
  }

  lemma {:induction false} RedactRemovesAddresses(t: string)
    ensures !HasAddress(Redact(t))
  {
    hide HasAddress, RedactWord, FirstBlank;
    var k := FirstBlank(t);
    FirstBlankIsFirst(t);
    OneWord(t[..k]);
    assert k == |t| ==> t[..k] == t;
    if k < |t| {
      RedactRemovesAddresses(t[k + 1..]);
      JoinedWords(RedactWord(t[..k]), Redact(t[k + 1..]));
    }
  }

  /** A word of a part between blanks is a word of the whole. */
  lemma WordOfWhole(t: string, a: nat, b: nat, i: nat, j: nat)
    requires a <= b <= |t| && Word(t[a..b], i, j)
    requires (a == 0 || t[a - 1] == ' ') && (b == |t| || t[b] == ' ')
    ensures Word(t, a + i, a + j) && t[a + i..a + j] == t[a..b][i..j]
  {
    var u := t[a..b];
    forall k | 0 <= k < |u| ensures u[k] == t[a + k] {}
    if i > 0 {
      assert u[i - 1] == t[a + i - 1];
    }
    if j < |u| {
      assert u[j] == t[a + j];
    }
    forall k | a + i <= k < a + j ensures t[k] != ' ' {
      assert u[k - a] == t[k];
    }
  }

  lemma TrimmingAddsNothing(t: string, u: string)
    requires Trimmed(t, u) && !HasAddress(t)
    ensures !HasAddress(u)
  {
    hide IsAddress, Word;
    var a, b :| 0 <= a <= |t| && 0 <= b <= |t| && Inside(t, a, b) && t[a..b] == u;
    forall i, j | 0 <= i <= j <= |u| && Word(u, i, j)
      ensures !IsAddress(u[i..j])
    {
      WordOfWhole(t, a, b, i, j);
    }
  }

  /** Cleaning of ASCII text is redaction in the sense of the packet's guarantee: no packet built
      with it has a word that is an address in any text that is redacted. */
  lemma AsciiRemovesAddresses()
    ensures Ascii.Sound() && Removes(Ascii, HasAddress)
  {
    hide HasAddress, Redact, Trimmed, Structural;
    AsciiIsSound();
    MarkHasNoAddress();
    forall t: string ensures !HasAddress(Redact(t)) {
      RedactRemovesAddresses(t);
    }
    forall t: string, u: string | Trimmed(t, u) && !HasAddress(t) ensures !HasAddress(u) {
      TrimmingAddsNothing(t, u);
    }
  }
}
