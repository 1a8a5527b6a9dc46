/** The seed of a footprint search, as first entered and as entered again by a refresh. */
module SeedNormalization {
  import opened Wrappers
  import opened ProfileUrls

  datatype Kind = PlatformIdentifier | BareHandle | ProfileUrl | UnknownKind

  datatype Seed = Seed(kind: Kind, url: Option<string>, platform: Option<string>, handleType: bool, identifier: Option<string>)

  datatype Normalized = Normalized(
    kind: Kind, platform: Option<string>, identifier: string, normalizedSeed: string, canonicalUrl: Option<string>)

  /** Text functions given from outside: compatibility normalization with stripping, case
      folding, stripping with case folding, and two character classes. */
  datatype Texts = Texts(
    clean: string -> string, fold: string -> string, key: string -> string, blank: char -> bool, control: char -> bool)
  {
    ghost predicate Sound() {
      && (forall s :: clean(clean(s)) == clean(s))
      && (forall s :: clean(s) != "" && NoBlank(clean(s)[1..]) ==> clean(clean(s)[1..]) == clean(s)[1..])
      && (forall s :: fold("@" + s) == "@" + fold(s))
      && (forall c :: HandleChar(c) ==> !blank(c) && !control(c))
      && (forall s :: (forall i | 0 <= i < |s| :: HandleChar(s[i])) ==> clean(s) == s)
      && (forall p: Platform :: key(Name(p)) == Name(p))
      && key("other") == "other"
    }

    predicate NoBlank(s: string) {
      forall i | 0 <= i < |s| :: !blank(s[i])
    }
  }

  function Name(p: Platform): string {
    match p
    case GitHub => "github"
    case Instagram => "instagram"
    case LinkedIn => "linkedin"
    case Reddit => "reddit"
    case TikTok => "tiktok"
    case X => "x"
    case YouTube => "youtube"
  }

  predicate Supported(name: string) {
    name == "other" || exists p: Platform :: name == Name(p)
  }

  function PlatformKey(name: string, x: Texts): string {
    if x.key(name) == "twitter" then "x" else x.key(name)
  }

  predicate Separator(c: char) {
    c == '/' || c == '\\' || c == '?' || c == '#' || c == ':'
  }

  predicate HandleOk(h: string, x: Texts) {
    h != "" && |h| <= 64 && x.NoBlank(h) && forall i | 0 <= i < |h| :: !x.control(h[i]) && !Separator(h[i])
  }

  /** Only one leading `@` is removed. */
  function NormalizeHandle(value: string, x: Texts): Option<string> {
    var clean := x.clean(value);
    var h := if clean != "" && clean[0] == '@' then clean[1..] else clean;
    if HandleOk(h, x) then Some(h) else None
  }

  function SeedText(platform: string, handle: string, x: Texts): string {
    platform + ":handle:" + x.fold(handle)
  }

  /** What a profile address adds: its platform and handle must agree with any that are given. */
  predicate Agrees(s: Seed, t: Target, x: Texts) {
    && (s.platform.Some? ==> PlatformKey(s.platform.value, x) == Name(t.platform))
    && s.handleType
    && (s.identifier.Some? ==>
          && NormalizeHandle(s.identifier.value, x).Some?
          && x.fold(NormalizeHandle(s.identifier.value, x).value) == x.fold(t.handle))
  }

  /** No result stands for a refused seed. */
  function Normalize(s: Seed, x: Texts): Option<Normalized> {
    match s.kind
    case UnknownKind => None
    case ProfileUrl =>
      (match Canonicalize(if s.url.Some? then s.url.value else "")
       case None => None
       case Some(t) =>
         if Agrees(s, t, x) then
           Some(Normalized(ProfileUrl, Some(Name(t.platform)), t.handle, SeedText(Name(t.platform), t.handle, x), Some(t.url)))
         else None)
    case BareHandle => NormalizeText(s, None, x)
    case PlatformIdentifier =>
      var platform := PlatformKey(if s.platform.Some? then s.platform.value else "", x);
      if Supported(platform) then NormalizeText(s, Some(platform), x) else None
  }

  function NormalizeText(s: Seed, platform: Option<string>, x: Texts): Option<Normalized> {
    if !s.handleType then None
    else
      match NormalizeHandle(if s.identifier.Some? then s.identifier.value else "", x)
      case None => None
      case Some(h) =>
        Some(Normalized(s.kind, platform, h, SeedText(if platform.Some? then platform.value else "*", h, x), None))
  }

  /** The seed that a refresh submits for a stored job. */
  function Resubmitted(n: Normalized): Seed {
    Seed(n.kind, n.canonicalUrl, n.platform, true, Some(n.identifier))
  }

  lemma NormalizedTwice(value: string, x: Texts)
    requires x.Sound() && NormalizeHandle(value, x).Some?
    ensures var h := NormalizeHandle(value, x).value;
      && h != "" && x.clean(h) == h
      && (h[0] != '@' ==> NormalizeHandle(h, x) == Some(h))
      && (h[0] == '@' ==> NormalizeHandle(h, x).None? || NormalizeHandle(h, x) == Some(h[1..]))
  {}

  /** The seed texts of a handle and of the same handle without its `@` differ. */
  lemma AtMakesADifference(platform: string, h: string, x: Texts)
    requires x.Sound() && h != "" && h[0] == '@'
    ensures SeedText(platform, h[1..], x) != SeedText(platform, h, x)
  {
    assert h == "@" + h[1..];
    assert |SeedText(platform, h, x)| == |SeedText(platform, h[1..], x)| + 1;
  }

  lemma PlatformStays(name: string, x: Texts)
    requires x.Sound() && Supported(name)
    ensures PlatformKey(name, x) == name
  {
    assert forall p: Platform :: Name(p) != "twitter" by {
      NamesAreNotAliases();
    }
    assert "other"[0] != "twitter"[0];
  }

  lemma NamesAreNotAliases()
    ensures forall p: Platform :: Name(p) != "twitter"
  {
    forall p: Platform
      ensures Name(p) != "twitter"
    {
      assert "twitter"[1] == 'w';
      match p
      case TikTok => assert "tiktok"[1] == 'i';
      case _ =>
    }
  }

  lemma ProfileSeedStays(t: Target, x: Texts)
    requires x.Sound() && CanonicalTarget(t)
    ensures Agrees(Seed(ProfileUrl, Some(t.url), Some(Name(t.platform)), true, Some(t.handle)), t, x)
  {
    hide ValidHandle, Host, PathPrefix, Supported, PlatformKey, NormalizeHandle, Canonicalize;
    HandleChars(t.platform, t.handle);
    NameIsSupported(t.platform);
    PlatformStays(Name(t.platform), x);
    PlainHandleStays(t.handle, x);
  }

  lemma NameIsSupported(p: Platform)
    ensures Supported(Name(p))
  {
    hide Name;
  }

  lemma PlainHandleStays(h: string, x: Texts)
    requires x.Sound() && 0 < |h| <= 64 && forall i | 0 <= i < |h| :: HandleChar(h[i])
    ensures NormalizeHandle(h, x) == Some(h)
  {
    forall i | 0 <= i < |h| ensures !Separator(h[i]) && h[i] != '@' {
      CharFacts(h[i]);
      HandleIsNoSeparator(h[i]);
    }
    hide Separator, HandleChar, Name, PlatformKey;
    assert x.clean(h) == h;
    assert HandleOk(h, x);
  }

  lemma HandleIsNoSeparator(c: char)
    requires HandleChar(c)
    ensures !Separator(c)
  {}

  /** A refresh submits a seed that normalizes to the stored one exactly when the stored handle
      does not itself start with an `@`, or the seed is a profile address. Otherwise the
      refresh is refused or searches for another seed. */
  lemma RefreshKeepsSeed(s: Seed, x: Texts)
    requires x.Sound() && Normalize(s, x).Some?
    ensures var n := Normalize(s, x).value;
      var again := Normalize(Resubmitted(n), x);
      && n.identifier != ""
      && (again == Some(n) <==> n.kind.ProfileUrl? || n.identifier[0] != '@')
      && (again != Some(n) ==> again.None? || again.value.normalizedSeed != n.normalizedSeed)
  {
    if s.kind.ProfileUrl? {
      RefreshKeepsProfile(s, x);
    } else {
      RefreshKeepsHandle(s, x);
    }
    hide *;
  }

  lemma RefreshKeepsProfile(s: Seed, x: Texts)
    requires x.Sound() && Normalize(s, x).Some? && s.kind.ProfileUrl?
    ensures var n := Normalize(s, x).value;
      n.identifier != "" && n.kind.ProfileUrl? && Normalize(Resubmitted(n), x) == Some(n)
  {
    hide Canonicalize, Name, Agrees, SeedText;
    var value := if s.url.Some? then s.url.value else "";
    CanonicalizeIsIdempotent(value);
    ResultIsCanonical(value);
    ProfileSeedStays(Canonicalize(value).value, x);
    HandleNotEmpty(Canonicalize(value).value);
  }

  lemma RefreshKeepsHandle(s: Seed, x: Texts)
    requires x.Sound() && Normalize(s, x).Some? && !s.kind.ProfileUrl?
    ensures var n := Normalize(s, x).value;
      var again := Normalize(Resubmitted(n), x);
      && n.identifier != "" && !n.kind.ProfileUrl?
      && (again == Some(n) <==> n.identifier[0] != '@')
      && (again != Some(n) ==> again.None? || again.value.normalizedSeed != n.normalizedSeed)
  {
    hide Canonicalize, Name, Supported, HandleOk, SeedText, NormalizeHandle, PlatformKey;
    var n := Normalize(s, x).value;
    NormalizedTwice(if s.identifier.Some? then s.identifier.value else "", x);
    if n.platform.Some? {
      PlatformStays(n.platform.value, x);
    }
    if n.identifier[0] == '@' {
      AtMakesADifference(if n.platform.Some? then n.platform.value else "*", n.identifier, x);
    }
  }

  lemma HandleNotEmpty(t: Target)
    requires CanonicalTarget(t)
    ensures t.handle != ""
  {
    HandleChars(t.platform, t.handle);
  }

  // ---------- ASCII text ----------

  function AsciiKey(s: string): string {
    Lower(Strip(s))
  }

  predicate AsciiControl(c: char) {
    c < ' ' || c == '\U{7f}'
  }

  /** The text functions as they act on ASCII text. */
  const Ascii: Texts := Texts(Strip, Lower, AsciiKey, IsSpace, AsciiControl)

  lemma {:induction false} StripEnds(s: string)
    ensures Strip(s) == "" || (!IsSpace(Strip(s)[0]) && !IsSpace(Strip(s)[|Strip(s)| - 1]))
  {
    if s != "" {
      if IsSpace(s[0]) {
        StripEnds(s[1..]);
      } else if IsSpace(s[|s| - 1]) {
        StripEnds(s[..|s| - 1]);
      }
    }
  }

  lemma PlainStays(s: string)
    requires s == "" || (!IsSpace(s[0]) && !IsSpace(s[|s| - 1]))
    ensures Strip(s) == s
  {}

  lemma PlatformKeys(p: Platform)
    ensures AsciiKey(Name(p)) == Name(p)
  {
    var name := Name(p);
    assert forall i | 0 <= i < |name| :: LowerChar(name[i]) == name[i] && !IsSpace(name[i]);
    PlainStays(name);
  }

  lemma OtherKey()
    ensures AsciiKey("other") == "other"
  {
    assert forall i | 0 <= i < 5 :: LowerChar("other"[i]) == "other"[i];
    PlainStays("other");
  }

  lemma AsciiIsSound()
    ensures Ascii.Sound()
  {
    hide Strip, Lower, AsciiKey, Name;
    forall s: string
      ensures Strip(Strip(s)) == Strip(s)
    {
      StripEnds(s);
      PlainStays(Strip(s));
    }
    forall s: string | Strip(s) != "" && Ascii.NoBlank(Strip(s)[1..])
      ensures Strip(Strip(s)[1..]) == Strip(s)[1..]
    {
      PlainStays(Strip(s)[1..]);
    }
    forall s: string
      ensures Lower("@" + s) == "@" + Lower(s)
    {
      LowerAt(s);
    }
    forall s: string | forall i | 0 <= i < |s| :: HandleChar(s[i])
      ensures Strip(s) == s
    {
      PlainStays(s);
    }
    forall p: Platform
      ensures AsciiKey(Name(p)) == Name(p)
    {
      PlatformKeys(p);
    }
    OtherKey();
  }

  lemma LowerAt(s: string)
    ensures Lower("@" + s) == "@" + Lower(s)
  {
    assert ("@" + s)[1..] == s;
  }

  /** The handle `@@ada` is stored as `@ada`, and a refresh then searches for `ada`. */
  lemma RefreshChangesSeed()
    ensures Ascii.Sound()
    ensures var s := Seed(PlatformIdentifier, None, Some("github"), true, Some("@@ada"));
      var n := Normalized(PlatformIdentifier, Some("github"), "@ada", "github:handle:@ada", None);
      && Normalize(s, Ascii) == Some(n)
      && Normalize(Resubmitted(n), Ascii) == Some(n.(identifier := "ada", normalizedSeed := "github:handle:ada"))
  {
    hide Strip, Lower, AsciiKey, Ascii, NormalizeHandle, PlatformKey, Supported, SeedText, Canonicalize;
    AsciiIsSound();
    NameIsSupported(GitHub);
    PlatformStays("github", Ascii);
    NormalizedExample();
    TextExample();
  }

  lemma TextExample()
    ensures SeedText("github", "@ada", Ascii) == "github:handle:@ada" && SeedText("github", "ada", Ascii) == "github:handle:ada"
  {
    hide Lower;
    PlainLower();
    assert "github" + ":handle:" + "@ada" == "github:handle:@ada";
    assert "github" + ":handle:" + "ada" == "github:handle:ada";
  }

  lemma NormalizedExample()
    ensures NormalizeHandle("@@ada", Ascii) == Some("@ada") && NormalizeHandle("@ada", Ascii) == Some("ada")
  {
    hide Strip, HandleOk;
    PlainStays("@@ada");
    PlainStays("@ada");
    HandleAccepted("@ada");
    HandleAccepted("ada");
    assert "@@ada"[1..] == "@ada" && "@ada"[1..] == "ada";
  }

  lemma HandleAccepted(h: string)
    requires h == "@ada" || h == "ada"
    ensures HandleOk(h, Ascii)
  {}

  lemma PlainLower()
    ensures Lower("@ada") == "@ada" && Lower("ada") == "ada"
  {
    assert forall i | 0 <= i < 4 :: LowerChar("@ada"[i]) == "@ada"[i];
    assert forall i | 0 <= i < 3 :: LowerChar("ada"[i]) == "ada"[i];
  }

  // ---------- Which seeds are accepted ----------

  /** The cleaned text is the handle, with or without one `@` before it, and the handle has no
      blank, control or address character. */
  predicate HandleIs(value: string, h: string, x: Texts) {
    && (x.clean(value) == "@" + h || (x.clean(value) == h && (h == "" || h[0] != '@')))
    && 1 <= |h| <= 64
    && forall i | 0 <= i < |h| :: !x.blank(h[i]) && !x.control(h[i]) && h[i] !in {'/', '\\', '?', '#', ':'}
  }

  /** A supported platform under its own name or its alias. */
  predicate PlatformIs(name: string, p: string, x: Texts) {
    && p in {"github", "instagram", "linkedin", "reddit", "tiktok", "x", "youtube", "other"}
    && (x.key(name) == p || (x.key(name) == "twitter" && p == "x"))
  }

  lemma HandleExactly(value: string, h: string, x: Texts)
    ensures NormalizeHandle(value, x) == Some(h) <==> HandleIs(value, h, x)
  {
    var clean := x.clean(value);
    if clean != "" && clean[0] == '@' {
      assert clean == "@" + clean[1..];
    }
    assert clean == "@" + h ==> clean[1..] == h;
  }

  lemma PlatformExactly(name: string, p: string, x: Texts)
    ensures PlatformKey(name, x) == p && Supported(p) <==> PlatformIs(name, p, x)
  {
    SupportedNames(p);
    hide Supported;
    assert "twitter"[1] == 'w' && "tiktok"[1] == 'i' && |"twitter"| == 7;
  }

  lemma SupportedNames(p: string)
    ensures Supported(p) <==> p in {"github", "instagram", "linkedin", "reddit", "tiktok", "x", "youtube", "other"}
  {
    assert Name(GitHub) == "github" && Name(Instagram) == "instagram" && Name(LinkedIn) == "linkedin" && Name(Reddit) == "reddit";
    assert Name(TikTok) == "tiktok" && Name(X) == "x" && Name(YouTube) == "youtube";
  }

  /** The text of an optional column. */
  function Given(text: Option<string>): string {
    if text.None? then "" else text.value
  }

  /** A seed is accepted with exactly this result. The platform and the handle of a profile address
      must not contradict the ones that are given beside it. */
  ghost predicate NormalizedTo(s: Seed, n: Normalized, x: Texts) {
    match s.kind
    case UnknownKind => false
    case BareHandle =>
      && s.handleType && HandleIs(Given(s.identifier), n.identifier, x)
      && n == Normalized(BareHandle, None, n.identifier, "*:handle:" + x.fold(n.identifier), None)
    case PlatformIdentifier =>
      && s.handleType && HandleIs(Given(s.identifier), n.identifier, x)
      && n.platform.Some? && PlatformIs(Given(s.platform), n.platform.value, x)
      && n == Normalized(PlatformIdentifier, n.platform, n.identifier, n.platform.value + ":handle:" + x.fold(n.identifier), None)
    case ProfileUrl =>
      && Canonicalize(Given(s.url)).Some?
      && var t := Canonicalize(Given(s.url)).value;
         && n == Normalized(ProfileUrl, Some(Name(t.platform)), t.handle, Name(t.platform) + ":handle:" + x.fold(t.handle), Some(t.url))
         && s.handleType
         && (s.platform.Some? ==> PlatformIs(s.platform.value, Name(t.platform), x))
         && (s.identifier.Some? ==> exists h :: HandleIs(s.identifier.value, h, x) && x.fold(h) == x.fold(t.handle))
  }

  lemma NormalizeExactly(s: Seed, n: Normalized, x: Texts)
    ensures Normalize(s, x) == Some(n) <==> NormalizedTo(s, n, x)
  {
    hide NormalizeHandle, HandleIs, PlatformIs, Canonicalize, Supported, PlatformKey, Name;
    forall value, h ensures NormalizeHandle(value, x) == Some(h) <==> HandleIs(value, h, x) {
      HandleExactly(value, h, x);
    }
    forall name, p ensures PlatformKey(name, x) == p && Supported(p) <==> PlatformIs(name, p, x) {
      PlatformExactly(name, p, x);
    }
    forall p: Platform ensures Supported(Name(p)) {
      NameIsSupported(p);
    }
    NormalizesTo(s, n, x);
  }

  lemma NormalizesTo(s: Seed, n: Normalized, x: Texts)
    requires forall value, h :: NormalizeHandle(value, x) == Some(h) <==> HandleIs(value, h, x)
    requires forall name, p :: PlatformKey(name, x) == p && Supported(p) <==> PlatformIs(name, p, x)
    requires forall p: Platform :: Supported(Name(p))
    ensures Normalize(s, x) == Some(n) <==> NormalizedTo(s, n, x)
  {
    hide NormalizeHandle, HandleIs, PlatformIs, Canonicalize, Supported, PlatformKey, Name;
    if s.kind.ProfileUrl? && Canonicalize(Given(s.url)).Some? {
      AgreesExactly(s, Canonicalize(Given(s.url)).value, x);
      hide Agrees;
    } else {
      var (value, name) := (Given(s.identifier), Given(s.platform));
      var (found, key) := (NormalizeHandle(value, x), PlatformKey(name, x));
      assert found.Some? ==> HandleIs(value, found.value, x);
      assert found == Some(n.identifier) <==> HandleIs(value, n.identifier, x);
      assert "*" + ":handle:" == "*:handle:";
      assert Supported(key) <==> PlatformIs(name, key, x);
      assert n.platform.Some? ==> (key == n.platform.value && Supported(key) <==> PlatformIs(name, n.platform.value, x));
    }
  }

  lemma AgreesExactly(s: Seed, t: Target, x: Texts)
    requires forall value, h :: NormalizeHandle(value, x) == Some(h) <==> HandleIs(value, h, x)
    requires forall name, p :: PlatformKey(name, x) == p && Supported(p) <==> PlatformIs(name, p, x)
    requires forall p: Platform :: Supported(Name(p))
    ensures Agrees(s, t, x) <==>
      && s.handleType
      && (s.platform.Some? ==> PlatformIs(s.platform.value, Name(t.platform), x))
      && (s.identifier.Some? ==> exists h :: HandleIs(s.identifier.value, h, x) && x.fold(h) == x.fold(t.handle))
  {
    hide NormalizeHandle, HandleIs, PlatformIs, Supported, PlatformKey, Name;
    if s.identifier.Some? {
      var found := NormalizeHandle(s.identifier.value, x);
      assert found.Some? ==> HandleIs(s.identifier.value, found.value, x);
    }
  }
}
