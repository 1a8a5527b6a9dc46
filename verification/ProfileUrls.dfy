/** Canonical profile addresses, and the seed that identifies a footprint search. */
module ProfileUrls {
  import opened Wrappers

  datatype Platform = GitHub | Instagram | LinkedIn | Reddit | TikTok | X | YouTube

  datatype Target = Target(platform: Platform, url: string, handle: string)

  // ---------- Characters ----------

  predicate IsUpper(c: char) { 'A' <= c <= 'Z' }
  predicate IsLower(c: char) { 'a' <= c <= 'z' }
  predicate IsDigit(c: char) { '0' <= c <= '9' }
  predicate IsAlnum(c: char) { IsUpper(c) || IsLower(c) || IsDigit(c) }
  predicate IsSpace(c: char) { c == ' ' || '\t' <= c <= '\r' || '\U{1c}' <= c <= '\U{1f}' }

  function LowerChar(c: char): char {
    if IsUpper(c) then c + ' ' else c
  }

  /** Case folding of an ASCII text. */
  function Lower(s: string): (r: string)
    ensures |r| == |s|
    ensures forall i | 0 <= i < |s| :: r[i] == LowerChar(s[i])
  {
    if s == "" then "" else [LowerChar(s[0])] + Lower(s[1..])
  }

  function Strip(s: string): string {
    if s == "" then s
    else if IsSpace(s[0]) then Strip(s[1..])
    else if IsSpace(s[|s| - 1]) then Strip(s[..|s| - 1])
    else s
  }

  predicate AllowedChar(c: char) {
    ' ' <= c < '\U{7f}' && c != '\\' && c != '%' && c != '?' && c != '#'
  }

  /** The text of an address after stripping, unless its syntax is ambiguous. */
  function PlainUrl(value: string): Option<string> {
    var s := Strip(value);
    if s == "" || |s| > 300 || exists i | 0 <= i < |s| :: !AllowedChar(s[i]) then None else Some(s)
  }

  // ---------- Splitting an address (section 3 of RFC 3986) ----------

  predicate Lacks(s: string, c: char) {
    forall i | 0 <= i < |s| :: s[i] != c
  }

  /** The parts before and after the first `c`. */
  function Cut(s: string, c: char): (r: (string, Option<string>))
    ensures Lacks(r.0, c)
  {
    if s == "" then ("", None)
    else if s[0] == c then ("", Some(s[1..]))
    else
      var rest := Cut(s[1..], c);
      ([s[0]] + rest.0, rest.1)
  }

  lemma {:induction false} CutFinds(a: string, c: char, b: string)
    requires Lacks(a, c)
    ensures Cut(a + [c] + b, c) == (a, Some(b))
  {
    if a == "" {
      assert a + [c] + b == [c] + b && ([c] + b)[1..] == b;
    } else {
      assert (a + [c] + b)[1..] == a[1..] + [c] + b && (a + [c] + b)[0] == a[0];
      CutFinds(a[1..], c, b);
      assert [a[0]] + a[1..] == a;
    }
  }

  lemma {:induction false} CutMisses(a: string, c: char)
    requires Lacks(a, c)
    ensures Cut(a, c) == (a, None)
  {
    if a != "" {
      CutMisses(a[1..], c);
      assert [a[0]] + a[1..] == a;
    }
  }

  /** The part after the last `@` of the authority, and what precedes it. */
  function CutUser(s: string): (Option<string>, string)
    decreases |s|
  {
    match Cut(s, '@')
    case (_, None) => (None, s)
    case (first, Some(rest)) =>
      CutShortens(s, '@');
      match CutUser(rest)
      case (None, host) => (Some(first), host)
      case (Some(more), host) => (Some(first + "@" + more), host)
  }

  datatype Url = Url(scheme: string, user: Option<string>, host: string, port: string, path: string)

  /** Split into scheme, authority and path. There is no query or fragment to cut off. A
      bracketed host is no profile host. */
  function SplitUrl(s: string): Option<Url> {
    match Cut(s, ':')
    case (_, None) => None
    case (scheme, Some(rest)) =>
      if |rest| < 2 || rest[..2] != "//" then None
      else
        var authority := Cut(rest[2..], '/');
        var path := if authority.1.None? then "" else "/" + authority.1.value;
        var (user, hostAndPort) := CutUser(authority.0);
        if !Lacks(hostAndPort, '[') || !Lacks(hostAndPort, ']') then None
        else
          var host := Cut(hostAndPort, ':');
          Some(Url(scheme, user, Lower(host.0), if host.1.None? then "" else host.1.value, path))
  }

  /** Empty user names and passwords count as absent. */
  predicate HasCredentials(u: Url) {
    u.user.Some? && u.user.value != "" && u.user.value != ":"
  }

  // ---------- Hosts and handles ----------

  function HostPlatform(host: string): Option<Platform> {
    if host == "github.com" then Some(GitHub)
    else if host == "instagram.com" then Some(Instagram)
    else if host == "linkedin.com" then Some(LinkedIn)
    else if host == "reddit.com" then Some(Reddit)
    else if host == "tiktok.com" then Some(TikTok)
    else if host == "twitter.com" then Some(X)
    else if host == "x.com" then Some(X)
    else if host == "youtube.com" then Some(YouTube)
    else None
  }

  function WithoutWww(host: string): string {
    if |host| >= 4 && host[..4] == "www." then host[4..] else host
  }

  predicate ValidHandle(p: Platform, h: string) {
    match p
    case GitHub =>
      && 1 <= |h| <= 39 && IsAlnum(h[0])
      && (forall i | 0 <= i < |h| :: IsAlnum(h[i]) || (h[i] == '-' && i + 1 < |h| && IsAlnum(h[i + 1])))
    case Instagram =>
      && 1 <= |h| <= 30
      && (IsAlnum(h[0]) || h[0] == '_') && (IsAlnum(h[|h| - 1]) || h[|h| - 1] == '_')
      && (forall i | 0 <= i < |h| :: IsAlnum(h[i]) || h[i] == '.' || h[i] == '_')
      && (forall i | 0 <= i < |h| - 1 :: !(h[i] == '.' && h[i + 1] == '.'))
    case LinkedIn =>
      1 <= |h| <= 64 && IsAlnum(h[0]) && forall i | 0 <= i < |h| :: IsAlnum(h[i]) || h[i] == '_' || h[i] == '-'
    case Reddit => 1 <= |h| <= 20 && forall i | 0 <= i < |h| :: IsAlnum(h[i]) || h[i] == '_' || h[i] == '-'
    case TikTok => 1 <= |h| <= 24 && forall i | 0 <= i < |h| :: IsAlnum(h[i]) || h[i] == '.' || h[i] == '_'
    case X => 1 <= |h| <= 15 && forall i | 0 <= i < |h| :: IsAlnum(h[i]) || h[i] == '_'
    case YouTube =>
      1 <= |h| <= 30 && IsAlnum(h[0]) && forall i | 0 <= i < |h| :: IsAlnum(h[i]) || h[i] == '.' || h[i] == '_' || h[i] == '-'
  }

  /** The segments of a path that starts with a slash; one trailing slash is ignored. */
  function Segments(path: string): Option<seq<string>> {
    if path == "" || path[0] != '/' || exists i | 0 <= i < |path| - 1 :: path[i] == '/' && path[i + 1] == '/' then None
    else
      var trimmed := if path[|path| - 1] == '/' then path[..|path| - 1] else path;
      if |trimmed| > 1 then Some(SplitSlash(trimmed[1..])) else Some([])
  }

  function SplitSlash(s: string): seq<string>
    decreases |s|
  {
    match Cut(s, '/')
    case (first, None) => [first]
    case (first, Some(rest)) => CutShortens(s, '/'); [first] + SplitSlash(rest)
  }

  lemma {:induction false} CutShortens(s: string, c: char)
    ensures Cut(s, c).1.Some? ==> |Cut(s, c).1.value| < |s|
  {
    if s != "" && s[0] != c {
      CutShortens(s[1..], c);
    }
  }

  /** The part of the canonical path before the handle, and the handle. */
  function HandleOf(p: Platform, segments: seq<string>): Option<(string, string)> {
    match p
    case LinkedIn =>
      if |segments| == 2 && Lower(segments[0]) == "in" then Some(("/in/", segments[1])) else None
    case Reddit =>
      if |segments| == 2 && (Lower(segments[0]) == "u" || Lower(segments[0]) == "user") then Some(("/user/", segments[1])) else None
    case TikTok => AtHandle(segments)
    case YouTube => AtHandle(segments)
    case _ => if |segments| == 1 then Some(("/", segments[0])) else None
  }

  function AtHandle(segments: seq<string>): Option<(string, string)> {
    if |segments| == 1 && segments[0] != "" && segments[0][0] == '@' then Some(("/@", segments[0][1..])) else None
  }

  /** The target of a profile address; no result means that the address is refused. */
  function Canonicalize(value: string): Option<Target> {
    match PlainUrl(value)
    case None => None
    case Some(s) =>
      match SplitUrl(s)
      case None => None
      case Some(u) =>
        var host := WithoutWww(u.host);
        if Lower(u.scheme) != "https" || HasCredentials(u) || u.port != "" || HostPlatform(host).None? then None
        else
          var p := HostPlatform(host).value;
          match Segments(u.path)
          case None => None
          case Some(segments) =>
            match HandleOf(p, segments)
            case None => None
            case Some((prefix, handle)) =>
              if !ValidHandle(p, handle) then None
              else
                Some(Target(p, "https://" + (if p.X? then "x.com" else host) + prefix + Lower(handle), Lower(handle)))
  }

  // ---------- Canonical addresses ----------

  function Host(p: Platform): string {
    match p
    case GitHub => "github.com"
    case Instagram => "instagram.com"
    case LinkedIn => "linkedin.com"
    case Reddit => "reddit.com"
    case TikTok => "tiktok.com"
    case X => "x.com"
    case YouTube => "youtube.com"
  }

  function PathPrefix(p: Platform): string {
    match p
    case LinkedIn => "/in/"
    case Reddit => "/user/"
    case TikTok => "/@"
    case YouTube => "/@"
    case _ => "/"
  }

  predicate CanonicalTarget(t: Target) {
    && ValidHandle(t.platform, t.handle)
    && Lower(t.handle) == t.handle
    && t.url == "https://" + Host(t.platform) + PathPrefix(t.platform) + t.handle
  }

  lemma {:induction false} LowerTwice(s: string)
    ensures Lower(Lower(s)) == Lower(s)
  {}

  lemma LowerFacts(h: string)
    ensures forall i | 0 <= i < |h| :: IsAlnum(Lower(h)[i]) <==> IsAlnum(h[i])
    ensures forall i | 0 <= i < |h| :: !IsAlnum(h[i]) ==> Lower(h)[i] == h[i]
    ensures forall i | 0 <= i < |h| :: !IsAlnum(Lower(h)[i]) ==> Lower(h)[i] == h[i]
  {}

  lemma PunctuationIsNotAlnum()
    ensures !IsAlnum('-') && !IsAlnum('_') && !IsAlnum('.')
  {}

  lemma LowerKeepsHandle(p: Platform, h: string)
    requires ValidHandle(p, h)
    ensures ValidHandle(p, Lower(h))
  {
    LowerFacts(h);
    PunctuationIsNotAlnum();
    hide IsAlnum, Lower, LowerChar;
  }

  lemma PlatformHost(host: string)
    requires HostPlatform(host).Some?
    ensures HostPlatform(host).value.X? || host == Host(HostPlatform(host).value)
  {}

  lemma PlatformPrefix(p: Platform, segments: seq<string>)
    requires HandleOf(p, segments).Some?
    ensures HandleOf(p, segments).value.0 == PathPrefix(p)
  {}

  lemma ResultIsCanonical(value: string)
    requires Canonicalize(value).Some?
    ensures CanonicalTarget(Canonicalize(value).value)
  {
    hide PlainUrl, SplitUrl, Segments, Lower, ValidHandle, HostPlatform, HandleOf, Host, PathPrefix, WithoutWww, HasCredentials;
    var u := SplitUrl(PlainUrl(value).value).value;
    var host := WithoutWww(u.host);
    var p := HostPlatform(host).value;
    var segments := Segments(u.path).value;
    var (prefix, handle) := HandleOf(p, segments).value;
    LowerKeepsHandle(p, handle);
    LowerTwice(handle);
    PlatformHost(host);
    PlatformPrefix(p, segments);
    XHost();
  }

  lemma XHost()
    ensures Host(X) == "x.com"
  {}

  // ---------- Canonicalizing twice ----------

  predicate HandleChar(c: char) {
    IsAlnum(c) || c == '-' || c == '_' || c == '.'
  }

  predicate HostChar(c: char) {
    IsLower(c) || c == '.'
  }

  lemma HandleChars(p: Platform, h: string)
    requires ValidHandle(p, h)
    ensures 1 <= |h| <= 64 && forall i | 0 <= i < |h| :: HandleChar(h[i])
  {
    hide IsAlnum;
  }

  lemma HostChars(p: Platform)
    ensures 5 <= |Host(p)| <= 13 && forall i | 0 <= i < |Host(p)| :: HostChar(Host(p)[i])
    ensures HostPlatform(Host(p)) == Some(p) && Host(p)[0] != 'w'
  {}

  lemma CharFacts(c: char)
    ensures HandleChar(c) || HostChar(c) ==>
      AllowedChar(c) && !IsSpace(c) && c != '/' && c != '@' && c != '[' && c != ']' && c != ':'
    ensures HostChar(c) ==> LowerChar(c) == c
  {}

  lemma HostIsPlain(p: Platform)
    ensures var host := Host(p);
      && Lacks(host, '/') && Lacks(host, '@') && Lacks(host, '[') && Lacks(host, ']') && Lacks(host, ':')
      && Lower(host) == host && WithoutWww(host) == host
  {
    var host := Host(p);
    HostChars(p);
    hide Host, HostPlatform;
    forall i | 0 <= i < |host| {
      CharFacts(host[i]);
    }
    assert host[..4][0] == host[0];
  }

  lemma SplitCanonical(host: string, tail: string)
    requires Lacks(host, '/') && Lacks(host, '@') && Lacks(host, '[') && Lacks(host, ']') && Lacks(host, ':') && Lower(host) == host
    ensures SplitUrl("https://" + host + "/" + tail) == Some(Url("https", None, host, "", "/" + tail))
  {
    hide Cut, Lower;
    var s := "https://" + host + "/" + tail;
    var rest := "//" + host + "/" + tail;
    assert s == "https" + [':'] + rest;
    CutFinds("https", ':', rest);
    assert rest[..2] == "//" && rest[2..] == host + ['/'] + tail;
    CutFinds(host, '/', tail);
    CutMisses(host, '@');
    CutMisses(host, ':');
  }

  lemma SplitOne(h: string)
    requires Lacks(h, '/')
    ensures SplitSlash(h) == [h]
  {
    CutMisses(h, '/');
  }

  lemma SplitTwo(first: string, h: string)
    requires Lacks(first, '/') && Lacks(h, '/')
    ensures SplitSlash(first + "/" + h) == [first, h]
  {
    CutFinds(first, '/', h);
    SplitOne(h);
  }

  predicate Slashless(h: string) {
    h != "" && Lacks(h, '/')
  }

  lemma DirectSegments(h: string)
    requires Slashless(h)
    ensures Segments("/" + h) == Some([h])
  {
    SplitOne(h);
    var path := "/" + h;
    assert forall i | 0 < i < |path| :: path[i] == h[i - 1];
    assert path[1..] == h;
  }

  lemma NestedSegments(first: string, h: string)
    requires Slashless(first) && Slashless(h)
    ensures Segments("/" + first + "/" + h) == Some([first, h])
  {
    SplitTwo(first, h);
    var path := "/" + first + "/" + h;
    var n := |first|;
    assert forall i | 1 <= i <= n :: path[i] == first[i - 1];
    assert forall i | n + 2 <= i < |path| :: path[i] == h[i - n - 2];
    assert path[1..] == first + "/" + h;
  }

  lemma CanonicalSegments(p: Platform, h: string)
    requires Slashless(h)
    ensures Segments(PathPrefix(p) + h).Some?
    ensures HandleOf(p, Segments(PathPrefix(p) + h).value) == Some((PathPrefix(p), h))
  {
    hide Segments;
    match p
    case LinkedIn =>
      assert "/in/" + h == "/" + "in" + "/" + h;
      NestedSegments("in", h);
    case Reddit =>
      assert "/user/" + h == "/" + "user" + "/" + h;
      NestedSegments("user", h);
    case TikTok =>
      assert "/@" + h == "/" + ("@" + h);
      DirectSegments("@" + h);
      assert ("@" + h)[1..] == h;
    case YouTube =>
      assert "/@" + h == "/" + ("@" + h);
      DirectSegments("@" + h);
      assert ("@" + h)[1..] == h;
    case _ => DirectSegments(h);
  }

  lemma PrefixChars(p: Platform)
    ensures 1 <= |PathPrefix(p)| <= 6 && PathPrefix(p)[0] == '/'
    ensures forall i | 0 <= i < |PathPrefix(p)| :: AllowedChar(PathPrefix(p)[i])
  {}

  lemma SchemeChars()
    ensures forall i | 0 <= i < 8 :: AllowedChar("https://"[i])
  {}

  lemma CanonicalIsPlain(t: Target)
    requires CanonicalTarget(t)
    ensures PlainUrl(t.url) == Some(t.url)
  {
    HandleChars(t.platform, t.handle);
    HostChars(t.platform);
    PrefixChars(t.platform);
    SchemeChars();
    hide Host, PathPrefix, ValidHandle, HostPlatform, Lower, AllowedChar, IsSpace, HandleChar, HostChar;
    var host, prefix, h := Host(t.platform), PathPrefix(t.platform), t.handle;
    forall i | 0 <= i < |host| ensures AllowedChar(host[i]) {
      CharFacts(host[i]);
    }
    forall i | 0 <= i < |h| ensures AllowedChar(h[i]) && !IsSpace(h[i]) {
      CharFacts(h[i]);
    }
    assert t.url[|t.url| - 1] == h[|h| - 1];
    assert !IsSpace(t.url[0]) by {
      CharFacts('h');
      assert t.url[0] == 'h';
      LetterH();
    }
    UrlChars(host, prefix, h, t.url);
  }

  lemma LetterH()
    ensures !IsSpace('h')
  {}

  lemma UrlChars(host: string, prefix: string, h: string, url: string)
    requires url == "https://" + host + prefix + h
    requires forall i | 0 <= i < 8 :: AllowedChar("https://"[i])
    requires forall i | 0 <= i < |host| :: AllowedChar(host[i])
    requires forall i | 0 <= i < |prefix| :: AllowedChar(prefix[i])
    requires forall i | 0 <= i < |h| :: AllowedChar(h[i])
    ensures forall i | 0 <= i < |url| :: AllowedChar(url[i])
  {
    hide AllowedChar;
  }

  /** A canonical address is its own target. */
  lemma CanonicalStays(t: Target)
    requires CanonicalTarget(t)
    ensures Canonicalize(t.url) == Some(t)
  {
    hide PlainUrl, SplitUrl, Segments, Lower, ValidHandle, HostPlatform, HandleOf, Host, PathPrefix, WithoutWww, Slashless, Lacks;
    var p, h := t.platform, t.handle;
    CanonicalIsPlain(t);
    HandleIsSlashless(p, h);
    HostChars(p);
    HostIsPlain(p);
    var tail := CanonicalPath(p, h);
    SplitCanonical(Host(p), tail);
    assert "https://" + Host(p) + (PathPrefix(p) + h) == "https://" + Host(p) + PathPrefix(p) + h;
    assert "https://" + Host(p) + ("/" + tail) == "https://" + Host(p) + "/" + tail;
    CanonicalSegments(p, h);
    XHost();
    SchemeIsLower();
  }

  lemma HandleIsSlashless(p: Platform, h: string)
    requires ValidHandle(p, h)
    ensures Slashless(h)
  {
    HandleChars(p, h);
    hide ValidHandle, HandleChar;
    forall i | 0 <= i < |h| ensures h[i] != '/' {
      CharFacts(h[i]);
    }
  }

  lemma CanonicalPath(p: Platform, h: string) returns (tail: string)
    ensures PathPrefix(p) + h == "/" + tail
  {
    PrefixChars(p);
    hide PathPrefix;
    tail := PathPrefix(p)[1..] + h;
  }

  lemma SchemeIsLower()
    ensures Lower("https") == "https"
  {}

  /** Canonicalizing the canonical form of an address gives the same target. */
  lemma CanonicalizeIsIdempotent(value: string)
    requires Canonicalize(value).Some?
    ensures Canonicalize(Canonicalize(value).value.url) == Canonicalize(value)
  {
    ResultIsCanonical(value);
    CanonicalStays(Canonicalize(value).value);
    hide Canonicalize;
  }
}
