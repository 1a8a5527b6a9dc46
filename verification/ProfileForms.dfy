/** Which addresses are accepted as profile addresses, part by part. */
module ProfileForms {
  import opened Wrappers
  import opened ProfileUrls

  /** The parts of an address: `lead` is the path up to the handle, `tail` what follows it. */
  datatype Form = Form(scheme: string, user: string, host: string, port: string, lead: string, handle: string, tail: string)
  {
    function Authority(): string {
      user + host + port
    }

    function Path(): string {
      lead + handle + tail
    }

    function Spelled(): string {
      scheme + "://" + Authority() + Path()
    }
  }

  /** The hosts of a platform, in lower case and without `www.`; one has an alias. */
  function Domains(p: Platform): set<string> {
    match p
    case GitHub => {"github.com"}
    case Instagram => {"instagram.com"}
    case LinkedIn => {"linkedin.com"}
    case Reddit => {"reddit.com"}
    case TikTok => {"tiktok.com"}
    case X => {"x.com", "twitter.com"}
    case YouTube => {"youtube.com"}
  }

  predicate IsHost(p: Platform, host: string) {
    host in Domains(p) || exists d | d in Domains(p) :: host == "www." + d
  }

  /** What may stand between host and handle, in lower case. */
  function Leads(p: Platform): set<string> {
    match p
    case LinkedIn => {"/in/"}
    case Reddit => {"/u/", "/user/"}
    case TikTok => {"/@"}
    case YouTube => {"/@"}
    case _ => {"/"}
  }

  /** A secure address of a profile: no credentials, no port, a handle of the platform behind one
      of its leads, and at most one slash behind it. */
  predicate ProfileForm(f: Form, p: Platform) {
    && Lower(f.scheme) == "https"
    && f.user in {"", "@", ":@"}
    && IsHost(p, Lower(f.host))
    && f.port in {"", ":"}
    && Lower(f.lead) in Leads(p)
    && ValidHandle(p, f.handle)
    && f.tail in {"", "/"}
  }

  // ---------- Small facts about texts ----------

  lemma {:induction false} CutRejoins(s: string, c: char)
    ensures var (a, b) := Cut(s, c); s == if b.None? then a else a + [c] + b.value
  {
    if s != "" && s[0] != c {
      CutRejoins(s[1..], c);
      var rest := Cut(s[1..], c);
      assert s == [s[0]] + s[1..];
    }
  }

  lemma {:induction false} CutUserRejoins(s: string)
    ensures var (user, host) := CutUser(s);
      s == (if user.None? then host else user.value + "@" + host) && Lacks(host, '@')
    decreases |s|
  {
    CutRejoins(s, '@');
    CutShortens(s, '@');
    match Cut(s, '@') {
      case (_, None) =>
      case (_, Some(rest)) => CutUserRejoins(rest);
    }
  }

  lemma LowerKeeps(s: string, c: char)
    requires !IsUpper(c) && !IsLower(c)
    ensures Lacks(Lower(s), c) <==> Lacks(s, c)
  {
    assert forall i | 0 <= i < |s| :: Lower(s)[i] == c <==> s[i] == c;
  }

  lemma LowerJoins(a: string, b: string)
    ensures Lower(a + b) == Lower(a) + Lower(b)
  {}

  lemma DomainChars(p: Platform, d: string)
    requires d in Domains(p)
    ensures 5 <= |d| && d[0] != 'w' && forall i | 0 <= i < |d| :: HostChar(d[i])
    ensures HostPlatform(d) == Some(p)
  {}

  lemma PlatformDomain(host: string)
    requires HostPlatform(host).Some?
    ensures host in Domains(HostPlatform(host).value)
  {}

  lemma WwwChars()
    ensures forall i | 0 <= i < 4 :: HostChar("www."[i])
  {}

  lemma HostsLack(p: Platform, host: string)
    requires IsHost(p, host)
    ensures forall i | 0 <= i < |host| :: HostChar(host[i])
  {
    hide Domains, HostChar;
    WwwChars();
    if host in Domains(p) {
      DomainChars(p, host);
    } else {
      var d :| d in Domains(p) && host == "www." + d;
      DomainChars(p, d);
    }
  }

  lemma WwwGoes(d: string)
    ensures WithoutWww("www." + d) == d
    ensures d != "" && d[0] != 'w' ==> WithoutWww(d) == d
  {
    assert ("www." + d)[..4] == "www." && ("www." + d)[4..] == d;
    if |d| >= 4 {
      assert d[..4][0] == d[0];
    }
  }

  /** The hosts of a platform are its own with or without `www.`, and one alias. */
  lemma HostsExactly(p: Platform, host: string)
    ensures HostPlatform(WithoutWww(host)) == Some(p) <==> IsHost(p, host)
  {
    hide Domains, HostPlatform, HostChar;
    if host in Domains(p) {
      DomainChars(p, host);
      WwwGoes(host);
    } else if d :| d in Domains(p) && host == "www." + d {
      DomainChars(p, d);
      WwwGoes(d);
    }
    if HostPlatform(WithoutWww(host)) == Some(p) {
      PlatformDomain(WithoutWww(host));
      if WithoutWww(host) != host {
        assert host == host[..4] + host[4..];
      }
    }
  }

  lemma PlainHost(f: Form, p: Platform)
    requires ProfileForm(f, p)
    ensures Lacks(f.host, '/') && Lacks(f.host, '@') && Lacks(f.host, '[') && Lacks(f.host, ']') && Lacks(f.host, ':')
    ensures Lacks(f.scheme, ':')
  {
    hide ValidHandle, HostChar, IsHost, Leads;
    HostsLack(p, Lower(f.host));
    forall i | 0 <= i < |Lower(f.host)| {
      CharFacts(Lower(f.host)[i]);
    }
    var host := Lower(f.host);
    assert Lacks(host, '/') && Lacks(host, '@') && Lacks(host, '[') && Lacks(host, ']') && Lacks(host, ':');
    LowerKeeps(f.host, '/');
    LowerKeeps(f.host, '@');
    LowerKeeps(f.host, '[');
    LowerKeeps(f.host, ']');
    LowerKeeps(f.host, ':');
    LowerKeeps(f.scheme, ':');
    assert Lacks("https", ':');
  }

  // ---------- An address of that form is split into its parts ----------

  lemma UserSplits(user: string, host: string)
    requires user in {"", "@", ":@"} && Lacks(host, '@')
    ensures CutUser(user + host) == (if user == "" then None else Some(user[..|user| - 1]), host)
  {
    hide Cut;
    CutMisses(host, '@');
    if user == "" {
      assert user + host == host;
    } else if user == "@" {
      assert user + host == "" + ['@'] + host && user[..0] == "";
      CutFinds("", '@', host);
    } else {
      assert user + host == ":" + ['@'] + host && user[..1] == ":";
      CutFinds(":", '@', host);
    }
  }

  lemma PortSplits(host: string, port: string)
    requires port in {"", ":"} && Lacks(host, ':')
    ensures Cut(host + port, ':') == (host, if port == "" then None else Some(""))
  {
    hide Cut;
    if port == "" {
      assert host + port == host;
      CutMisses(host, ':');
    } else {
      assert host + port == host + [':'] + "";
      CutFinds(host, ':', "");
    }
  }

  lemma AuthoritySplits(f: Form, p: Platform)
    requires ProfileForm(f, p)
    ensures CutUser(f.Authority()) == (if f.user == "" then None else Some(f.user[..|f.user| - 1]), f.host + f.port)
    ensures Lacks(f.Authority(), '/') && Lacks(f.host + f.port, '[') && Lacks(f.host + f.port, ']')
    ensures Cut(f.host + f.port, ':') == (f.host, if f.port == "" then None else Some(""))
  {
    hide ValidHandle, IsHost, Leads, Lower, Cut, CutUser;
    PlainHost(f, p);
    PortSplits(f.host, f.port);
    assert Lacks(f.host + f.port, '@');
    assert f.Authority() == f.user + (f.host + f.port);
    UserSplits(f.user, f.host + f.port);
  }

  lemma FormSplits(f: Form, p: Platform)
    requires ProfileForm(f, p)
    ensures SplitUrl(f.Spelled()) ==
      Some(Url(f.scheme, if f.user == "" then None else Some(f.user[..|f.user| - 1]), Lower(f.host), "", f.Path()))
  {
    hide ValidHandle, IsHost, Lower, Cut, CutUser, Lacks, Leads;
    PlainHost(f, p);
    AuthoritySplits(f, p);
    PathStarts(f, p);
    var rest := "//" + f.Authority() + f.Path();
    assert f.Spelled() == f.scheme + [':'] + rest;
    CutFinds(f.scheme, ':', rest);
    assert f.Path() == ['/'] + f.Path()[1..];
    assert rest[..2] == "//" && rest[2..] == f.Authority() + ['/'] + f.Path()[1..];
    CutFinds(f.Authority(), '/', f.Path()[1..]);
  }

  lemma PathStarts(f: Form, p: Platform)
    requires ProfileForm(f, p)
    ensures f.Path() != "" && f.Path()[0] == '/'
  {
    assert Lower(f.lead)[0] == LowerChar(f.lead[0]);
  }

  lemma OneSegment(h: string, tail: string)
    requires Slashless(h) && tail in {"", "/"}
    ensures Segments("/" + h + tail) == Some([h])
  {
    hide Segments, Lacks;
    DirectSegments(h);
    SlashlessEnds(h);
    assert ("/" + h)[|h|] == h[|h| - 1];
    TailIsIgnored("/" + h, tail);
  }

  lemma SlashlessEnds(h: string)
    requires Slashless(h)
    ensures h[|h| - 1] != '/'
  {}

  lemma TwoSegments(first: string, h: string, tail: string)
    requires Slashless(first) && Slashless(h) && tail in {"", "/"}
    ensures Segments("/" + first + "/" + h + tail) == Some([first, h])
  {
    hide Segments, Lacks;
    NestedSegments(first, h);
    SlashlessEnds(h);
    var path := "/" + first + "/" + h;
    assert path[|path| - 1] == h[|h| - 1];
    TailIsIgnored(path, tail);
  }

  /** One slash behind a path that does not end in one makes no difference. */
  lemma TailIsIgnored(path: string, tail: string)
    requires tail in {"", "/"}
    requires path != "" && path[|path| - 1] != '/'
    ensures Segments(path + tail) == Segments(path)
  {
    if tail == "" {
      assert path + tail == path;
    } else {
      var longer := path + tail;
      assert longer[..|longer| - 1] == path;
      assert forall i | 0 <= i < |path| :: longer[i] == path[i];
      assert longer[|path|] == '/';
      if i :| 0 <= i < |path| - 1 && path[i] == '/' && path[i + 1] == '/' {
        assert longer[i] == '/' && longer[i + 1] == '/';
      }
    }
  }

  lemma WordLead(lead: string, w: string)
    requires Lower(lead) == "/" + w + "/" && Slashless(w)
    ensures |lead| >= 3
    ensures var word := lead[1..|lead| - 1]; lead == "/" + word + "/" && Slashless(word) && Lower(word) == w
  {
    var low := Lower(lead);
    assert low[0] == '/' && low[|low| - 1] == '/' && low[1..|low| - 1] == w;
    assert lead[0] == '/' && lead[|lead| - 1] == '/';
    var word := lead[1..|lead| - 1];
    assert forall i | 0 <= i < |word| :: word[i] == lead[i + 1] && w[i] == low[i + 1];
    assert Lower(word) == w;
    LowerKeeps(word, '/');
  }

  lemma PlainLead(lead: string, low: string)
    requires Lower(lead) == low && low in {"/", "/@"}
    ensures lead == low
  {
    assert forall i | 0 <= i < |low| :: LowerChar(lead[i]) == low[i];
  }

  lemma LeadWords()
    ensures "/in/" == "/" + "in" + "/" && "/u/" == "/" + "u" + "/" && "/user/" == "/" + "user" + "/"
    ensures Slashless("in") && Slashless("u") && Slashless("user")
  {}

  lemma LeadShape(f: Form, p: Platform)
    requires ProfileForm(f, p)
    ensures p.LinkedIn? || p.Reddit? ==>
      && |f.lead| >= 3
      && var word := f.lead[1..|f.lead| - 1];
         && f.lead == "/" + word + "/" && Slashless(word)
         && (p.LinkedIn? ==> Lower(word) == "in") && (p.Reddit? ==> Lower(word) in {"u", "user"})
    ensures p.TikTok? || p.YouTube? ==> f.lead == "/@"
    ensures p.GitHub? || p.Instagram? || p.X? ==> f.lead == "/"
  {
    hide ValidHandle, IsHost, Lower, Slashless;
    LeadWords();
    var low := Lower(f.lead);
    if p.LinkedIn? {
      WordLead(f.lead, "in");
    } else if p.Reddit? {
      WordLead(f.lead, if low == "/u/" then "u" else "user");
    } else {
      PlainLead(f.lead, low);
    }
  }

  lemma HandleFound(f: Form, p: Platform)
    requires ProfileForm(f, p)
    ensures Segments(f.Path()).Some? && HandleOf(p, Segments(f.Path()).value) == Some((PathPrefix(p), f.handle))
  {
    hide ValidHandle, IsHost, Leads, Segments, Lacks, Lower;
    LeadShape(f, p);
    HandleIsSlashless(p, f.handle);
    if p.LinkedIn? || p.Reddit? {
      var word := f.lead[1..|f.lead| - 1];
      TwoSegments(word, f.handle, f.tail);
      assert f.Path() == "/" + word + "/" + f.handle + f.tail;
    } else if p.TikTok? || p.YouTube? {
      assert f.Path() == "/" + ("@" + f.handle) + f.tail;
      AtSlashless(f.handle);
      OneSegment("@" + f.handle, f.tail);
      assert ("@" + f.handle)[1..] == f.handle;
    } else {
      assert f.Path() == "/" + f.handle + f.tail;
      OneSegment(f.handle, f.tail);
    }
  }

  lemma AtSlashless(h: string)
    requires Slashless(h)
    ensures Slashless("@" + h)
  {}

  /** The parts of every accepted form lead to its target. */
  lemma FormIsAccepted(value: string, f: Form, p: Platform)
    requires ProfileForm(f, p) && PlainUrl(value) == Some(f.Spelled())
    ensures Canonicalize(value) == Some(Target(p, "https://" + Host(p) + PathPrefix(p) + Lower(f.handle), Lower(f.handle)))
  {
    hide ValidHandle, Segments, Lower, SplitUrl, PlainUrl, HandleOf, IsHost, Leads, HostPlatform, WithoutWww, Host, PathPrefix;
    FormSplits(f, p);
    HostsExactly(p, Lower(f.host));
    HandleFound(f, p);
    PlatformHost(WithoutWww(Lower(f.host)));
    XHost();
    NoCredentials(f);
  }

  lemma NoCredentials(f: Form)
    requires f.user in {"", "@", ":@"}
    ensures f.user == "@" ==> f.user[..|f.user| - 1] == ""
    ensures f.user == ":@" ==> f.user[..|f.user| - 1] == ":"
  {}

  // ---------- Every accepted address has that form ----------

  lemma AuthorityRejoins(authority: string) returns (user: string, host: string, port: string)
    ensures var (owner, hostAndPort) := CutUser(authority);
      && authority == user + host + port
      && user == (if owner.None? then "" else owner.value + "@")
      && host == Cut(hostAndPort, ':').0
      && port == (if Cut(hostAndPort, ':').1.None? then "" else ":" + Cut(hostAndPort, ':').1.value)
  {
    hide Cut, CutUser, Lacks;
    CutUserRejoins(authority);
    var (owner, hostAndPort) := CutUser(authority);
    CutRejoins(hostAndPort, ':');
    var split := Cut(hostAndPort, ':');
    user := if owner.None? then "" else owner.value + "@";
    host := split.0;
    port := if split.1.None? then "" else ":" + split.1.value;
    assert hostAndPort == host + port;
    assert authority == user + (host + port);
  }

  lemma RestRejoins(rest: string)
    requires |rest| >= 2 && rest[..2] == "//"
    ensures var authority := Cut(rest[2..], '/');
      rest == "//" + authority.0 + (if authority.1.None? then "" else "/" + authority.1.value)
  {
    hide Cut;
    CutRejoins(rest[2..], '/');
    assert rest == "//" + rest[2..];
  }

  lemma SplitRejoins(s: string) returns (user: string, host: string, port: string)
    requires SplitUrl(s).Some?
    ensures var u := SplitUrl(s).value;
      && s == u.scheme + "://" + (user + host + port) + u.path
      && user == (if u.user.None? then "" else u.user.value + "@")
      && u.host == Lower(host)
      && (u.port == "" ==> port in {"", ":"})
  {
    hide Cut, CutUser, Lower, Lacks;
    CutRejoins(s, ':');
    var (scheme, rest) := (Cut(s, ':').0, Cut(s, ':').1.value);
    RestRejoins(rest);
    user, host, port := AuthorityRejoins(Cut(rest[2..], '/').0);
    Colon(scheme, user + host + port, SplitUrl(s).value.path);
    assert ":" + "" == ":";
  }

  lemma Colon(scheme: string, a: string, b: string)
    ensures scheme + [':'] + ("//" + a + b) == scheme + "://" + a + b
  {
    assert [':'] + "//" == "://";
    assert scheme + [':'] + ("//" + a + b) == scheme + ([':'] + "//") + a + b;
  }

  lemma {:induction false} SlashRejoins(s: string)
    ensures |SplitSlash(s)| == 1 ==> s == SplitSlash(s)[0]
    ensures |SplitSlash(s)| == 2 ==> s == SplitSlash(s)[0] + "/" + SplitSlash(s)[1]
    ensures |SplitSlash(s)| >= 1
    decreases |s|
  {
    hide Cut;
    CutRejoins(s, '/');
    CutShortens(s, '/');
    if Cut(s, '/').1.Some? {
      var (first, rest) := (Cut(s, '/').0, Cut(s, '/').1.value);
      SlashRejoins(rest);
      assert SplitSlash(s) == [first] + SplitSlash(rest);
      assert s == first + "/" + rest;
    }
  }

  lemma SegmentsRejoin(path: string) returns (tail: string)
    requires Segments(path).Some? && 1 <= |Segments(path).value| <= 2
    ensures tail in {"", "/"}
    ensures var segments := Segments(path).value;
      path == (if |segments| == 1 then "/" + segments[0] + tail else "/" + segments[0] + "/" + segments[1] + tail)
  {
    hide SplitSlash;
    tail := if path[|path| - 1] == '/' then "/" else "";
    var trimmed := if path[|path| - 1] == '/' then path[..|path| - 1] else path;
    assert Segments(path) == Some(SplitSlash(trimmed[1..]));
    SlashRejoins(trimmed[1..]);
    assert path == trimmed + tail;
    assert trimmed == "/" + trimmed[1..];
  }

  lemma WordBetween(word: string)
    ensures Lower("/" + word + "/") == "/" + Lower(word) + "/"
  {
    hide Lower;
    LowLeads();
    LowerJoins("/", word);
    LowerJoins("/" + word, "/");
  }

  lemma NestedLead(p: Platform, segments: seq<string>)
    requires HandleOf(p, segments).Some? && (p.LinkedIn? || p.Reddit?)
    ensures |segments| == 2 && HandleOf(p, segments) == Some((PathPrefix(p), segments[1]))
    ensures Lower("/" + segments[0] + "/") in Leads(p)
  {
    hide Lower;
    LowLeads();
    WordBetween(segments[0]);
  }

  lemma DirectLead(p: Platform, segments: seq<string>)
    requires HandleOf(p, segments).Some? && !p.LinkedIn? && !p.Reddit?
    ensures |segments| == 1
    ensures p.TikTok? || p.YouTube? ==>
      segments[0] == "@" + segments[0][1..] && HandleOf(p, segments) == Some((PathPrefix(p), segments[0][1..])) && "/@" in Leads(p)
    ensures !p.TikTok? && !p.YouTube? ==> HandleOf(p, segments) == Some((PathPrefix(p), segments[0])) && "/" in Leads(p)
  {}

  lemma LeadOf(p: Platform, path: string) returns (lead: string, handle: string, tail: string)
    requires Segments(path).Some? && HandleOf(p, Segments(path).value).Some?
    ensures HandleOf(p, Segments(path).value) == Some((PathPrefix(p), handle))
    ensures path == lead + handle + tail && Lower(lead) in Leads(p) && tail in {"", "/"}
  {
    hide Segments, Lower, HandleOf, PathPrefix, Leads;
    var segments := Segments(path).value;
    LowLeads();
    if p.LinkedIn? || p.Reddit? {
      NestedLead(p, segments);
      tail := SegmentsRejoin(path);
      lead, handle := "/" + segments[0] + "/", segments[1];
    } else {
      DirectLead(p, segments);
      tail := SegmentsRejoin(path);
      if p.TikTok? || p.YouTube? {
        lead, handle := "/@", segments[0][1..];
        assert path == "/" + ("@" + handle) + tail;
      } else {
        lead, handle := "/", segments[0];
      }
    }
  }

  lemma LowerSame(s: string)
    requires forall i | 0 <= i < |s| :: LowerChar(s[i]) == s[i]
    ensures Lower(s) == s
  {}

  lemma LowLeads()
    ensures Lower("/") == "/" && Lower("/@") == "/@"
    ensures "/" + "in" + "/" == "/in/" && "/" + "u" + "/" == "/u/" && "/" + "user" + "/" == "/user/"
  {
    hide Lower;
    LeadWords();
    LowerSame("/");
    LowerSame("/@");
  }

  lemma AcceptedHasForm(value: string) returns (f: Form)
    requires Canonicalize(value).Some?
    ensures PlainUrl(value) == Some(f.Spelled()) && ProfileForm(f, Canonicalize(value).value.platform)
  {
    hide ValidHandle, Segments, Lower, SplitUrl, PlainUrl, HandleOf, IsHost, Leads, HostPlatform, WithoutWww, Host, PathPrefix;
    var s := PlainUrl(value).value;
    var u := SplitUrl(s).value;
    var p := Canonicalize(value).value.platform;
    var user, host, port := SplitRejoins(s);
    HostsExactly(p, Lower(host));
    var lead, handle, tail := LeadOf(p, u.path);
    f := Form(u.scheme, user, host, port, lead, handle, tail);
    PortIsEmpty(u);
    assert u.user.Some? && u.user.value == "" ==> user == "@";
    assert u.user.Some? && u.user.value == ":" ==> user == ":@";
  }

  lemma PortIsEmpty(u: Url)
    requires !HasCredentials(u)
    ensures u.user in {None, Some(""), Some(":")}
  {}

  /** An address is accepted with exactly this target when, without the blanks around it, it is at
      most 300 characters long, has no ambiguous character, and is a profile form of the
      platform with a handle that lower-cases to the target's. */
  lemma AcceptedExactly(value: string, t: Target)
    ensures Canonicalize(value) == Some(t) <==>
      exists f: Form ::
        && PlainUrl(value) == Some(f.Spelled()) && ProfileForm(f, t.platform)
        && t.handle == Lower(f.handle)
        && t.url == "https://" + Host(t.platform) + PathPrefix(t.platform) + t.handle
  {
    hide Canonicalize, PlainUrl, ProfileForm, Lower, Host, PathPrefix;
    if Canonicalize(value) == Some(t) {
      var f := AcceptedHasForm(value);
      FormIsAccepted(value, f, t.platform);
    }
    forall f: Form | PlainUrl(value) == Some(f.Spelled()) && ProfileForm(f, t.platform) && t.handle == Lower(f.handle)
      && t.url == "https://" + Host(t.platform) + PathPrefix(t.platform) + t.handle
      ensures Canonicalize(value) == Some(t)
    {
      FormIsAccepted(value, f, t.platform);
    }
  }

  // ---------- Characters and handles, spelled out ----------

  /** The blanks around an address are ignored; it is at most 300 printable ASCII characters, without
      backslashes, escapes, queries and fragments. */
  lemma PlainUrlExactly(value: string, s: string)
    ensures PlainUrl(value) == Some(s) <==>
      && s == Strip(value) && 1 <= |s| <= 300
      && forall i | 0 <= i < |s| :: 32 <= s[i] as int <= 126 && s[i] !in {'\\', '%', '?', '#'}
  {
    hide Strip;
    assert forall c: char :: AllowedChar(c) <==> 32 <= c as int <= 126 && c !in {'\\', '%', '?', '#'};
  }

  lemma SpacesExactly(c: char)
    ensures IsSpace(c) <==> c as int in {9, 10, 11, 12, 13, 28, 29, 30, 31, 32}
  {}

  /** The codes of ASCII digits and letters. */
  predicate Letter(c: char) {
    48 <= c as int <= 57 || 65 <= c as int <= 90 || 97 <= c as int <= 122
  }

  predicate Made(h: string, max: nat, more: set<char>) {
    1 <= |h| <= max && forall i | 0 <= i < |h| :: Letter(h[i]) || h[i] in more
  }

  predicate NoPair(h: string, c: char) {
    forall i | 0 < i < |h| :: h[i] != c || h[i - 1] != c
  }

  /** The handles of each platform: their length and characters; on GitHub no hyphen at either end or
      after another, on Instagram no dot there, and on LinkedIn and YouTube a letter or digit first. */
  lemma HandlesExactly(p: Platform, h: string)
    ensures ValidHandle(p, h) <==>
      match p
      case GitHub => Made(h, 39, {'-'}) && h[0] != '-' && h[|h| - 1] != '-' && NoPair(h, '-')
      case Instagram => Made(h, 30, {'.', '_'}) && h[0] != '.' && h[|h| - 1] != '.' && NoPair(h, '.')
      case LinkedIn => Made(h, 64, {'_', '-'}) && Letter(h[0])
      case Reddit => Made(h, 20, {'_', '-'})
      case TikTok => Made(h, 24, {'.', '_'})
      case X => Made(h, 15, {'_'})
      case YouTube => Made(h, 30, {'.', '_', '-'}) && Letter(h[0])
  {
    forall c: char ensures IsAlnum(c) <==> Letter(c) {}
    PunctuationIsNotAlnum();
    hide IsAlnum, Letter;
    match p
    case GitHub => HyphensExactly(h);
    case Instagram => DotsExactly(h);
    case _ =>
  }

  lemma NotTwice(h: string, c: char, i: nat)
    requires NoPair(h, c) && i + 1 < |h| && h[i] == c
    ensures h[i + 1] != c
  {
    var k := i + 1;
    assert h[k - 1] == c;
  }

  lemma HyphensExactly(h: string)
    requires forall c: char :: IsAlnum(c) <==> Letter(c)
    requires !IsAlnum('-')
    ensures ValidHandle(GitHub, h) <==> Made(h, 39, {'-'}) && h[0] != '-' && h[|h| - 1] != '-' && NoPair(h, '-')
  {
    hide IsAlnum, Letter;
    if Made(h, 39, {'-'}) && h[|h| - 1] != '-' && NoPair(h, '-') {
      forall i | 0 <= i < |h| - 1 && h[i] == '-'
        ensures IsAlnum(h[i + 1])
      {
        NotTwice(h, '-', i);
      }
    }
    if ValidHandle(GitHub, h) {
      forall i | 0 < i < |h|
        ensures h[i] != '-' || h[i - 1] != '-'
      {
        assert IsAlnum(h[i - 1]) || h[i - 1] == '-';
      }
    }
  }

  lemma DotsExactly(h: string)
    requires forall c: char :: IsAlnum(c) <==> Letter(c)
    requires !IsAlnum('.')
    ensures ValidHandle(Instagram, h) <==> Made(h, 30, {'.', '_'}) && h[0] != '.' && h[|h| - 1] != '.' && NoPair(h, '.')
  {
    hide IsAlnum, Letter;
    if NoPair(h, '.') {
      forall i | 0 <= i < |h| - 1 && h[i] == '.'
        ensures h[i + 1] != '.'
      {
        NotTwice(h, '.', i);
      }
    }
  }
}
