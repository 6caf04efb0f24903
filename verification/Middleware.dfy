/**
 The web app's middleware as a redirect transition system.

 A text is a sequence of UTF-8 code units, each a `char` below 256. How the URL
 parser resolves a target against the page's own address is modelled: trimming,
 schemes, slashes, queries and fragments. What it makes of a path, of an
 authority and of a target with another scheme is a parameter.
 */
module Middleware {
  import opened Basics
  import opened RedirectChains

  /** An address without its fragment, which is not sent. The scheme is http or https. */
  datatype Url = Url(scheme: string, host: string, path: string, search: string)

  datatype Place = Place(scheme: string, host: string, path: string)

  datatype Parser = Parser(
    normalise: string -> string,            // dot segments, percent-encoding, backslashes
    join: (string, string) -> string,       // a relative path on the path of the base
    authority: string -> Option<string>,    // a host as written to the host requested
    elsewhere: string -> Option<Place>)     // a target with a scheme other than the base's

  datatype Site = Site(parser: Parser, serves: string -> bool, production: bool)

  datatype Response = Pass | Redirect(url: Url, permanent: bool) | Throws

  const LEGACY_HOST := "odysseus-control-center.vercel.app"
  const CANONICAL_HOST := "cross-vendor-afk-control-plane.vercel.app"

  // ---------------------------------------------------------------- strings

  /** The position of the first of the given characters, or the length. */
  function Find(s: string, any: string): (n: nat)
    ensures n <= |s|
    ensures n < |s| ==> s[n] in any
    ensures forall i :: 0 <= i < n ==> s[i] !in any
  {
    if s == "" || s[0] in any then 0 else 1 + Find(s[1..], any)
  }

  function Hex(d: nat): char
    requires d < 16
  {
    "0123456789ABCDEF"[d]
  }

  function HexValue(c: char): Option<nat> {
    if '0' <= c <= '9' then Some(c as nat - '0' as nat)
    else if 'A' <= c <= 'F' then Some(c as nat - 'A' as nat + 10)
    else if 'a' <= c <= 'f' then Some(c as nat - 'a' as nat + 10)
    else None
  }

  predicate KeptByForms(c: char) {
    'a' <= c <= 'z' || 'A' <= c <= 'Z' || '0' <= c <= '9' || c in "*-._"
  }

  function EncodeUnit(c: char): string {
    if KeptByForms(c) then [c]
    else if c == ' ' then "+"
    else Escaped(c)
  }

  function Escaped(c: char): string {
    "%" + [Hex(c as nat / 16 % 16), Hex(c as nat % 16)]
  }

  /** The serializer of form data. */
  function Encode(s: string): string {
    if s == "" then "" else EncodeUnit(s[0]) + Encode(s[1..])
  }

  function Decode(s: string): (r: string)
    ensures |r| <= |s|
  {
    if s == "" then ""
    else if s[0] == '+' then " " + Decode(s[1..])
    else if |s| >= 3 && s[0] == '%' && HexValue(s[1]).Some? && HexValue(s[2]).Some?
    then [(16 * HexValue(s[1]).value + HexValue(s[2]).value) as char] + Decode(s[3..])
    else [s[0]] + Decode(s[1..])
  }

  // ----------------------------------------------------------------- queries

  /** The value of one pair of a query, if its name is the one asked for. */
  function PairValue(pair: string, name: string): (value: Option<string>)
    ensures value.Some? ==> |value.value| <= |pair|
  {
    var eq := Find(pair, "=");
    if pair != "" && Decode(pair[..eq]) == name then Some(Decode(if eq < |pair| then pair[eq + 1..] else "")) else None
  }

  /** The first value of a name in a query. */
  function Lookup(query: string, name: string): (value: Option<string>)
    ensures value.Some? ==> |value.value| <= |query|
    decreases |query|
  {
    if query == "" then None
    else
      var end := Find(query, "&");
      var value := PairValue(query[..end], name);
      if value.Some? then value
      else if end == |query| then None
      else Lookup(query[end + 1..], name)
  }

  function RedirectParam(search: string): Option<string> {
    if search == "" then None else Lookup(search[1..], "redirect")
  }

  /** The query of a target, with its question mark, unless it is empty. */
  function SearchOf(target: string): string {
    var all := target[..Find(target, "#")];
    var search := all[Find(all, "?")..];
    if |search| > 1 then search else ""
  }

  function PathOf(target: string): string {
    target[..Find(target, "?#")]
  }

  // ----------------------------------------------------------------- targets

  predicate Slash(c: char) { c == '/' || c == '\\' }

  predicate SiteRelative(target: string) {
    target != "" && Slash(target[0]) && !SchemeRelative(target)
  }

  predicate SchemeRelative(target: string) {
    |target| >= 2 && Slash(target[0]) && Slash(target[1])
  }

  function AfterSlashes(s: string): string {
    if s != "" && Slash(s[0]) then AfterSlashes(s[1..]) else s
  }

  function TrimmedLeft(s: string): (r: string)
    ensures |r| <= |s|
  {
    if s != "" && s[0] <= ' ' then TrimmedLeft(s[1..]) else s
  }

  function TrimmedRight(s: string): (r: string)
    ensures |r| <= |s|
  {
    if s != "" && s[|s| - 1] <= ' ' then TrimmedRight(s[..|s| - 1]) else s
  }

  function WithoutTabs(s: string): (r: string)
    ensures |r| <= |s|
  {
    if s == "" then "" else (if s[0] == '\t' || s[0] == '\n' || s[0] == '\r' then [] else [s[0]]) + WithoutTabs(s[1..])
  }

  /** Controls and spaces at the ends go, and tabs and line ends anywhere. */
  function Cleaned(s: string): (r: string)
    ensures |r| <= |s|
  {
    WithoutTabs(TrimmedRight(TrimmedLeft(s)))
  }

  predicate Letter(c: char) { 'a' <= c <= 'z' || 'A' <= c <= 'Z' }

  /** How many leading characters may stand in a scheme. */
  function SchemeRun(s: string): (n: nat)
    ensures n <= |s|
  {
    if s != "" && (Letter(s[0]) || '0' <= s[0] <= '9' || s[0] == '+' || s[0] == '-' || s[0] == '.') then 1 + SchemeRun(s[1..]) else 0
  }

  predicate HasScheme(s: string) {
    s != "" && Letter(s[0]) && SchemeRun(s) < |s| && s[SchemeRun(s)] == ':'
  }

  function Lowered(s: string): string {
    seq(|s|, i requires 0 <= i < |s| => if 'A' <= s[i] <= 'Z' then (s[i] as int + 32) as char else s[i])
  }

  /** A target with the scheme of the base is as relative as one with none. */
  predicate OtherScheme(scheme: string, target: string) {
    HasScheme(target) && Lowered(target[..SchemeRun(target)]) != scheme
  }

  function WithoutScheme(target: string): (r: string)
    ensures |r| <= |target|
  {
    if HasScheme(target) then target[SchemeRun(target) + 1..] else target
  }

  /** Nothing, or a fragment only: the address stays that of the base. */
  predicate KeepsBase(relative: string) {
    relative == "" || relative[0] == '#'
  }

  /** A target that resolves to the page it stands on. */
  predicate StaysPut(scheme: string, target: string) {
    !OtherScheme(scheme, Cleaned(target)) && KeepsBase(WithoutScheme(Cleaned(target)))
  }

  /** `new URL(target, base)`. */
  function Resolve(p: Parser, base: Url, target: string): Option<Url> {
    var cleaned := Cleaned(target);
    if OtherScheme(base.scheme, cleaned) then
      var place := p.elsewhere(cleaned);
      if place.None? then None
      else Some(Url(place.value.scheme, place.value.host, place.value.path, SearchOf(cleaned)))
    else Against(p, base, WithoutScheme(cleaned))
  }

  /** A relative target, by its first characters. */
  function Against(p: Parser, base: Url, relative: string): Option<Url> {
    if KeepsBase(relative) then Some(base)
    else if SchemeRelative(relative) then
      var rest := AfterSlashes(PathOf(relative));
      var authority := p.authority(rest[..Find(rest, "/\\")]);
      if authority.None? then None
      else Some(Url(base.scheme, authority.value, p.normalise(rest[Find(rest, "/\\")..]), SearchOf(relative)))
    else if SiteRelative(relative) then
      Some(base.(path := p.normalise(PathOf(relative)), search := SearchOf(relative)))
    else if relative[0] == '?' then Some(base.(search := SearchOf(relative)))
    else Some(base.(path := p.join(base.path, PathOf(relative)), search := SearchOf(relative)))
  }

  // --------------------------------------------------------------- middleware

  function HostName(host: string): string {
    host[..Find(host, ":")]
  }

  predicate IsLegacy(url: Url) {
    HostName(url.host) == LEGACY_HOST
  }

  /** The paths the middleware is registered for. */
  predicate Matched(path: string) {
    !StartsWith(path, "/api") && !StartsWith(path, "/_next/static") && !StartsWith(path, "/_next/image")
    && !FaviconLike(path)
  }

  /** The dot of `favicon.ico` is a wildcard of the matcher. */
  predicate FaviconLike(path: string) {
    StartsWith(path, "/favicon") && |path| >= 12 && path[9..12] == "ico"
  }

  predicate IsPublic(path: string, production: bool) {
    || path == "/" || path == "/health" || path == "/install" || path == "/offline"
    || (!production && path == "/dev-preview")
    || StartsWith(path, "/_next") || StartsWith(path, "/api") || '.' in path
  }

  predicate IsAuthPage(path: string) {
    StartsWith(path, "/login") || StartsWith(path, "/register") || StartsWith(path, "/mfa")
  }

  function Target(search: string): string {
    if Truthy(RedirectParam(search)) then RedirectParam(search).value else "/dashboard"
  }

  function LoginSearch(destination: string): string {
    "?" + ("redirect" + ("=" + Encode(destination)))
  }

  /** Where a signed-out visitor of `url` is sent. */
  function LoginPage(url: Url): Url {
    url.(path := "/login", search := LoginSearch(url.path + url.search))
  }

  function Respond(site: Site, url: Url, signedIn: bool): Response {
    if !Matched(url.path) then Pass
    else if IsLegacy(url) then
      Redirect(url.(scheme := "https", host := CANONICAL_HOST + url.host[Find(url.host, ":")..]), true)
    else if IsPublic(url.path, site.production) then Pass
    else if IsAuthPage(url.path) then
      if signedIn then
        var next := Resolve(site.parser, url, Target(url.search));
        if next.Some? then Redirect(next.value, false) else Throws
      else Pass
    else if !signedIn then Redirect(LoginPage(url), false)
    else Pass
  }

  // ------------------------------------------------------------------ chains

  predicate Leaves(site: Site, url: Url) {
    !site.serves(HostName(url.host))
  }

  /** How much redirecting a signed-in, or signed-out, visitor can still go through. */
  function Fuel(site: Site, url: Url, signedIn: bool): nat {
    if IsPublic(url.path, site.production) then 0
    else if !signedIn then (if IsAuthPage(url.path) then 0 else 1)
    else if !IsAuthPage(url.path) then 0
    else 1 + (if Truthy(RedirectParam(url.search)) then |RedirectParam(url.search).value| else 0)
  }

  function Flag(url: Url): nat {
    if IsLegacy(url) then 1 else 0
  }

  lemma ValueShrinks(pair: string, name: string)
    ensures var value := PairValue(pair, name);
      value.Some? ==> value.value == "" || |value.value| + |name| + 1 <= |pair|
  {
  }

  lemma {:induction false} LookupShrinks(query: string, name: string)
    ensures var value := Lookup(query, name);
      value.Some? ==> value.value == "" || |value.value| + |name| + 1 <= |query|
    decreases |query|
  {
    if query != "" {
      var end := Find(query, "&");
      ValueShrinks(query[..end], name);
      if end < |query| {
        LookupShrinks(query[end + 1..], name);
      }
    }
  }

  /** A nested target is at least ten characters shorter than the one it stands in. */
  lemma NestedTargetShrinks(target: string)
    ensures Truthy(RedirectParam(SearchOf(target))) ==> |RedirectParam(SearchOf(target)).value| + 10 <= |target|
  {
    var search := SearchOf(target);
    if search != "" {
      LookupShrinks(search[1..], "redirect");
    }
  }

  lemma AgainstSearch(p: Parser, base: Url, relative: string)
    requires !KeepsBase(relative) && Against(p, base, relative).Some?
    ensures Against(p, base, relative).value.search == SearchOf(relative)
  {
  }

  /** What is asked for at a resolved target, unless that stays put, stands within the target. */
  lemma ResolvedSearch(p: Parser, base: Url, target: string)
    requires !StaysPut(base.scheme, target) && Resolve(p, base, target).Some?
    ensures var next := Resolve(p, base, target).value;
      Truthy(RedirectParam(next.search)) ==> |RedirectParam(next.search).value| + 10 <= |target|
  {
    var cleaned := Cleaned(target);
    if OtherScheme(base.scheme, cleaned) {
      NestedTargetShrinks(cleaned);
    } else {
      AgainstSearch(p, base, WithoutScheme(cleaned));
      NestedTargetShrinks(WithoutScheme(cleaned));
    }
  }

  lemma CanonicalIsNotLegacy(host: string)
    ensures HostName(CANONICAL_HOST + host[Find(host, ":")..]) == CANONICAL_HOST
  {
    var suffix := host[Find(host, ":")..];
    FindAppended(CANONICAL_HOST, suffix, ":");
    assert suffix != "" ==> suffix[0] == ':';
  }

  lemma {:induction false} FindAppended(s: string, t: string, any: string)
    requires forall c :: c in s ==> c !in any
    requires t == "" || t[0] in any
    ensures Find(s + t, any) == |s| && (s + t)[..|s|] == s
  {
    if s == "" {
      assert s + t == t;
    } else {
      assert (s + t)[1..] == s[1..] + t;
      FindAppended(s[1..], t, any);
    }
  }

  /** The dashboard is where its address says. */
  predicate Sane(p: Parser) {
    p.normalise("/dashboard") == "/dashboard"
  }

  predicate SimpleChar(c: char) { c > ' ' && c != '?' && c != '#' }

  /** A path that starts with one slash and has neither query nor fragment. */
  predicate SimplePath(path: string) {
    && |path| >= 2 && path[0] == '/' && !Slash(path[1])
    && forall i :: 0 <= i < |path| ==> SimpleChar(path[i])
  }

  lemma SimplePathResolves(p: Parser, base: Url, path: string)
    requires SimplePath(path)
    ensures Resolve(p, base, path) == Some(base.(path := p.normalise(path), search := ""))
  {
    CleanedPlain(path);
    PathOfPlain(path);
    NoSearch(path);
  }

  lemma NoSearch(path: string)
    requires forall i :: 0 <= i < |path| ==> SimpleChar(path[i])
    ensures SearchOf(path) == ""
  {
    FindNone(path, "#");
    assert path[..|path|] == path;
    FindNone(path, "?");
  }

  lemma DashboardIsSimple()
    ensures SimplePath("/dashboard")
  {
    assert "/dashboard"[1] == 'd';
  }

  lemma {:induction false} WithoutTabsPlain(s: string)
    requires forall i :: 0 <= i < |s| ==> s[i] > ' '
    ensures WithoutTabs(s) == s
  {
    if s != "" {
      WithoutTabsPlain(s[1..]);
    }
  }

  lemma CleanedPlain(s: string)
    requires forall i :: 0 <= i < |s| ==> s[i] > ' '
    ensures Cleaned(s) == s
  {
    WithoutTabsPlain(s);
  }

  lemma PathOfPlain(path: string)
    requires forall i :: 0 <= i < |path| ==> path[i] !in "?#"
    ensures PathOf(path) == path
  {
    FindNone(path, "?#");
  }

  lemma DashboardIsNoAuthPage()
    ensures !IsAuthPage("/dashboard")
  {
    var path := "/dashboard";
    assert path[..6][1] == path[..9][1] == path[..4][1] == 'd';
  }

  lemma DashboardRests(site: Site, base: Url)
    requires Sane(site.parser)
    ensures Resolve(site.parser, base, "/dashboard") == Some(base.(path := "/dashboard", search := ""))
    ensures Fuel(site, base.(path := "/dashboard", search := ""), true) == 0
  {
    DashboardIsSimple();
    SimplePathResolves(site.parser, base, "/dashboard");
    DashboardIsNoAuthPage();
  }

  /** A page that sends a signed-in visitor to itself. */
  predicate Loops(site: Site, url: Url, signedIn: bool) {
    && !Leaves(site, url) && signedIn && Guarded(site, url) && !IsLegacy(url) && IsAuthPage(url.path)
    && StaysPut(url.scheme, Target(url.search))
  }

  /** A page the middleware guards: not one that anybody may see. */
  predicate Guarded(site: Site, url: Url) {
    Matched(url.path) && !IsPublic(url.path, site.production)
  }

  lemma FuelBound(site: Site, url: Url)
    ensures Fuel(site, url, true) <= 1 + (if Truthy(RedirectParam(url.search)) then |RedirectParam(url.search).value| else 0)
  {
  }

  lemma FuelDrops(fuel: nat, target: nat)
    requires target > 0 && (fuel <= 1 || fuel + 9 <= target)
    ensures fuel < 1 + target && Auths(fuel) < Auths(1 + target)
  {
  }

  /** Following a target of a signed-in visitor that does not stay put burns fuel. */
  lemma TargetBurnsFuel(site: Site, url: Url)
    requires Sane(site.parser) && IsAuthPage(url.path) && !IsPublic(url.path, site.production)
    ensures Resolve(site.parser, url, Target(url.search)).Some? && !StaysPut(url.scheme, Target(url.search)) ==>
      var next := Resolve(site.parser, url, Target(url.search)).value;
      Auths(Fuel(site, next, true)) < Auths(Fuel(site, url, true)) && Fuel(site, next, true) < Fuel(site, url, true)
  {
    if !Truthy(RedirectParam(url.search)) {
      DashboardRests(site, url);
    } else if Resolve(site.parser, url, Target(url.search)).Some? && !StaysPut(url.scheme, Target(url.search)) {
      var target := RedirectParam(url.search).value;
      var next := Resolve(site.parser, url, target).value;
      ResolvedSearch(site.parser, url, target);
      FuelBound(site, next);
      FuelDrops(Fuel(site, next, true), |target|);
    }
  }

  /** How many auth pages that much fuel can lead through. */
  function Auths(fuel: nat): nat {
    if fuel == 0 then 0 else 1 + (fuel + 8) / 10
  }

  /** The next address of a chain, if it goes on. */
  function NextUrl(site: Site, url: Url, signedIn: bool): Option<Url> {
    if Leaves(site, url) || !Respond(site, url, signedIn).Redirect? then None
    else Some(Respond(site, url, signedIn).url)
  }

  /** The measure of a chain that does not loop: fuel first, then whether the host is the old alias. */
  lemma StepBurns(site: Site, url: Url, signedIn: bool)
    requires Sane(site.parser) && NextUrl(site, url, signedIn).Some? && !Loops(site, url, signedIn)
    ensures var next := NextUrl(site, url, signedIn).value;
      || (Fuel(site, next, signedIn) == Fuel(site, url, signedIn) && Flag(next) < Flag(url))
      || (Fuel(site, next, signedIn) < Fuel(site, url, signedIn) && Flag(url) == 0
          && Auths(Fuel(site, next, signedIn)) < Auths(Fuel(site, url, signedIn)))
  {
    if IsLegacy(url) {
      CanonicalIsNotLegacy(url.host);
    } else if signedIn {
      TargetBurnsFuel(site, url);
    } else {
      LoginIsAuthPage(site);
    }
  }

  /** The chains of a signed-in, or of a signed-out, visitor. */
  function Chains(site: Site, signedIn: bool): System<Url> {
    System(url => NextUrl(site, url, signedIn),
           url => Loops(site, url, signedIn),
           url => Auths(Fuel(site, url, signedIn)),
           url => Flag(url))
  }

  lemma LoopingPageLeadsToItself(site: Site, url: Url, signedIn: bool)
    requires Loops(site, url, signedIn)
    ensures NextUrl(site, url, signedIn) == Some(url)
  {
  }

  lemma ChainsBurn(site: Site, signedIn: bool)
    requires Sane(site.parser)
    ensures Burns(Chains(site, signedIn))
  {
    forall url ensures BurnsAt(Chains(site, signedIn), url) {
      if Loops(site, url, signedIn) {
        LoopingPageLeadsToItself(site, url, signedIn);
      } else if NextUrl(site, url, signedIn).Some? {
        StepBurns(site, url, signedIn);
      }
    }
  }

  /**
   A redirect chain ends exactly if no auth page that it reaches while signed in
   has a target that resolves to that page itself.
   */
  lemma ChainEndsIffNoLoop(site: Site, url: Url, signedIn: bool)
    requires Sane(site.parser)
    ensures Ends(Chains(site, signedIn), url) <==> !ReachesLoop(Chains(site, signedIn), url)
  {
    ChainsBurn(site, signedIn);
    EndsIffNoLoop(Chains(site, signedIn), url);
  }

  /** Where a chain may end: no auth page when signed in, no app page when signed out, and no guarded page of the old alias. */
  predicate MayRest(site: Site, last: Url, signedIn: bool) {
    Guarded(site, last) ==> (IsAuthPage(last.path) <==> !signedIn) && !IsLegacy(last)
  }

  /**
   A chain gets in at most two redirects for every ten characters of the
   outermost target, and five besides, to the page it never leaves, to an
   address off the site, to a target that does not parse, or to a page that may be shown.
   */
  lemma ChainsAreShort(site: Site, url: Url, signedIn: bool) returns (n: nat, last: Url)
    requires Sane(site.parser)
    ensures n <= Flag(url) + 2 * Auths(Fuel(site, url, signedIn))
    ensures Nth(Chains(site, signedIn), url, n) == Some(last)
    ensures Loops(site, last, signedIn) || NextUrl(site, last, signedIn).None?
    ensures Leaves(site, last) || Loops(site, last, signedIn) || Respond(site, last, signedIn).Throws?
         || (Respond(site, last, signedIn) == Pass && MayRest(site, last, signedIn))
  {
    var chains := Chains(site, signedIn);
    ChainsBurn(site, signedIn);
    GetsThereSoon(chains, url);
    n, last := Hops(chains, url), Last(chains, url);
  }

  /** A sign-in page whose target resolves to that page never lets a signed-in visitor go. */
  lemma StayingTargetNeverEnds(site: Site, scheme: string, host: string, target: string)
    requires site.serves(HostName(host)) && HostName(host) != LEGACY_HOST
    requires target != "" && Bytes(target) && StaysPut(scheme, target)
    ensures var url := Url(scheme, host, "/login", LoginSearch(target));
      forall n: nat :: Nth(Chains(site, true), url, n) == Some(url)
  {
    var url := Url(scheme, host, "/login", LoginSearch(target));
    LoginIsAuthPage(site);
    DestinationReadsBack(target);
    LoopingPageLeadsToItself(site, url, true);
    forall n: nat ensures Nth(Chains(site, true), url, n) == Some(url) {
      LoopNeverEnds(Chains(site, true), url, n);
    }
  }

  /** For instance a target that is a fragment. */
  lemma FragmentTargetNeverEnds(site: Site, scheme: string, host: string, fragment: string)
    requires site.serves(HostName(host)) && HostName(host) != LEGACY_HOST
    requires Bytes(fragment) && forall i :: 0 <= i < |fragment| ==> fragment[i] > ' '
    ensures var url := Url(scheme, host, "/login", LoginSearch("#" + fragment));
      forall n: nat :: Nth(Chains(site, true), url, n) == Some(url)
  {
    CleanedPlain("#" + fragment);
    StayingTargetNeverEnds(site, scheme, host, "#" + fragment);
  }

  // ------------------------------------------------ the way back after sign-in

  lemma DecodeUnit(c: char, rest: string)
    requires c as nat < 256
    ensures Decode(EncodeUnit(c) + rest) == [c] + Decode(rest)
  {
    if KeptByForms(c) {
      DecodeOne(c, rest);
    } else if c == ' ' {
      DecodeOne('+', rest);
    } else {
      DecodeEscaped(c, rest);
    }
  }

  lemma DecodeEscaped(c: char, rest: string)
    requires c as nat < 256
    ensures Decode(Escaped(c) + rest) == [c] + Decode(rest)
  {
    var high, low := c as nat / 16 % 16, c as nat % 16;
    HexReadsBack(high);
    HexReadsBack(low);
    DecodeEscape(Hex(high), Hex(low), rest);
    assert 16 * high + low == c as nat;
  }

  lemma DecodeOne(c: char, rest: string)
    requires c != '%'
    ensures Decode([c] + rest) == [if c == '+' then ' ' else c] + Decode(rest)
  {
    assert ([c] + rest)[1..] == rest;
  }

  lemma DecodeEscape(high: char, low: char, rest: string)
    requires HexValue(high).Some? && HexValue(low).Some?
    ensures Decode("%" + [high, low] + rest) == [(16 * HexValue(high).value + HexValue(low).value) as char] + Decode(rest)
  {
    var s := "%" + [high, low] + rest;
    assert s[0] == '%' && s[1] == high && s[2] == low && s[3..] == rest;
  }

  lemma HexReadsBack(d: nat)
    requires d < 16
    ensures HexValue(Hex(d)) == Some(d)
  {
  }

  predicate Bytes(s: string) {
    forall i :: 0 <= i < |s| ==> s[i] as nat < 256
  }

  /** Form decoding undoes form encoding. */
  lemma {:induction false} DecodeUndoesEncode(s: string)
    requires Bytes(s)
    ensures Decode(Encode(s)) == s
  {
    if s != "" {
      DecodeUndoesEncode(s[1..]);
      DecodeUnit(s[0], Encode(s[1..]));
    }
  }

  predicate Special(c: char) { c == '&' || c == '=' || c == '#' || c == '?' }

  predicate Plain(s: string) {
    forall i :: 0 <= i < |s| ==> !Special(s[i])
  }

  lemma UnitIsPlain(c: char)
    ensures Plain(EncodeUnit(c))
  {
    if !KeptByForms(c) && c != ' ' {
      EscapedIsPlain(c);
    }
  }

  lemma HexIsPlain(d: nat)
    requires d < 16
    ensures !Special(Hex(d))
  {
  }

  lemma EscapedIsPlain(c: char)
    ensures Plain(Escaped(c))
  {
    HexIsPlain(c as nat / 16 % 16);
    HexIsPlain(c as nat % 16);
  }

  lemma PlainConcat(a: string, b: string)
    requires Plain(a) && Plain(b)
    ensures Plain(a + b)
  {
  }

  lemma {:induction false} EncodedIsPlain(s: string)
    ensures Plain(Encode(s))
  {
    if s != "" {
      EncodedIsPlain(s[1..]);
      UnitIsPlain(s[0]);
      PlainConcat(EncodeUnit(s[0]), Encode(s[1..]));
    }
  }

  lemma {:induction false} DecodePlain(s: string)
    requires forall i :: 0 <= i < |s| ==> s[i] !in "+%"
    ensures Decode(s) == s
  {
    if s != "" {
      DecodePlain(s[1..]);
    }
  }

  lemma FindNone(s: string, any: string)
    requires forall i :: 0 <= i < |s| ==> s[i] !in any
    ensures Find(s, any) == |s|
  {
  }

  /** A query of one pair. */
  lemma PairReadsBack(name: string, value: string)
    requires name != "" && forall i :: 0 <= i < |name| ==> name[i] !in "+%=&"
    requires forall i :: 0 <= i < |value| ==> value[i] != '&'
    ensures Lookup(name + ("=" + value), name) == Some(Decode(value))
  {
    LookupOfPair(name + ("=" + value), name);
    ValueReadsBack(name, value);
  }

  lemma ValueReadsBack(name: string, value: string)
    requires name != "" && forall i :: 0 <= i < |name| ==> name[i] !in "+%=&"
    ensures PairValue(name + ("=" + value), name) == Some(Decode(value))
  {
    FindAppended(name, "=" + value, "=");
    DecodePlain(name);
    assert (name + ("=" + value))[|name| + 1..] == value;
  }

  lemma LookupOfPair(query: string, name: string)
    requires PairValue(query, name).Some? || query != ""
    requires forall i :: 0 <= i < |query| ==> query[i] != '&'
    ensures Lookup(query, name) == PairValue(query, name)
  {
    FindNone(query, "&");
    assert query[..|query|] == query;
  }

  /** The sign-in page reads back the destination it was given. */
  lemma DestinationReadsBack(s: string)
    requires Bytes(s)
    ensures RedirectParam(LoginSearch(s)) == Some(s)
  {
    EncodedIsPlain(s);
    DecodeUndoesEncode(s);
    PairReadsBack("redirect", Encode(s));
    assert LoginSearch(s)[1..] == "redirect" + ("=" + Encode(s));
  }

  lemma LoginIsAuthPage(site: Site)
    ensures Matched("/login") && !IsPublic("/login", site.production) && IsAuthPage("/login")
  {
    var path := "/login";
    assert path[1] == 'l' && path[..6] == path && path[..4][1] == 'l';
  }

  /** What the URL parser leaves of any request. */
  predicate Requested(p: Parser, url: Url) {
    && url.path != "" && url.path[0] == '/' && Bytes(url.path) && Bytes(url.search)
    && (forall i :: 0 <= i < |url.path| ==> url.path[i] !in "?#" && url.path[i] > ' ')
    && (forall i :: 0 <= i < |url.search| ==> url.search[i] != '#' && url.search[i] > ' ')
    && (url.search == "" || (|url.search| > 1 && url.search[0] == '?'))
    && p.normalise(url.path) == url.path
  }

  function Slashes(s: string): nat {
    if s == "" then 0 else (if Slash(s[0]) then 1 else 0) + Slashes(s[1..])
  }

  /** Normalising adds no path segments. */
  ghost predicate AddsNoSegments(p: Parser) {
    forall path :: Slashes(p.normalise(path)) <= Slashes(path)
  }

  lemma {:induction false} SuffixSlashes(s: string, n: nat)
    requires n <= |s|
    ensures Slashes(s[n..]) <= Slashes(s)
  {
    if n > 0 {
      SuffixSlashes(s[1..], n - 1);
      assert s[1..][n - 1..] == s[n..];
    }
  }

  lemma {:induction false} AfterSlashesFewer(s: string)
    ensures Slashes(AfterSlashes(s)) + (if SchemeRelative(s) then 2 else 0) <= Slashes(s)
  {
    if s != "" && Slash(s[0]) {
      AfterSlashesFewer(s[1..]);
      if SchemeRelative(s) {
        AfterSlashesFewer(s[2..]);
        assert s[1..][1..] == s[2..];
      }
    }
  }

  /** The destination, path and query, splits as it was put together. */
  lemma DestinationSplits(p: Parser, url: Url)
    requires Requested(p, url)
    ensures var target := url.path + url.search;
      && PathOf(target) == url.path && SearchOf(target) == url.search
      && (SchemeRelative(target) <==> SchemeRelative(url.path)) && Slash(target[0])
  {
    var target := url.path + url.search;
    FindAppended(url.path, url.search, "?#");
    FindAppended(url.path, url.search, "?");
    FindNone(target, "#");
    assert target[..|target|] == target && target[|url.path|..] == url.search;
  }

  lemma DestinationIsClean(p: Parser, base: Url, url: Url)
    requires Requested(p, url)
    ensures Resolve(p, base, url.path + url.search) == Against(p, base, url.path + url.search)
  {
    CleanedPlain(url.path + url.search);
  }

  lemma DoubleSlashGoesElsewhere(p: Parser, url: Url)
    requires Requested(p, url) && AddsNoSegments(p) && SchemeRelative(url.path)
    ensures Against(p, LoginPage(url), url.path + url.search) != Some(url)
  {
    DestinationSplits(p, url);
    var rest := AfterSlashes(url.path);
    AfterSlashesFewer(url.path);
    SuffixSlashes(rest, Find(rest, "/\\"));
    assert Slashes(p.normalise(rest[Find(rest, "/\\")..])) < Slashes(url.path);
  }

  /**
   A signed-out visitor of an app page is sent to the sign-in page, and from
   there, once signed in, back to that page with its query: exactly if its path
   does not start with two slashes.
   */
  lemma SignInReturns(site: Site, url: Url)
    requires Requested(site.parser, url) && AddsNoSegments(site.parser)
    requires Guarded(site, url) && !IsAuthPage(url.path) && !IsLegacy(url)
    ensures Respond(site, url, false) == Redirect(LoginPage(url), false)
    ensures Respond(site, LoginPage(url), false) == Pass
    ensures Respond(site, LoginPage(url), true) == Redirect(url, false) <==> !SchemeRelative(url.path)
  {
    LoginIsAuthPage(site);
    assert IsLegacy(LoginPage(url)) == IsLegacy(url);
    DestinationReadsBack(url.path + url.search);
    DestinationIsClean(site.parser, LoginPage(url), url);
    WayBack(site.parser, url);
  }

  /** The destination, resolved on the sign-in page. */
  lemma WayBack(p: Parser, url: Url)
    requires Requested(p, url) && AddsNoSegments(p)
    ensures Against(p, LoginPage(url), url.path + url.search) == Some(url) <==> !SchemeRelative(url.path)
  {
    DestinationSplits(p, url);
    if SchemeRelative(url.path) {
      DoubleSlashGoesElsewhere(p, url);
    }
  }

  /** The paths the middleware is not registered for are public, except those like favicon.ico without a dot. */
  lemma UnmatchedIsPublicIff(site: Site, path: string)
    requires !Matched(path)
    ensures IsPublic(path, site.production) <==> !FaviconLike(path) || '.' in path
  {
    if FaviconLike(path) {
      assert path[..8][1] == path[1] == 'f';
    } else if StartsWith(path, "/_next/static") || StartsWith(path, "/_next/image") {
      assert path[..6] == "/_next";
    }
  }
}
