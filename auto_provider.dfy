/**
 * `Trackdown::Providers::AutoProvider`: Cloudflare's headers when they are
 * present and describe the same client IP, else the MaxMind database, else
 * the unknown result; each fallback warning is written once per process.
 */
module AutoProvider {
  import opened Wrappers
  import opened Text
  import opened Errors
  import opened IpAddr
  import opened Host
  import opened Configuration
  import opened LocationResults
  import opened Trackdown
  import CloudflareProvider
  import MaxmindProvider

  const CF_CONNECTING_IP_HEADER: string := "HTTP_CF_CONNECTING_IP"

  /** A warning written to the Rails log (or standard error outside Rails). */
  datatype Warning =
    | IpMismatchWarning(requestIp: string, connectingIp: string)
    | NoProvidersWarning
  {
    /** The text of the warning. */
    function Message(): string {
      match this
      case IpMismatchWarning(requestIp, connectingIp) =>
        "[Trackdown] IP mismatch detected: request IP (" + requestIp + ") differs from CF-Connecting-IP (" + connectingIp
          + "). This usually means there's an upstream proxy before Cloudflare. Falling back to MaxMind for accurate geolocation."
      case NoProvidersWarning =>
        "[Trackdown] No IP geolocation provider available. Returning 'Unknown' for all lookups. Configure Cloudflare headers or MaxMind to enable geolocation. See: https://github.com/rameerez/trackdown"
    }
  }

  /** The mismatch warning for this call: the IP as given and the connecting-IP header, `nil` shown as empty text. */
  function MismatchWarning(ip: Option<string>, request: Option<CloudflareProvider.Env>): Warning {
    IpMismatchWarning(ip.GetOr(""),
      if request.Some? && CF_CONNECTING_IP_HEADER in request.value then request.value[CF_CONNECTING_IP_HEADER] else "")
  }

  /**
   * `normalize_ip`: `nil` for `nil` or blank text; otherwise the stripped text
   * parsed as an address, an IPv4-mapped IPv6 address replaced by its IPv4
   * address, printed and downcased; text that does not parse is only
   * stripped and downcased.
   */
  function NormalizeIp(world: World, ip: Option<string>): (r: Option<string>)
    ensures r.None? <==> ip.None? || AllWhitespace(ip.value)
    ensures r.Some? ==> forall i :: 0 <= i < |r.value| ==> !IsUpperAscii(r.value[i])
    ensures r.Some? && Parse(world.parseOther, Strip(ip.value)).None? ==> r.value == Downcase(Strip(ip.value))
  {
    match ip
    case None => None
    case Some(text) =>
      var v := Strip(text);
      if v == [] then None
      else
        match Parse(world.parseOther, v)
        case Some(a) => Some(Downcase(Show(world.showV6, Native(a))))
        case None => Some(Downcase(v))
  }

  /** Two texts that parse to the same address have the same normal form. */
  lemma SameAddressSameForm(world: World, t1: string, t2: string)
    requires Parse(world.parseOther, Strip(t1)).Some? && Parse(world.parseOther, Strip(t1)) == Parse(world.parseOther, Strip(t2))
    ensures NormalizeIp(world, Some(t1)) == NormalizeIp(world, Some(t2))
  {
  }

  /** ::ffff:a.b.c.d and a.b.c.d have the same normal form, however the IPv6 form is written. */
  lemma MappedFormMatchesIpv4(world: World, t6: string, x: U32)
    requires Parse(world.parseOther, Strip(t6)) == Some(Ipv4Mapped(x))
    ensures NormalizeIp(world, Some(t6)) == NormalizeIp(world, Some(ShowV4(x)))
  {
    NormalFormOfParsed(world, t6, Ipv4Mapped(x));
    NativeOfMapped(x);
    ShowV4Characters(x);
    DowncaseNoCapitals(ShowV4(x));
    DottedQuadNormalForm(world, x);
  }

  /** A printed IPv4 address is already in normal form. */
  lemma DottedQuadNormalForm(world: World, x: U32)
    ensures NormalizeIp(world, Some(ShowV4(x))) == Some(ShowV4(x))
  {
    ShowV4Characters(x);
    ParseShowV4(world.parseOther, x);
    CanonicalTextNormalForm(world, ShowV4(x), V4(x));
  }

  /** Trimmed text without capitals that parses and prints back as itself is its own normal form. */
  lemma CanonicalTextNormalForm(world: World, t: string, a: Addr)
    requires t != [] && !IsWhitespace(t[0]) && !IsWhitespace(t[|t| - 1])
    requires forall i :: 0 <= i < |t| ==> !IsUpperAscii(t[i])
    requires Parse(world.parseOther, t) == Some(a) && Show(world.showV6, Native(a)) == t
    ensures NormalizeIp(world, Some(t)) == Some(t)
  {
    StripTrimmed(t);
    DowncaseNoCapitals(t);
  }

  /** Text that parses once stripped is normalised to the downcased printed form of its address, IPv4-mapped ones as IPv4. */
  lemma NormalFormOfParsed(world: World, t: string, a: Addr)
    requires Parse(world.parseOther, Strip(t)) == Some(a)
    ensures NormalizeIp(world, Some(t)) == Some(Downcase(Show(world.showV6, Native(a))))
  {
  }

  /** Surrounding whitespace never matters. */
  lemma PaddingIgnored(world: World, t: string)
    ensures NormalizeIp(world, Some(t)) == NormalizeIp(world, Some(Strip(t)))
  {
    StripIdempotent(t);
    if AllWhitespace(t) {
      assert Strip(t) == [];
    }
  }

  /**
   * `cloudflare_ip_matches?`: true without a request or without a non-empty
   * connecting-IP header; otherwise whether the IP and the header have the
   * same normal form.
   */
  function IpsMatch(world: World, ip: Option<string>, request: Option<CloudflareProvider.Env>): (b: bool)
    ensures request.None? ==> b
    ensures request.Some? && (CF_CONNECTING_IP_HEADER !in request.value || request.value[CF_CONNECTING_IP_HEADER] == "") ==> b
  {
    match request
    case None => true
    case Some(env) =>
      if CF_CONNECTING_IP_HEADER !in env || env[CF_CONNECTING_IP_HEADER] == "" then true
      else NormalizeIp(world, ip) == NormalizeIp(world, Some(env[CF_CONNECTING_IP_HEADER]))
  }

  /** An IP always matches a connecting-IP header holding the same text. */
  lemma IpsMatchSameText(world: World, ip: string, request: CloudflareProvider.Env)
    requires CF_CONNECTING_IP_HEADER in request && request[CF_CONNECTING_IP_HEADER] == ip
    ensures IpsMatch(world, Some(ip), Some(request))
  {
  }

  /** Matching is symmetric: swapping the IP and the connecting-IP header gives the same answer. */
  lemma IpsMatchSymmetric(world: World, a: string, b: string, env: CloudflareProvider.Env)
    requires a != "" && b != ""
    ensures IpsMatch(world, Some(a), Some(env[CF_CONNECTING_IP_HEADER := b]))
      == IpsMatch(world, Some(b), Some(env[CF_CONNECTING_IP_HEADER := a]))
  {
  }

  /** The provider `locate` ends up using. */
  datatype Route = ViaCloudflare | ViaMaxmind | ViaNone

  /** Cloudflare when it is available and the IPs match; else MaxMind when available; else nothing. */
  function Decide(cloudflareAvailable: bool, ipsMatch: bool, maxmindAvailable: bool): (route: Route)
    ensures route == ViaCloudflare <==> cloudflareAvailable && ipsMatch
    ensures route == ViaMaxmind <==> !(cloudflareAvailable && ipsMatch) && maxmindAvailable
    ensures route == ViaNone <==> !(cloudflareAvailable && ipsMatch) && !maxmindAvailable
  {
    if cloudflareAvailable && ipsMatch then ViaCloudflare
    else if maxmindAvailable then ViaMaxmind
    else ViaNone
  }

  /** `available?`: at least one of the two providers is available. */
  predicate Available(world: World, s: Settings, request: Option<CloudflareProvider.Env>) {
    CloudflareProvider.Available(request) || MaxmindProvider.Available(world, s)
  }

  /** Cloudflare's headers are present but the connecting IP is another client's. */
  predicate Mismatch(world: World, ip: Option<string>, request: Option<CloudflareProvider.Env>) {
    CloudflareProvider.Available(request) && !IpsMatch(world, ip, request)
  }

  function RouteOf(world: World, s: Settings, ip: Option<string>, request: Option<CloudflareProvider.Env>): Route {
    Decide(CloudflareProvider.Available(request), IpsMatch(world, ip, request), MaxmindProvider.Available(world, s))
  }

  /** `locate` against settings `s` and the MaxMind reader pool `pool`. */
  function Locate(world: World, s: Settings, pool: MaxmindDb.Pool, ip: Option<string>, request: Option<CloudflareProvider.Env>)
    : (r: Result<LocationResult, Error>)
    ensures RouteOf(world, s, ip, request) == ViaCloudflare ==> r == CloudflareProvider.Locate(world.countryName, ip, request) && r.Ok?
    ensures RouteOf(world, s, ip, request) == ViaMaxmind ==> r == MaxmindProvider.Locate(world, s, pool, ip)
    ensures RouteOf(world, s, ip, request) == ViaNone ==> r == Ok(UnknownResult())
    ensures r.Err? ==> RouteOf(world, s, ip, request) == ViaMaxmind && (IsTrackdownError(r.error.kind) || r.error.kind == NotImplemented)
  {
    match RouteOf(world, s, ip, request)
    case ViaCloudflare => CloudflareProvider.Locate(world.countryName, ip, request)
    case ViaMaxmind => MaxmindProvider.Locate(world, s, pool, ip)
    case ViaNone => Ok(UnknownResult())
  }

  /** With nothing available the result is the unknown one; it can also be unknown when Cloudflare is available but disagrees about the IP. */
  lemma NothingAvailableGivesUnknown(world: World, s: Settings, pool: MaxmindDb.Pool, ip: Option<string>, request: Option<CloudflareProvider.Env>)
    ensures !Available(world, s, request) ==> Locate(world, s, pool, ip, request) == Ok(UnknownResult())
    ensures RouteOf(world, s, ip, request) == ViaNone && Available(world, s, request)
      ==> CloudflareProvider.Available(request) && !IpsMatch(world, ip, request)
  {
  }

  /** Without a connecting-IP header, available Cloudflare headers are always used, whatever MaxMind offers. */
  lemma NoConnectingIpHeaderUsesCloudflare(world: World, s: Settings, pool: MaxmindDb.Pool, ip: Option<string>, env: CloudflareProvider.Env)
    requires CloudflareProvider.Available(Some(env)) && CF_CONNECTING_IP_HEADER !in env
    ensures Locate(world, s, pool, ip, Some(env)) == CloudflareProvider.Locate(world.countryName, ip, Some(env))
  {
  }

  /** A connecting-IP header in IPv4-mapped form is recognised as the same client as the plain IPv4 address. */
  lemma MappedHeaderUsesCloudflare(world: World, s: Settings, pool: MaxmindDb.Pool, x: U32, env: CloudflareProvider.Env)
    requires CloudflareProvider.Available(Some(env)) && CF_CONNECTING_IP_HEADER in env
    requires Parse(world.parseOther, Strip(env[CF_CONNECTING_IP_HEADER])) == Some(Ipv4Mapped(x))
    ensures Locate(world, s, pool, Some(ShowV4(x)), Some(env)) == CloudflareProvider.Locate(world.countryName, Some(ShowV4(x)), Some(env))
  {
    MappedFormMatchesIpv4(world, env[CF_CONNECTING_IP_HEADER], x);
  }

  /** When the connecting IP is a different IPv4 address, MaxMind answers if it can. */
  lemma MismatchFallsBackToMaxmind(world: World, s: Settings, pool: MaxmindDb.Pool, x: U32, y: U32, env: CloudflareProvider.Env)
    requires x != y && CloudflareProvider.Available(Some(env))
    requires CF_CONNECTING_IP_HEADER in env && env[CF_CONNECTING_IP_HEADER] == ShowV4(y)
    requires MaxmindProvider.Available(world, s)
    ensures Locate(world, s, pool, Some(ShowV4(x)), Some(env)) == MaxmindProvider.Locate(world, s, pool, Some(ShowV4(x)))
  {
    DottedQuadNormalForm(world, x);
    DottedQuadNormalForm(world, y);
    ParseShowV4(world.parseOther, x);
    ParseShowV4(world.parseOther, y);
  }

  /** The provider, holding the two once-per-process warning flags. */
  class AutoProvider {
    var warnedNoProviders: bool
    var warnedIpMismatch: bool

    constructor()
      ensures !warnedNoProviders && !warnedIpMismatch
    {
      warnedNoProviders := false;
      warnedIpMismatch := false;
    }

    /** `warn_ip_mismatch`: writes the mismatch warning the first time only. */
    method WarnIpMismatch(ip: Option<string>, request: Option<CloudflareProvider.Env>) returns (log: seq<Warning>)
      modifies this
      ensures warnedIpMismatch && warnedNoProviders == old(warnedNoProviders)
      ensures log == if old(warnedIpMismatch) then [] else [MismatchWarning(ip, request)]
    {
      if warnedIpMismatch {
        return [];
      }
      warnedIpMismatch := true;
      log := [MismatchWarning(ip, request)];
    }

    /** `warn_no_providers`: writes the no-provider warning the first time only. */
    method WarnNoProviders() returns (log: seq<Warning>)
      modifies this
      ensures warnedNoProviders && warnedIpMismatch == old(warnedIpMismatch)
      ensures log == if old(warnedNoProviders) then [] else [NoProvidersWarning]
    {
      if warnedNoProviders {
        return [];
      }
      warnedNoProviders := true;
      log := [NoProvidersWarning];
    }

    /**
     * `locate`: returns `Locate` for the settings `Trackdown.configuration`
     * yields and MaxMind's memoised pool, and the warnings written. A
     * Cloudflare answer leaves the MaxMind provider, the configuration and
     * the flags untouched.
     */
    method LocateNow(mm: MaxmindProvider.MaxmindProvider, root: Root, world: World, ip: Option<string>, request: Option<CloudflareProvider.Env>)
      returns (r: Result<LocationResult, Error>, log: seq<Warning>)
      modifies this, mm, root
      ensures CurrentSettings(root, world) == old(CurrentSettings(root, world))
      ensures old(root.configuration) != null ==> root.configuration == old(root.configuration)
      ensures r == Locate(world, CurrentSettings(root, world), Trackdown.PoolAfter(old(mm.readerPool), CurrentSettings(root, world)), ip, request)
      ensures RouteOf(world, CurrentSettings(root, world), ip, request) == ViaCloudflare ==>
        root.configuration == old(root.configuration) && mm.readerPool == old(mm.readerPool)
      ensures RouteOf(world, CurrentSettings(root, world), ip, request) != ViaMaxmind ==> mm.readerPool == old(mm.readerPool)
      ensures RouteOf(world, CurrentSettings(root, world), ip, request) == ViaMaxmind ==>
        mm.readerPool == Some(Trackdown.PoolAfter(old(mm.readerPool), CurrentSettings(root, world)))
      ensures warnedIpMismatch == (old(warnedIpMismatch) || Mismatch(world, ip, request))
      ensures warnedNoProviders == (old(warnedNoProviders) || RouteOf(world, CurrentSettings(root, world), ip, request) == ViaNone)
      ensures log == (if Mismatch(world, ip, request) && !old(warnedIpMismatch) then [MismatchWarning(ip, request)] else [])
        + (if RouteOf(world, CurrentSettings(root, world), ip, request) == ViaNone && !old(warnedNoProviders) then [NoProvidersWarning] else [])
    {
      var first: seq<Warning> := [];
      var second: seq<Warning> := [];
      if CloudflareProvider.Available(request) {
        if IpsMatch(world, ip, request) {
          r := CloudflareProvider.Locate(world.countryName, ip, request);
          log := first + second;
          return;
        }
        first := WarnIpMismatch(ip, request);
      }
      var mmAvailable := mm.AvailableNow(root, world);
      if mmAvailable {
        r := mm.LocateNow(root, world, ip);
      } else {
        second := WarnNoProviders();
        r := Ok(UnknownResult());
      }
      log := first + second;
    }
  }
}
