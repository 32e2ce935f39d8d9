/**
 * `Trackdown::Providers::CloudflareProvider`: location taken from the
 * headers Cloudflare adds to a proxied request, without any lookup of the IP.
 */
module CloudflareProvider {
  import opened Wrappers
  import opened Text
  import opened Errors
  import opened LocationResults
  import BaseProvider

  const COUNTRY_HEADER: string := "HTTP_CF_IPCOUNTRY"
  const CITY_HEADER: string := "HTTP_CF_IPCITY"
  /** Cloudflare's code for "country unknown". */
  const UNKNOWN_CODE: string := "XX"
  /** Cloudflare's code for Tor exit nodes; treated like any other code. */
  const TOR_CODE: string := "T1"

  /** `request.env`: the Rack environment of the request, header names to values. */
  type Env = map<string, string>

  /** `available?`: there is a request whose country header is present, non-empty and not "XX". */
  predicate Available(request: Option<Env>) {
    request.Some? && COUNTRY_HEADER in request.value
    && request.value[COUNTRY_HEADER] != "" && request.value[COUNTRY_HEADER] != UNKNOWN_CODE
  }

  /** `extract_country_code`: the country header in capitals, or `nil` when missing, empty or "XX". */
  function ExtractCountryCode(env: Env): (r: Option<string>)
    ensures r.None? <==> COUNTRY_HEADER !in env || env[COUNTRY_HEADER] in {"", UNKNOWN_CODE}
    ensures r.Some? ==> r.value != "" && Upcase(r.value) == r.value && r.value == Upcase(env[COUNTRY_HEADER])
  {
    if COUNTRY_HEADER !in env || env[COUNTRY_HEADER] == "" || env[COUNTRY_HEADER] == UNKNOWN_CODE then None
    else
      UpcaseIdempotent(env[COUNTRY_HEADER]);
      Some(Upcase(env[COUNTRY_HEADER]))
  }

  /** `extract_city`: the city header, or "Unknown" when it is missing or empty. */
  function ExtractCity(env: Env): (r: string)
    ensures r != ""
    ensures CITY_HEADER in env && env[CITY_HEADER] != "" ==> r == env[CITY_HEADER]
    ensures CITY_HEADER !in env || env[CITY_HEADER] == "" ==> r == "Unknown"
  {
    if CITY_HEADER !in env || env[CITY_HEADER] == "" then "Unknown" else env[CITY_HEADER]
  }

  /**
   * `locate`: without a request, a `Trackdown::Error`. With one, the unknown
   * result when the country code is missing or "XX" after upcasing; otherwise
   * the upcased code, its name from the `countries` gem (`lookup`), the city
   * header and the code's flag. The IP argument is not used.
   */
  function Locate(lookup: string -> Option<string>, ip: Option<string>, request: Option<Env>): (r: Result<LocationResult, Error>)
    ensures request.None? ==> r == Err(Error(TrackdownError, "CloudflareProvider requires a request object with Cloudflare headers"))
    ensures request.Some? ==> r.Ok?
    ensures r.Ok? ==> r.value.HasNoEnrichment()
    ensures r.Ok? ==> r.value.flagEmoji == BaseProvider.EmojiFlag(r.value.countryCode)
    ensures r.Ok? && r.value.countryCode.Some? ==>
      request.Some? && COUNTRY_HEADER in request.value &&
      var code := r.value.countryCode.value;
      code == Upcase(request.value[COUNTRY_HEADER]) && code != "" && code != UNKNOWN_CODE
      && r.value.countryName == BaseProvider.CountryName(lookup, Some(code))
      && r.value.city == ExtractCity(request.value)
    ensures r.Ok? && r.value.countryCode.None? ==> r.value == UnknownResult()
    ensures request.Some? && (COUNTRY_HEADER !in request.value || Upcase(request.value[COUNTRY_HEADER]) in {"", UNKNOWN_CODE})
      ==> r == Ok(UnknownResult())
  {
    match request
    case None => Err(Error(TrackdownError, "CloudflareProvider requires a request object with Cloudflare headers"))
    case Some(env) =>
      var code := ExtractCountryCode(env);
      if code.None? || code.value == UNKNOWN_CODE then Ok(UnknownResult())
      else
        Ok(LocationResult(code, BaseProvider.CountryName(lookup, code), ExtractCity(env), BaseProvider.EmojiFlag(code)))
  }

  /** The result depends only on the request, never on the IP passed in. */
  lemma LocateIgnoresIp(lookup: string -> Option<string>, ip1: Option<string>, ip2: Option<string>, request: Option<Env>)
    ensures Locate(lookup, ip1, request) == Locate(lookup, ip2, request)
  {
  }

  /** When the provider is available, a known result (a country code) comes back unless the header is "xx" in some case mix. */
  lemma {:induction false} AvailableGivesCountry(lookup: string -> Option<string>, ip: Option<string>, env: Env)
    requires Available(Some(env))
    ensures Locate(lookup, ip, Some(env)).value.countryCode.Some? <==> Upcase(env[COUNTRY_HEADER]) != UNKNOWN_CODE
  {
  }

  /** A lower-case "xx" header makes the provider available, yet the lookup gives the unknown result. */
  lemma LowerCaseXxIsAvailableButUnknown(lookup: string -> Option<string>, ip: Option<string>, env: Env)
    requires COUNTRY_HEADER in env && env[COUNTRY_HEADER] == "xx"
    ensures Available(Some(env))
    ensures Locate(lookup, ip, Some(env)) == Ok(UnknownResult())
  {
    assert Upcase("xx") == "XX";
  }

  /** The Tor code "T1" is kept as the country code and gets the regional-indicator flag for T and 1 kept as is. */
  lemma TorCodeIsKept(lookup: string -> Option<string>, ip: Option<string>, env: Env)
    requires COUNTRY_HEADER in env && env[COUNTRY_HEADER] == TOR_CODE
    ensures Available(Some(env))
    ensures Locate(lookup, ip, Some(env)).value.countryCode == Some(TOR_CODE)
    ensures Locate(lookup, ip, Some(env)).value.flagEmoji == ['\U{1F1F9}', '1']
    ensures lookup(TOR_CODE).None? ==> Locate(lookup, ip, Some(env)).value.countryName == "Unknown"
  {
    assert Upcase(TOR_CODE) == TOR_CODE;
  }

  /** A lower-case header is upcased: "us" gives the code "US" and the flag 🇺🇸. */
  lemma LowerCaseCodeIsUpcased(lookup: string -> Option<string>, ip: Option<string>, env: Env)
    requires COUNTRY_HEADER in env && env[COUNTRY_HEADER] == "us"
    ensures Locate(lookup, ip, Some(env)).value.countryCode == Some("US")
    ensures Locate(lookup, ip, Some(env)).value.flagEmoji == ['\U{1F1FA}', '\U{1F1F8}']
  {
    assert Upcase("us") == "US";
    BaseProvider.UsFlag();
  }
}
