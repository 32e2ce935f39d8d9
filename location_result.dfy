/** `Trackdown::LocationResult`: the value every lookup returns. */
module LocationResults {
  import opened Wrappers

  /** The white flag "🏳️" (U+1F3F3 followed by the emoji presentation selector U+FE0F). */
  const WHITE_FLAG: string := ['\U{1F3F3}', '\U{FE0F}']

  /**
   * The four attributes set by the positional constructor, and the eight
   * optional enrichment attributes, absent unless given by name.
   */
  datatype LocationResult = LocationResult(
    countryCode: Option<string>,
    countryName: string,
    city: string,
    flagEmoji: string,
    nameonly region: Option<string> := None,
    nameonly regionCode: Option<string> := None,
    nameonly continent: Option<string> := None,
    nameonly timezone: Option<string> := None,
    nameonly latitude: Option<real> := None,
    nameonly longitude: Option<real> := None,
    nameonly postalCode: Option<string> := None,
    nameonly metroCode: Option<string> := None)
  {
    /** `alias_method :country, :country_name`. */
    function Country(): string { countryName }

    /** `alias_method :emoji, :flag_emoji`. */
    function Emoji(): string { flagEmoji }

    /** `alias_method :emoji_flag, :flag_emoji`. */
    function EmojiFlag(): string { flagEmoji }

    /** The enrichment attributes are all absent. */
    predicate HasNoEnrichment() {
      region.None? && regionCode.None? && continent.None? && timezone.None?
      && latitude.None? && longitude.None? && postalCode.None? && metroCode.None?
    }
  }

  /** `LocationResult.new(nil, 'Unknown', 'Unknown', '🏳️')`, returned whenever nothing is known. */
  function UnknownResult(): (r: LocationResult)
    ensures r.countryCode.None? && r.countryName == "Unknown" && r.city == "Unknown" && r.flagEmoji == WHITE_FLAG
    ensures r.HasNoEnrichment()
  {
    LocationResult(None, "Unknown", "Unknown", WHITE_FLAG)
  }

  /** A value in the hash `to_h` returns: a string or `nil`. */
  datatype HashValue = Text(text: string) | Nil

  function FromOption(o: Option<string>): HashValue {
    match o
    case Some(s) => Text(s)
    case None => Nil
  }

  /**
   * `to_h`: a hash with exactly the keys country_code, country_name, city and
   * flag_emoji, holding the four positional attributes.
   */
  function ToHash(r: LocationResult): (h: map<string, HashValue>)
    ensures h.Keys == {"country_code", "country_name", "city", "flag_emoji"}
    ensures h["country_name"] == Text(r.countryName) && h["city"] == Text(r.city) && h["flag_emoji"] == Text(r.flagEmoji)
    ensures h["country_code"].Nil? <==> r.countryCode.None?
  {
    map["country_code" := FromOption(r.countryCode), "country_name" := Text(r.countryName),
        "city" := Text(r.city), "flag_emoji" := Text(r.flagEmoji)]
  }

  /** Rebuilds a result from a hash of the shape `to_h` produces. */
  function FromHash(h: map<string, HashValue>): Option<LocationResult> {
    if "country_code" in h && "country_name" in h && "city" in h && "flag_emoji" in h
       && h["country_name"].Text? && h["city"].Text? && h["flag_emoji"].Text?
    then
      Some(LocationResult(
        if h["country_code"].Text? then Some(h["country_code"].text) else None,
        h["country_name"].text, h["city"].text, h["flag_emoji"].text))
    else None
  }

  /** `to_h` loses only the enrichment attributes: rebuilding from it gives the four positional ones back. */
  lemma FromHashToHash(r: LocationResult)
    ensures FromHash(ToHash(r)) == Some(LocationResult(r.countryCode, r.countryName, r.city, r.flagEmoji))
  {
  }

  /** Two results have the same hash exactly when their four positional attributes agree. */
  lemma ToHashInjective(r1: LocationResult, r2: LocationResult)
    ensures ToHash(r1) == ToHash(r2) <==>
      (r1.countryCode, r1.countryName, r1.city, r1.flagEmoji) == (r2.countryCode, r2.countryName, r2.city, r2.flagEmoji)
  {
    if ToHash(r1) == ToHash(r2) {
      FromHashToHash(r1);
      FromHashToHash(r2);
    }
  }
}
