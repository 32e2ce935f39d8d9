/**
 * The MaxMind GeoLite2-City record as the core reads it, the field
 * extraction shared by `ip_locator.rb` and `maxmind_provider.rb`, and the
 * way both sort the outcome of a database lookup into a result or an error.
 */
module MaxmindDb {
  import opened Wrappers
  import opened Text
  import opened Errors

  /** A `names` hash: language code to name, in the order the database stores them. */
  type Names = seq<(string, string)>

  datatype Country = Country(isoCode: Option<string>, names: Option<Names>)
  datatype City = City(names: Option<Names>)
  datatype Subdivision = Subdivision(isoCode: Option<string>, names: Option<Names>)
  datatype Continent = Continent(code: Option<string>)
  /** A metro code as stored: an integer, or already text. */
  datatype Metro = MetroInt(n: int) | MetroText(text: string)
  datatype Location = Location(
    timeZone: Option<string>, latitude: Option<real>, longitude: Option<real>, metroCode: Option<Metro>)
  datatype Postal = Postal(code: Option<string>)

  /** The hash `reader.get(ip)` returns; every key may be missing. */
  datatype Record = Record(
    country: Option<Country>,
    city: Option<City>,
    subdivisions: Option<seq<Subdivision>>,
    continent: Option<Continent>,
    location: Option<Location>,
    postal: Option<Postal>)

  /** `MaxMind::DB::MODE_*`, the reader's file access mode. */
  datatype Mode = ModeAuto | ModeFile | ModeMemory | ModeParamIsBuffer

  /** A `ConnectionPool` of readers, with the settings it was built from. */
  datatype Pool = Pool(size: int, timeout: int, databasePath: string, mode: Option<Mode>)

  /**
   * What the guarded lookup `Timeout.timeout { reader_pool.with { |r| r.get(ip) } }`
   * did: returned a record or `nil`, hit the time limit, or raised.
   */
  datatype FetchOutcome = Found(record: Option<Record>) | TimedOut | Raised(error: Error)

  /** `names[key]`: the value of the first entry with that key. */
  function Lookup(names: Names, key: string): (r: Option<string>)
    ensures r.Some? <==> exists i :: 0 <= i < |names| && names[i].0 == key
    ensures r.Some? ==> exists i :: 0 <= i < |names| && names[i] == (key, r.value)
  {
    if names == [] then None
    else if names[0].0 == key then Some(names[0].1)
    else Lookup(names[1..], key)
  }

  /**
   * `dig(..., 'names', 'en') || dig(..., 'names')&.values&.first`: the English
   * name, else the first name in any language, else nothing.
   */
  function PickName(names: Option<Names>): (r: Option<string>)
    ensures r.None? <==> names.None? || names.value == []
    ensures names.Some? && Lookup(names.value, "en").Some? ==> r == Lookup(names.value, "en")
    ensures names.Some? && Lookup(names.value, "en").None? && names.value != [] ==> r == Some(names.value[0].1)
  {
    match names
    case None => None
    case Some(ns) =>
      match Lookup(ns, "en")
      case Some(en) => Some(en)
      case None => if ns == [] then None else Some(ns[0].1)
  }

  /** The name `PickName` returns is one of the stored names. */
  lemma PickNameIsStored(names: Names)
    requires PickName(Some(names)).Some?
    ensures exists i :: 0 <= i < |names| && names[i].1 == PickName(Some(names)).value
  {
    if Lookup(names, "en").None? {
      assert names[0].1 == PickName(Some(names)).value;
    }
  }

  /** `dig('country', 'iso_code')`. */
  function CountryCode(rec: Record): Option<string> {
    if rec.country.Some? then rec.country.value.isoCode else None
  }

  /** `dig('subdivisions', 0)`: only the first subdivision is ever looked at. */
  function FirstSubdivision(rec: Record): (r: Option<Subdivision>)
    ensures r.Some? <==> rec.subdivisions.Some? && rec.subdivisions.value != []
  {
    match rec.subdivisions
    case Some(subs) => if subs == [] then None else Some(subs[0])
    case None => None
  }

  /** `extract_country_name`: the picked country name, `"Unknown"` when there is none. */
  function CountryName(rec: Record): string {
    PickName(if rec.country.Some? then rec.country.value.names else None).GetOr("Unknown")
  }

  /** `extract_city`: the picked city name, `"Unknown"` when there is none. */
  function CityName(rec: Record): string {
    PickName(if rec.city.Some? then rec.city.value.names else None).GetOr("Unknown")
  }

  /** `extract_region`: the picked name of the first subdivision, with no default. */
  function Region(rec: Record): Option<string> {
    match FirstSubdivision(rec)
    case Some(sub) => PickName(sub.names)
    case None => None
  }

  /** `dig('subdivisions', 0, 'iso_code')`. */
  function RegionCode(rec: Record): Option<string> {
    match FirstSubdivision(rec)
    case Some(sub) => sub.isoCode
    case None => None
  }

  /** `dig('continent', 'code')`. */
  function ContinentCode(rec: Record): Option<string> {
    if rec.continent.Some? then rec.continent.value.code else None
  }

  /** `dig('location', 'time_zone')`. */
  function TimeZone(rec: Record): Option<string> {
    if rec.location.Some? then rec.location.value.timeZone else None
  }

  /** `dig('location', 'latitude')`. */
  function Latitude(rec: Record): Option<real> {
    if rec.location.Some? then rec.location.value.latitude else None
  }

  /** `dig('location', 'longitude')`. */
  function Longitude(rec: Record): Option<real> {
    if rec.location.Some? then rec.location.value.longitude else None
  }

  /** `dig('postal', 'code')`. */
  function PostalCode(rec: Record): Option<string> {
    if rec.postal.Some? then rec.postal.value.code else None
  }

  /** `dig('location', 'metro_code')&.to_s`: integers become their decimal text. */
  function MetroCode(rec: Record): (r: Option<string>)
    ensures r.None? <==> rec.location.None? || rec.location.value.metroCode.None?
    ensures rec.location.Some? && rec.location.value.metroCode.Some? && rec.location.value.metroCode.value.MetroInt?
      ==> r.Some? && |r.value| >= 1 && (rec.location.value.metroCode.value.n >= 0 ==> AllDigits(r.value))
    ensures rec.location.Some? && rec.location.value.metroCode.Some? && rec.location.value.metroCode.value.MetroInt?
      ==> var n := rec.location.value.metroCode.value.n;
        r == Some(IntToString(n))
        && (n >= 0 ==> ParseNat(r.value) == n)
        && (n < 0 ==> r.value[0] == '-' && AllDigits(r.value[1..]) && ParseNat(r.value[1..]) == -n)
    ensures rec.location.Some? && rec.location.value.metroCode.Some? && rec.location.value.metroCode.value.MetroText?
      ==> r == Some(rec.location.value.metroCode.value.text)
  {
    if rec.location.Some? && rec.location.value.metroCode.Some? then
      match rec.location.value.metroCode.value
      case MetroInt(n) =>
        ParseNatOfNatToString(if n < 0 then -n else n);
        assert n < 0 ==> IntToString(n)[1..] == NatToString(-n);
        Some(IntToString(n))
      case MetroText(t) => Some(t)
    else None
  }

  /**
   * The `rescue` clauses of `fetch_record`, in order: a timeout becomes a
   * `timeoutKind` error naming the configured timeout; a Trackdown error is
   * re-raised as is; any other standard error becomes a `databaseKind` error
   * `"Database error: <message>"`; anything else passes through untouched.
   */
  function Rescue(outcome: FetchOutcome, timeout: int, timeoutKind: Kind, databaseKind: Kind): (r: Result<Option<Record>, Error>)
    ensures r.Ok? <==> outcome.Found?
    ensures outcome.Found? ==> r.value == outcome.record
    ensures outcome.TimedOut?
      ==> r.error == Error(timeoutKind, "MaxMind database lookup timed out after " + IntToString(timeout) + " seconds")
    ensures outcome.Raised? && IsTrackdownError(outcome.error.kind) ==> r.error == outcome.error
    ensures outcome.Raised? && !IsTrackdownError(outcome.error.kind) && IsStandardError(outcome.error.kind)
      ==> r.error == Error(databaseKind, "Database error: " + outcome.error.message)
    ensures outcome.Raised? && !IsStandardError(outcome.error.kind) ==> r.error == outcome.error
    ensures r.Err? && IsTrackdownError(timeoutKind) && IsTrackdownError(databaseKind)
      ==> IsTrackdownError(r.error.kind) || r.error.kind == NotImplemented
  {
    match outcome
    case Found(rec) => Ok(rec)
    case TimedOut => Err(Error(timeoutKind, TimeoutMessage(timeout)))
    case Raised(e) =>
      if IsTrackdownError(e.kind) then Err(e)
      else if IsStandardError(e.kind) then Err(Error(databaseKind, "Database error: " + e.message))
      else Err(e)
  }
}
