/**
 * `Trackdown::Providers::MaxmindProvider`: lookups in the local MaxMind
 * database, returning the four base fields and the eight enrichment fields.
 */
module MaxmindProvider {
  import opened Wrappers
  import opened Text
  import opened Errors
  import opened MaxmindDb
  import opened Host
  import opened Configuration
  import opened LocationResults
  import opened Trackdown
  import BaseProvider
  import IpLocator

  const DATABASE_MISSING: string := "MaxMind database not found"
  const GEM_MISSING: string := "maxmind-db gem not installed. Add it to your Gemfile: gem 'maxmind-db'"

  /** `available?`: the gem is loaded and the database file is present. */
  predicate Available(world: World, s: Settings) {
    world.gemLoaded && DatabaseExists(world, s)
  }

  /**
   * The result for a found record: the four base fields as `ip_locator.rb`
   * computes them, and the region and region code of the first subdivision,
   * the continent code, time zone, coordinates, postal code and metro code
   * (as text).
   */
  function Normalize(rec: Record): (r: LocationResult)
    ensures r.countryCode == CountryCode(rec) && r.flagEmoji == BaseProvider.EmojiFlag(r.countryCode)
    ensures r.region == Region(rec) && r.regionCode == RegionCode(rec)
    ensures r.continent == ContinentCode(rec) && r.timezone == TimeZone(rec)
    ensures r.latitude == Latitude(rec) && r.longitude == Longitude(rec)
    ensures r.postalCode == PostalCode(rec) && r.metroCode == MetroCode(rec)
  {
    var code := CountryCode(rec);
    LocationResult(code, CountryName(rec), CityName(rec), BaseProvider.EmojiFlag(code),
      region := Region(rec), regionCode := RegionCode(rec), continent := ContinentCode(rec),
      timezone := TimeZone(rec), latitude := Latitude(rec), longitude := Longitude(rec),
      postalCode := PostalCode(rec), metroCode := MetroCode(rec))
  }

  /** The provider and `IpLocator` agree on the four base fields of every record. */
  lemma NormalizeExtendsLocatorResult(rec: Record)
    ensures var r := Normalize(rec);
      LocationResult(r.countryCode, r.countryName, r.city, r.flagEmoji) == IpLocator.Build(rec)
  {
  }

  /**
   * `locate`, with the enrichment fields passed as the result's optional
   * attributes: first the database check, then the gem check, then the
   * guarded lookup with its errors sorted into `MaxmindProvider::TimeoutError`
   * and `MaxmindProvider::DatabaseError`; `nil` gives the unknown result.
   */
  function Locate(world: World, s: Settings, pool: Pool, ip: Option<string>): (r: Result<LocationResult, Error>)
    ensures !DatabaseExists(world, s) ==> r == Err(Error(TrackdownError, DATABASE_MISSING))
    ensures DatabaseExists(world, s) && !world.gemLoaded ==> r == Err(Error(TrackdownError, GEM_MISSING))
    ensures Available(world, s) ==> (r.Ok? <==> world.fetch(pool, ip).Found?)
    ensures Available(world, s) && world.fetch(pool, ip) == Found(None) ==> r == Ok(UnknownResult())
    ensures Available(world, s) && world.fetch(pool, ip).Found? && world.fetch(pool, ip).record.Some?
      ==> r == Ok(Normalize(world.fetch(pool, ip).record.value))
    ensures Available(world, s) && !world.fetch(pool, ip).Found?
      ==> r == Err(Rescue(world.fetch(pool, ip), s.timeout, ProviderTimeout, ProviderDatabase).error)
    ensures r.Err? ==> IsTrackdownError(r.error.kind) || r.error.kind == NotImplemented
  {
    if !DatabaseExists(world, s) then Err(Error(TrackdownError, DATABASE_MISSING))
    else if !world.gemLoaded then Err(Error(TrackdownError, GEM_MISSING))
    else
      match Rescue(world.fetch(pool, ip), s.timeout, ProviderTimeout, ProviderDatabase)
      case Err(e) => Err(e)
      case Ok(None) => Ok(UnknownResult())
      case Ok(Some(rec)) => Ok(Normalize(rec))
  }

  /** The keyword arguments `locate` passes to `LocationResult.new`. */
  const ENRICHMENT_KEYWORDS: set<string> :=
    {"region", "region_code", "continent", "timezone", "latitude", "longitude", "postal_code", "metro_code"}

  /**
   * `LocationResult.new` as `location_result.rb` declares it: four positional
   * parameters and no keyword parameters. Under Ruby 3, keywords given to such
   * a method arrive as one extra positional hash, so the call has five
   * arguments and raises `ArgumentError`.
   */
  function NewAsDeclared(countryCode: Option<string>, countryName: string, city: string, flag: string, keywords: set<string>)
    : (r: Result<LocationResult, Error>)
    ensures r.Ok? <==> keywords == {}
    ensures r.Ok? ==> r.value == LocationResult(countryCode, countryName, city, flag)
  {
    if keywords == {} then Ok(LocationResult(countryCode, countryName, city, flag))
    else Err(Error(Argument, "wrong number of arguments (given 5, expected 4)"))
  }

  /** `locate` exactly as written, building its result with `NewAsDeclared`. */
  function LocateAsWritten(world: World, s: Settings, pool: Pool, ip: Option<string>): Result<LocationResult, Error> {
    if !DatabaseExists(world, s) then Err(Error(TrackdownError, DATABASE_MISSING))
    else if !world.gemLoaded then Err(Error(TrackdownError, GEM_MISSING))
    else
      match Rescue(world.fetch(pool, ip), s.timeout, ProviderTimeout, ProviderDatabase)
      case Err(e) => Err(e)
      case Ok(None) => Ok(UnknownResult())
      case Ok(Some(rec)) =>
        var code := CountryCode(rec);
        NewAsDeclared(code, CountryName(rec), CityName(rec), BaseProvider.EmojiFlag(code), ENRICHMENT_KEYWORDS)
  }

  /**
   * As written, every lookup that finds a record raises `ArgumentError`
   * (which is not a Trackdown error), where the evidently intended behaviour
   * returns the normalised record.
   */
  lemma AsWrittenRaisesForEveryRecord(world: World, s: Settings, pool: Pool, ip: Option<string>, rec: Record)
    requires Available(world, s) && world.fetch(pool, ip) == Found(Some(rec))
    ensures LocateAsWritten(world, s, pool, ip).Err?
    ensures LocateAsWritten(world, s, pool, ip).error.kind == Argument && !IsTrackdownError(Argument)
    ensures Locate(world, s, pool, ip) == Ok(Normalize(rec))
  {
    assert "region" in ENRICHMENT_KEYWORDS;
  }

  /** Apart from found records, the code as written and the corrected model agree. */
  lemma AsWrittenAgreesWithoutRecord(world: World, s: Settings, pool: Pool, ip: Option<string>)
    requires !(world.fetch(pool, ip).Found? && world.fetch(pool, ip).record.Some?)
    ensures LocateAsWritten(world, s, pool, ip) == Locate(world, s, pool, ip)
  {
  }

  /** Only the first subdivision counts: later ones never change the result. */
  lemma OnlyFirstSubdivisionCounts(rec: Record, first: Subdivision, rest1: seq<Subdivision>, rest2: seq<Subdivision>)
    ensures Normalize(rec.(subdivisions := Some([first] + rest1))) == Normalize(rec.(subdivisions := Some([first] + rest2)))
  {
  }

  /** A missing or empty list of subdivisions leaves both region and region code absent. */
  lemma NoSubdivisionsNoRegion(rec: Record)
    requires rec.subdivisions.None? || rec.subdivisions.value == []
    ensures Normalize(rec).region.None? && Normalize(rec).regionCode.None?
  {
  }

  /** An empty record (every key missing) gives the unknown result. */
  lemma EmptyRecordIsUnknown()
    ensures Normalize(Record(None, None, None, None, None, None)) == UnknownResult()
  {
  }

  /**
   * A record with an English country name and city name and no other data
   * yields exactly those names, the code, and its flag.
   */
  lemma EnglishNamesPreferred(code: string, country: string, city: string, others: Names)
    ensures var rec := Record(Some(Country(Some(code), Some(others + [("en", country)]))), Some(City(Some([("en", city)] + others))), None, None, None, None);
      Lookup(others, "en").None? ==>
      Normalize(rec).countryName == country && Normalize(rec).city == city
      && Normalize(rec).countryCode == Some(code) && Normalize(rec).flagEmoji == BaseProvider.EmojiFlag(Some(code))
  {
    var rec := Record(Some(Country(Some(code), Some(others + [("en", country)]))), Some(City(Some([("en", city)] + others))), None, None, None, None);
    if Lookup(others, "en").None? {
      LookupAfterMissing(others, [("en", country)], "en");
    }
  }

  lemma {:induction false} LookupAfterMissing(first: Names, second: Names, key: string)
    requires Lookup(first, key).None?
    ensures Lookup(first + second, key) == Lookup(second, key)
    decreases |first|
  {
    if first != [] {
      assert (first + second)[1..] == first[1..] + second;
      LookupAfterMissing(first[1..], second, key);
    } else {
      assert first + second == second;
    }
  }

  /** An integer metro code becomes its decimal text: 501 gives "501". */
  lemma MetroCodeAsText(rec: Record)
    requires rec.location.Some? && rec.location.value.metroCode == Some(MetroInt(501))
    ensures Normalize(rec).metroCode == Some("501")
  {
    assert IntToString(501) == "501";
  }

  /** The provider, holding its memoised reader pool (`@@reader_pool`). */
  class MaxmindProvider {
    var readerPool: Option<Pool>

    constructor()
      ensures readerPool.None?
    {
      readerPool := None;
    }

    /** `available?`: the gem check comes first, so without the gem the configuration is not even read. */
    method AvailableNow(root: Root, world: World) returns (b: bool)
      modifies root
      ensures !world.gemLoaded ==> !b && root.configuration == old(root.configuration)
      ensures world.gemLoaded ==>
        root.configuration != null && (old(root.configuration) != null ==> root.configuration == old(root.configuration))
        && (old(root.configuration) == null ==> fresh(root.configuration) && root.configuration.Snapshot() == Defaults(world.railsRoot, world.gemLoaded))
        && b == Available(world, root.configuration.Snapshot())
    {
      if !world.gemLoaded {
        return false;
      }
      b := root.DatabaseExistsNow(world);
    }

    /** `reader_pool`: builds the pool from the current configuration at first use and keeps it. */
    method ReaderPool(root: Root, world: World) returns (p: Pool)
      modifies this, root
      ensures root.configuration != null && (old(root.configuration) != null ==> root.configuration == old(root.configuration))
      ensures old(root.configuration) == null ==> fresh(root.configuration) && root.configuration.Snapshot() == Defaults(world.railsRoot, world.gemLoaded)
      ensures p == PoolAfter(old(readerPool), root.configuration.Snapshot())
      ensures readerPool == Some(p)
    {
      var c := root.GetConfiguration(world);
      if readerPool.None? {
        readerPool := Some(PoolFor(c.Snapshot()));
      }
      p := readerPool.value;
    }

    /** `locate`: the result is `Locate` on the configuration as it stands and the pool as memoised. */
    method LocateNow(root: Root, world: World, ip: Option<string>) returns (r: Result<LocationResult, Error>)
      modifies this, root
      ensures root.configuration != null && (old(root.configuration) != null ==> root.configuration == old(root.configuration))
      ensures old(root.configuration) == null ==> fresh(root.configuration) && root.configuration.Snapshot() == Defaults(world.railsRoot, world.gemLoaded)
      ensures r == Locate(world, root.configuration.Snapshot(), PoolAfter(old(readerPool), root.configuration.Snapshot()), ip)
      ensures readerPool == if Available(world, root.configuration.Snapshot())
        then Some(PoolAfter(old(readerPool), root.configuration.Snapshot())) else old(readerPool)
    {
      var present := root.DatabaseExistsNow(world);
      if !present {
        return Err(Error(TrackdownError, DATABASE_MISSING));
      }
      if !world.gemLoaded {
        return Err(Error(TrackdownError, GEM_MISSING));
      }
      var pool := ReaderPool(root, world);
      var c := root.GetConfiguration(world);
      var fetched := Rescue(world.fetch(pool, ip), c.timeout, ProviderTimeout, ProviderDatabase);
      match fetched {
        case Err(e) => r := Err(e);
        case Ok(None) => r := Ok(UnknownResult());
        case Ok(Some(rec)) => r := Ok(Normalize(rec));
      }
    }
  }
}
