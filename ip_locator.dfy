/**
 * `Trackdown::IpLocator`: validate the IP, refuse private addresses when so
 * configured, look the address up in the MaxMind database, and build the
 * four-field result.
 */
module IpLocator {
  import opened Wrappers
  import opened Errors
  import opened IpAddr
  import opened MaxmindDb
  import opened Host
  import opened Configuration
  import opened LocationResults
  import opened Trackdown
  import IpValidator
  import BaseProvider

  const PRIVATE_IP_MESSAGE: string := "Private IP addresses are not allowed"

  /**
   * `fetch_record`: the database-presence check, then the guarded lookup,
   * with its errors sorted into `IpLocator::TimeoutError`,
   * `IpLocator::DatabaseError`, or the Trackdown error itself.
   */
  function FetchRecord(world: World, s: Settings, pool: Pool, ip: Option<string>): (r: Result<Option<Record>, Error>)
    ensures !DatabaseExists(world, s) ==> r == Err(Error(TrackdownError, DATABASE_NOT_FOUND))
    ensures DatabaseExists(world, s) ==> r == Rescue(world.fetch(pool, ip), s.timeout, LocatorTimeout, LocatorDatabase)
    ensures r.Err? ==> IsTrackdownError(r.error.kind) || r.error.kind == NotImplemented
  {
    match EnsureDatabaseExists(world, s)
    case Some(e) => Err(e)
    case None => Rescue(world.fetch(pool, ip), s.timeout, LocatorTimeout, LocatorDatabase)
  }

  /** The result for a found record: country code, picked country and city names, and the code's flag. */
  function Build(rec: Record): (r: LocationResult)
    ensures r.countryCode == CountryCode(rec) && r.countryName == CountryName(rec) && r.city == CityName(rec)
    ensures r.flagEmoji == BaseProvider.EmojiFlag(r.countryCode)
    ensures r.HasNoEnrichment()
  {
    var code := CountryCode(rec);
    LocationResult(code, CountryName(rec), CityName(rec), BaseProvider.EmojiFlag(code))
  }

  /**
   * A record whose country has names but no ISO code is not the unknown
   * result: the code is absent and the flag is white, but the picked country
   * name is kept.
   */
  lemma NilCodeKeepsNames(rec: Record, names: Names)
    requires rec.country == Some(Country(None, Some(names))) && names != []
    ensures Build(rec).countryCode.None? && Build(rec).flagEmoji == WHITE_FLAG
    ensures Build(rec).countryName == PickName(Some(names)).value
    ensures PickName(Some(names)).value != "Unknown" ==> Build(rec) != UnknownResult()
  {
  }

  /** Whether a call gets as far as the database lookup. */
  predicate ReachesLookup(world: World, s: Settings, ip: Option<string>) {
    IpValidator.Validate(world.parseOther, ip).Ok?
    && (!s.rejectPrivateIps || IpValidator.PrivateIp(world.parseOther, ip) == Ok(false))
    && DatabaseExists(world, s)
  }

  /**
   * `IpLocator.locate` against settings `s` and reader pool `pool`. Errors
   * come out in the order the code checks: the IP's syntax, then (when
   * private addresses are refused) its privacy, then the database.
   */
  function Locate(world: World, s: Settings, pool: Pool, ip: Option<string>): (r: Result<LocationResult, Error>)
    ensures IpValidator.Validate(world.parseOther, ip).Err? ==> r == Err(IpValidator.Validate(world.parseOther, ip).error)
    ensures IpValidator.Validate(world.parseOther, ip).Ok? && s.rejectPrivateIps && IpValidator.PrivateIp(world.parseOther, ip) == Ok(true)
      ==> r == Err(Error(InvalidIp, PRIVATE_IP_MESSAGE))
    ensures IpValidator.Validate(world.parseOther, ip).Ok? && s.rejectPrivateIps && IpValidator.PrivateIp(world.parseOther, ip).Err?
      ==> r == Err(IpValidator.PrivateIp(world.parseOther, ip).error)
    ensures IpValidator.Validate(world.parseOther, ip).Ok? && (!s.rejectPrivateIps || IpValidator.PrivateIp(world.parseOther, ip) == Ok(false))
      && !DatabaseExists(world, s)
      ==> r == Err(Error(TrackdownError, DATABASE_NOT_FOUND))
    ensures r.Ok? ==> ReachesLookup(world, s, ip)
    ensures ReachesLookup(world, s, ip) ==> (r.Ok? <==> world.fetch(pool, ip).Found?)
    ensures ReachesLookup(world, s, ip) && world.fetch(pool, ip) == Found(None) ==> r == Ok(UnknownResult())
    ensures ReachesLookup(world, s, ip) && world.fetch(pool, ip).Found? && world.fetch(pool, ip).record.Some?
      ==> r == Ok(Build(world.fetch(pool, ip).record.value))
    ensures ReachesLookup(world, s, ip) && !world.fetch(pool, ip).Found?
      ==> r == Err(Rescue(world.fetch(pool, ip), s.timeout, LocatorTimeout, LocatorDatabase).error)
    ensures r.Ok? ==> r.value.HasNoEnrichment() && r.value.flagEmoji == BaseProvider.EmojiFlag(r.value.countryCode)
    ensures r.Err? ==> IsTrackdownError(r.error.kind) || r.error.kind in {InvalidAddress, NotImplemented}
  {
    match IpValidator.Validate(world.parseOther, ip)
    case Err(e) => Err(e)
    case Ok(_) =>
      var priv := if s.rejectPrivateIps then IpValidator.PrivateIp(world.parseOther, ip) else Ok(false);
      match priv
      case Err(e) => Err(e)
      case Ok(isPrivate) =>
        if isPrivate then Err(Error(InvalidIp, PRIVATE_IP_MESSAGE))
        else
          match FetchRecord(world, s, pool, ip)
          case Err(e) => Err(e)
          case Ok(None) => Ok(UnknownResult())
          case Ok(Some(rec)) => Ok(Build(rec))
  }

  /** With private addresses refused, a private or loopback IPv4 address is refused before the database is consulted. */
  lemma PrivateIpv4Refused(world: World, s: Settings, pool: Pool, x: U32)
    requires s.rejectPrivateIps && IpValidator.InPrivateOrLoopbackRangeV4(x)
    ensures Locate(world, s, pool, Some(ShowV4(x))) == Err(Error(InvalidIp, PRIVATE_IP_MESSAGE))
  {
    ParseShowV4(world.parseOther, x);
    IpValidator.PrivateIpOfShownV4(world.parseOther, x);
  }

  /** With private addresses allowed, a private address is looked up like any other. */
  lemma PrivateIpv4LookedUpWhenAllowed(world: World, s: Settings, pool: Pool, x: U32)
    requires !s.rejectPrivateIps && DatabaseExists(world, s)
    requires world.fetch(pool, Some(ShowV4(x))) == Found(None)
    ensures Locate(world, s, pool, Some(ShowV4(x))) == Ok(UnknownResult())
  {
    ParseShowV4(world.parseOther, x);
  }

  /**
   * A `nil` IP passes validation, but when private addresses are refused the
   * privacy test parses the empty text and `IPAddr::InvalidAddressError` escapes.
   */
  lemma NilIpEscapesAsAddressError(world: World, s: Settings, pool: Pool)
    requires s.rejectPrivateIps
    ensures Locate(world, s, pool, None).Err? && Locate(world, s, pool, None).error.kind == InvalidAddress
  {
  }

  /** A public IPv4 address with a database present gets exactly the looked-up record's fields. */
  lemma PublicIpv4Found(world: World, s: Settings, pool: Pool, x: U32, rec: Record)
    requires !IpValidator.InPrivateOrLoopbackRangeV4(x) && DatabaseExists(world, s)
    requires world.fetch(pool, Some(ShowV4(x))) == Found(Some(rec))
    ensures Locate(world, s, pool, Some(ShowV4(x))) == Ok(Build(rec))
  {
    ParseShowV4(world.parseOther, x);
    IpValidator.PrivateIpOfShownV4(world.parseOther, x);
  }

  /** The locator, holding its memoised reader pool (`@reader_pool`). */
  class IpLocator {
    var readerPool: Option<Pool>

    constructor()
      ensures readerPool.None?
    {
      readerPool := None;
    }

    /** `reader_pool`: builds the pool from the current configuration at first use and keeps it. */
    method ReaderPool(root: Root, world: World) returns (p: Pool)
      modifies this, root
      ensures root.configuration != null && (old(root.configuration) != null ==> root.configuration == old(root.configuration))
      ensures old(root.configuration) == null ==> fresh(root.configuration) && root.configuration.Snapshot() == Defaults(world.railsRoot, world.gemLoaded)
      ensures p == PoolAfter(old(readerPool), root.configuration.Snapshot())
      ensures readerPool == Some(p)
    {
      var c := root.GetConfiguration(world);
      if readerPool.None? {
        readerPool := Some(PoolFor(c.Snapshot()));
      }
      p := readerPool.value;
    }

    /** `fetch_record`: checks the database, then looks the IP up through the pool. */
    method FetchRecordNow(root: Root, world: World, ip: Option<string>) returns (r: Result<Option<Record>, Error>)
      modifies this, root
      ensures root.configuration != null && (old(root.configuration) != null ==> root.configuration == old(root.configuration))
      ensures old(root.configuration) == null ==> fresh(root.configuration) && root.configuration.Snapshot() == Defaults(world.railsRoot, world.gemLoaded)
      ensures r == FetchRecord(world, root.configuration.Snapshot(), PoolAfter(old(readerPool), root.configuration.Snapshot()), ip)
      ensures readerPool == if DatabaseExists(world, root.configuration.Snapshot())
        then Some(PoolAfter(old(readerPool), root.configuration.Snapshot())) else old(readerPool)
    {
      var err := root.EnsureDatabaseExistsNow(world);
      if err.Some? {
        return Err(err.value);
      }
      var pool := ReaderPool(root, world);
      var c := root.GetConfiguration(world);
      r := Rescue(world.fetch(pool, ip), c.timeout, LocatorTimeout, LocatorDatabase);
    }

    /**
     * `IpLocator.locate`: the result is `Locate` on the configuration as it
     * stands and the pool as memoised; the configuration is only created once
     * the IP has passed validation, and the pool only once the lookup is reached.
     */
    method LocateNow(root: Root, world: World, ip: Option<string>) returns (r: Result<LocationResult, Error>)
      modifies this, root
      ensures IpValidator.Validate(world.parseOther, ip).Err? ==>
        r == Err(IpValidator.Validate(world.parseOther, ip).error)
        && root.configuration == old(root.configuration) && readerPool == old(readerPool)
      ensures IpValidator.Validate(world.parseOther, ip).Ok? ==>
        root.configuration != null && (old(root.configuration) != null ==> root.configuration == old(root.configuration))
        && (old(root.configuration) == null ==> fresh(root.configuration) && root.configuration.Snapshot() == Defaults(world.railsRoot, world.gemLoaded))
        && r == Locate(world, root.configuration.Snapshot(), PoolAfter(old(readerPool), root.configuration.Snapshot()), ip)
        && readerPool == if ReachesLookup(world, root.configuration.Snapshot(), ip)
          then Some(PoolAfter(old(readerPool), root.configuration.Snapshot())) else old(readerPool)
    {
      var valid := IpValidator.Validate(world.parseOther, ip);
      if valid.Err? {
        return Err(valid.error);
      }
      var c := root.GetConfiguration(world);
      if c.RejectPrivateIps() {
        var priv := IpValidator.PrivateIp(world.parseOther, ip);
        if priv.Err? {
          return Err(priv.error);
        }
        if priv.value {
          return Err(Error(InvalidIp, PRIVATE_IP_MESSAGE));
        }
      }
      var fetched := FetchRecordNow(root, world, ip);
      match fetched {
        case Err(e) => r := Err(e);
        case Ok(None) => r := Ok(UnknownResult());
        case Ok(Some(rec)) => r := Ok(Build(rec));
      }
    }
  }
}
