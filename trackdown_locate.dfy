/** `Trackdown.locate`: the public entry point, which checks for the database before delegating to `IpLocator`. */
module TrackdownLocate {
  import opened Wrappers
  import opened Errors
  import opened MaxmindDb
  import opened Host
  import opened Configuration
  import opened LocationResults
  import opened Trackdown
  import IpValidator
  import IpLocator

  /** `Trackdown.locate(ip)` against settings `s` and the locator's pool `pool`. */
  function Locate(world: World, s: Settings, pool: Pool, ip: Option<string>): (r: Result<LocationResult, Error>)
    ensures !DatabaseExists(world, s) ==> r == Err(Error(TrackdownError, DATABASE_NOT_FOUND))
    ensures DatabaseExists(world, s) ==> r == IpLocator.Locate(world, s, pool, ip)
  {
    match EnsureDatabaseExists(world, s)
    case Some(e) => Err(e)
    case None => IpLocator.Locate(world, s, pool, ip)
  }

  /**
   * The early database check changes no successful answer: the entry point
   * succeeds exactly when `IpLocator.locate` does, with the same result.
   */
  lemma SameAnswersAsLocator(world: World, s: Settings, pool: Pool, ip: Option<string>)
    ensures Locate(world, s, pool, ip).Ok? <==> IpLocator.Locate(world, s, pool, ip).Ok?
    ensures Locate(world, s, pool, ip).Ok? ==> Locate(world, s, pool, ip) == IpLocator.Locate(world, s, pool, ip)
  {
  }

  /**
   * It changes which error is reported: without a database, a malformed IP
   * gets the missing-database error here but the invalid-IP error from
   * `IpLocator.locate`.
   */
  lemma MissingDatabaseReportedFirst(world: World, s: Settings, pool: Pool, ip: Option<string>)
    requires !DatabaseExists(world, s) && IpValidator.Validate(world.parseOther, ip).Err?
    ensures Locate(world, s, pool, ip).error.message == DATABASE_NOT_FOUND
    ensures IpLocator.Locate(world, s, pool, ip).error.kind == InvalidIp
  {
  }

  /** `Trackdown.locate` with its state: the configuration memo and the locator's pool memo. */
  method LocateNow(root: Root, locator: IpLocator.IpLocator, world: World, ip: Option<string>) returns (r: Result<LocationResult, Error>)
    modifies root, locator
    ensures root.configuration != null && (old(root.configuration) != null ==> root.configuration == old(root.configuration))
    ensures CurrentSettings(root, world) == old(CurrentSettings(root, world))
    ensures r == Locate(world, CurrentSettings(root, world), PoolAfter(old(locator.readerPool), CurrentSettings(root, world)), ip)
    ensures locator.readerPool == if IpLocator.ReachesLookup(world, CurrentSettings(root, world), ip)
      then Some(PoolAfter(old(locator.readerPool), CurrentSettings(root, world))) else old(locator.readerPool)
  {
    var err := root.EnsureDatabaseExistsNow(world);
    if err.Some? {
      return Err(err.value);
    }
    r := locator.LocateNow(root, world, ip);
  }
}
