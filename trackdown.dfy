/**
 * The module-level state of `Trackdown`: the memoised configuration and the
 * database-presence checks built on it.
 */
module Trackdown {
  import opened Wrappers
  import opened Errors
  import opened Host
  import opened Configuration
  import opened MaxmindDb

  const DATABASE_NOT_FOUND: string :=
    "MaxMind database not found. Please set your MaxMind keys in config/initializers/trackdown.rb as described in the `trackdown` gem README, and then run Trackdown.update_database to download the MaxMind IP geolocation database."

  /** `database_exists?` for given settings: the database file is present. */
  predicate DatabaseExists(world: World, s: Settings) {
    world.fileExists(s.databasePath)
  }

  /** `ensure_database_exists!` for given settings: nothing when the file is present, else the long `Trackdown::Error`. */
  function EnsureDatabaseExists(world: World, s: Settings): (r: Option<Error>)
    ensures r.None? <==> DatabaseExists(world, s)
    ensures r.Some? ==> IsTrackdownError(r.value.kind) && r.value.message == DATABASE_NOT_FOUND
  {
    if DatabaseExists(world, s) then None else Some(Error(TrackdownError, DATABASE_NOT_FOUND))
  }

  /**
   * The reader pool `reader_pool` builds from the configuration current at
   * its first use: `ConnectionPool.new(size: pool_size, timeout: pool_timeout)`
   * of readers on `database_path` in `memory_mode`.
   */
  function PoolFor(s: Settings): Pool {
    Pool(s.poolSize, s.poolTimeout, s.databasePath, s.memoryMode)
  }

  /** `@reader_pool ||= ...`: the memoised pool if there is one, else a new one from `s`. */
  function PoolAfter(memo: Option<Pool>, s: Settings): (p: Pool)
    ensures memo.Some? ==> p == memo.value
    ensures memo.None? ==> p.databasePath == s.databasePath && p.size == s.poolSize && p.timeout == s.poolTimeout && p.mode == s.memoryMode
  {
    memo.GetOr(PoolFor(s))
  }

  /** Once built, the pool keeps the settings of its first use, whatever the configuration says later. */
  lemma PoolIgnoresLaterSettings(s1: Settings, s2: Settings)
    ensures PoolAfter(Some(PoolAfter(None, s1)), s2) == PoolFor(s1)
  {
  }

  /** The settings `Trackdown.configuration` yields: those of the memoised object, or the defaults it would build. */
  function CurrentSettings(root: Root, world: World): Settings
    reads root, root.configuration
  {
    if root.configuration == null then Defaults(world.railsRoot, world.gemLoaded) else root.configuration.Snapshot()
  }

  /** The singleton `Trackdown` module object and its `@configuration`. */
  class Root {
    var configuration: Configuration?

    constructor()
      ensures configuration == null
    {
      configuration := null;
    }

    /**
     * `Trackdown.configuration`: `@configuration ||= Configuration.new`. The
     * first call builds the defaults; later calls return that same object.
     */
    method GetConfiguration(world: World) returns (c: Configuration)
      modifies this
      ensures configuration == c
      ensures old(configuration) != null ==> c == old(configuration)
      ensures old(configuration) == null ==> fresh(c) && c.Snapshot() == Defaults(world.railsRoot, world.gemLoaded)
      ensures c.Snapshot() == old(CurrentSettings(this, world))
    {
      if configuration == null {
        configuration := new Configuration(world.railsRoot, world.gemLoaded);
      }
      c := configuration;
    }

    /** `Trackdown.configuration = c` (`attr_writer`); `nil` makes the next read build fresh defaults. */
    method SetConfiguration(c: Configuration?)
      modifies this
      ensures configuration == c
    {
      configuration := c;
    }

    /** `Trackdown.database_exists?`: whether the configured database file is present. */
    method DatabaseExistsNow(world: World) returns (b: bool)
      modifies this
      ensures configuration != null && (old(configuration) != null ==> configuration == old(configuration))
      ensures old(configuration) == null ==> fresh(configuration) && configuration.Snapshot() == Defaults(world.railsRoot, world.gemLoaded)
      ensures b == DatabaseExists(world, configuration.Snapshot())
    {
      var c := GetConfiguration(world);
      b := world.fileExists(c.databasePath);
    }

    /** `Trackdown.ensure_database_exists!`: raises the long error when the configured database file is missing. */
    method EnsureDatabaseExistsNow(world: World) returns (err: Option<Error>)
      modifies this
      ensures configuration != null && (old(configuration) != null ==> configuration == old(configuration))
      ensures old(configuration) == null ==> fresh(configuration) && configuration.Snapshot() == Defaults(world.railsRoot, world.gemLoaded)
      ensures err == EnsureDatabaseExists(world, configuration.Snapshot())
    {
      var present := DatabaseExistsNow(world);
      err := if present then None else Some(Error(TrackdownError, DATABASE_NOT_FOUND));
    }
  }
}
