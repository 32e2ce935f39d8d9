/** `Trackdown::Configuration`: the settings object, with its defaults and its guarded `provider=`. */
module Configuration {
  import opened Wrappers
  import opened Text
  import opened Errors
  import opened MaxmindDb

  /** The provider symbols `VALID_PROVIDERS` allows. */
  datatype Provider = Auto | Cloudflare | Maxmind

  /** A Ruby value passed to a setter: a symbol, a string, an integer, or `nil`. */
  datatype RubyValue = Sym(name: string) | Str(text: string) | Int(n: int) | NilValue {
    /** `to_s`, as string interpolation uses it. */
    function ToS(): string {
      match this
      case Sym(name) => name
      case Str(text) => text
      case Int(n) => IntToString(n)
      case NilValue => ""
    }
  }

  /** `VALID_PROVIDERS`, as the names of its symbols, in order. */
  const VALID_PROVIDERS: seq<string> := ["auto", "cloudflare", "maxmind"]

  function ProviderName(p: Provider): string {
    match p
    case Auto => "auto"
    case Cloudflare => "cloudflare"
    case Maxmind => "maxmind"
  }

  /** `VALID_PROVIDERS.include?(value)`: only the three symbols are accepted, not strings with the same text. */
  function ProviderOf(value: RubyValue): (r: Option<Provider>)
    ensures r.Some? <==> value.Sym? && value.name in VALID_PROVIDERS
    ensures r.Some? ==> Sym(ProviderName(r.value)) == value
  {
    match value
    case Sym(name) =>
      if name == "auto" then Some(Auto)
      else if name == "cloudflare" then Some(Cloudflare)
      else if name == "maxmind" then Some(Maxmind)
      else None
    case _ => None
  }

  /** Every provider's symbol is accepted and denotes that provider. */
  lemma ProviderOfName(p: Provider)
    ensures ProviderOf(Sym(ProviderName(p))) == Some(p)
    ensures ProviderName(p) in VALID_PROVIDERS
  {
  }

  /** `VALID_PROVIDERS.join(', ')`. */
  lemma ValidProvidersText()
    ensures Join(VALID_PROVIDERS, ", ") == "auto, cloudflare, maxmind"
  {
    var rest := Join(["maxmind"], ", ");
    assert VALID_PROVIDERS[1..][1..] == ["maxmind"];
    assert Join(VALID_PROVIDERS[1..], ", ") == "cloudflare" + ", " + rest;
  }

  /** The message `provider=` raises, listing the valid providers joined by ", ". */
  function InvalidProviderMessage(value: RubyValue): (m: string)
    ensures m == "Invalid provider: " + value.ToS() + ". Must be one of: auto, cloudflare, maxmind"
  {
    ValidProvidersText();
    "Invalid provider: " + value.ToS() + ". Must be one of: " + Join(VALID_PROVIDERS, ", ")
  }

  /** The values of all the attributes of a configuration. */
  datatype Settings = Settings(
    provider: Provider,
    maxmindLicenseKey: Option<string>,
    maxmindAccountId: Option<string>,
    databasePath: string,
    timeout: int,
    poolSize: int,
    poolTimeout: int,
    memoryMode: Option<Mode>,
    rejectPrivateIps: bool)

  const DATABASE_RELATIVE_PATH: string := "db/GeoLite2-City.mmdb"

  /**
   * The default `database_path`: `Rails.root.join('db', 'GeoLite2-City.mmdb').to_s`
   * under Rails, the relative path otherwise.
   */
  function DefaultDatabasePath(railsRoot: Option<string>): (p: string)
    ensures railsRoot.None? ==> p == DATABASE_RELATIVE_PATH
    ensures |p| >= |DATABASE_RELATIVE_PATH| && p[|p| - |DATABASE_RELATIVE_PATH|..] == DATABASE_RELATIVE_PATH
    ensures railsRoot.Some? ==> |p| >= |railsRoot.value| + |DATABASE_RELATIVE_PATH| && p[..|railsRoot.value|] == railsRoot.value
    ensures railsRoot.Some? && railsRoot.value != [] ==> p[|p| - |DATABASE_RELATIVE_PATH| - 1] == '/'
    ensures railsRoot.Some? ==>
      var root := railsRoot.value;
      |p| == |root| + (if root == [] || root[|root| - 1] == '/' then 0 else 1) + |DATABASE_RELATIVE_PATH|
  {
    match railsRoot
    case None => DATABASE_RELATIVE_PATH
    case Some(root) =>
      if root == [] || root[|root| - 1] == '/' then root + DATABASE_RELATIVE_PATH
      else root + "/" + DATABASE_RELATIVE_PATH
  }

  /** The attributes `Configuration.new` sets. */
  function Defaults(railsRoot: Option<string>, gemLoaded: bool): (s: Settings)
    ensures s.provider == Auto && s.rejectPrivateIps
    ensures s.maxmindLicenseKey.None? && s.maxmindAccountId.None?
    ensures s.timeout == 3 && s.poolSize == 5 && s.poolTimeout == 3
    ensures s.memoryMode.Some? <==> gemLoaded
    ensures s.databasePath == DefaultDatabasePath(railsRoot)
  {
    Settings(Auto, None, None, DefaultDatabasePath(railsRoot), 3, 5, 3,
             if gemLoaded then Some(ModeMemory) else None, true)
  }

  /** A configuration object; its attributes are read and written in place. */
  class Configuration {
    var provider: Provider
    var maxmindLicenseKey: Option<string>
    var maxmindAccountId: Option<string>
    var databasePath: string
    var timeout: int
    var poolSize: int
    var poolTimeout: int
    var memoryMode: Option<Mode>
    var rejectPrivateIps: bool

    function Snapshot(): Settings
      reads this
    {
      Settings(provider, maxmindLicenseKey, maxmindAccountId, databasePath, timeout,
               poolSize, poolTimeout, memoryMode, rejectPrivateIps)
    }

    /** `Configuration.new`; `railsRoot` is `Rails.root` when Rails is loaded, `gemLoaded` whether `maxmind/db` loaded. */
    constructor(railsRoot: Option<string>, gemLoaded: bool)
      ensures Snapshot() == Defaults(railsRoot, gemLoaded)
    {
      provider := Auto;
      maxmindLicenseKey := None;
      maxmindAccountId := None;
      databasePath := DefaultDatabasePath(railsRoot);
      timeout := 3;
      poolSize := 5;
      poolTimeout := 3;
      memoryMode := if gemLoaded then Some(ModeMemory) else None;
      rejectPrivateIps := true;
    }

    /** `reject_private_ips?`. */
    function RejectPrivateIps(): bool
      reads this
    {
      rejectPrivateIps
    }

    /**
     * `provider=`: stores one of the three provider symbols; anything else
     * raises `ArgumentError` and leaves the configuration as it was.
     */
    method SetProvider(value: RubyValue) returns (err: Option<Error>)
      modifies this
      ensures err.None? <==> ProviderOf(value).Some?
      ensures err.None? ==> Snapshot() == old(Snapshot()).(provider := ProviderOf(value).value)
      ensures err.Some? ==> err.value == Error(Argument, InvalidProviderMessage(value)) && Snapshot() == old(Snapshot())
    {
      var p := ProviderOf(value);
      if p.None? {
        return Some(Error(Argument, InvalidProviderMessage(value)));
      }
      provider := p.value;
      return None;
    }

    method SetMaxmindLicenseKey(v: Option<string>)
      modifies this
      ensures Snapshot() == old(Snapshot()).(maxmindLicenseKey := v)
    {
      maxmindLicenseKey := v;
    }

    method SetMaxmindAccountId(v: Option<string>)
      modifies this
      ensures Snapshot() == old(Snapshot()).(maxmindAccountId := v)
    {
      maxmindAccountId := v;
    }

    method SetDatabasePath(v: string)
      modifies this
      ensures Snapshot() == old(Snapshot()).(databasePath := v)
    {
      databasePath := v;
    }

    method SetTimeout(v: int)
      modifies this
      ensures Snapshot() == old(Snapshot()).(timeout := v)
    {
      timeout := v;
    }

    method SetPoolSize(v: int)
      modifies this
      ensures Snapshot() == old(Snapshot()).(poolSize := v)
    {
      poolSize := v;
    }

    method SetPoolTimeout(v: int)
      modifies this
      ensures Snapshot() == old(Snapshot()).(poolTimeout := v)
    {
      poolTimeout := v;
    }

    method SetMemoryMode(v: Option<Mode>)
      modifies this
      ensures Snapshot() == old(Snapshot()).(memoryMode := v)
    {
      memoryMode := v;
    }

    method SetRejectPrivateIps(v: bool)
      modifies this
      ensures Snapshot() == old(Snapshot()).(rejectPrivateIps := v)
    {
      rejectPrivateIps := v;
    }
  }
}
