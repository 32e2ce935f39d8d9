/**
 * Everything the core asks of its surroundings, as plain values and
 * functions: the parts of `IPAddr` that are not modelled exactly, the
 * `countries` gem, the file system, the loaded gems, Rails, and the
 * MaxMind reader behind its time limit and connection pool.
 */
module Host {
  import opened Wrappers
  import opened IpAddr
  import opened MaxmindDb

  datatype World = World(
    /** `IPAddr.new` on text that is not a dotted quad; `None` means it raises `InvalidAddressError`. */
    parseOther: string -> Option<Addr>,
    /** `IPAddr#to_s` of an IPv6 address. */
    showV6: U128 -> string,
    /** `ISO3166::Country.new(code)&.iso_short_name || ...&.name`; `None` when neither exists or the lookup raises. */
    countryName: string -> Option<string>,
    /** `File.exist?(path)`. */
    fileExists: string -> bool,
    /** Whether the `maxmind-db` gem loaded (`defined?(MaxMind::DB)`, `MAXMIND_AVAILABLE`). */
    gemLoaded: bool,
    /** `Rails.root.to_s` when Rails is loaded. */
    railsRoot: Option<string>,
    /** `Timeout.timeout { pool.with { |reader| reader.get(ip) } }` against the given pool. */
    fetch: (Pool, Option<string>) -> FetchOutcome)
}
