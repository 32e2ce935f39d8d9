# Trackdown IP geolocation, modelled in Dafny

This project models the geolocation core of the Ruby gem `trackdown`. Given
an IP address, and optionally a Rails request, the gem answers with a
`LocationResult`: a country code, a country name, a city and a flag emoji,
plus optional enrichment fields. The model covers these parts:

- **Configuration.** `Trackdown::Configuration` holds the defaults and a
  guarded `provider=` setter.
- **Module state.** The memoised `Trackdown.configuration`, and the checks for
  whether the database is present.
- **`IpValidator`.** It checks IP syntax and classifies private and loopback
  addresses.
- **`IpLocator.locate`.** It validates the IP, applies the private-IP policy,
  then does the guarded MaxMind lookup with a memoised reader pool.
- **The three providers.**
  - `CloudflareProvider` reads `CF-IPCountry` and `CF-IPCity`.
  - `MaxmindProvider` does a database lookup with eight enrichment fields and
    a memoised pool.
  - `AutoProvider` uses Cloudflare when the `CF-Connecting-IP` header agrees
    with the IP, else MaxMind, else the unknown result. Each of its fallback
    warnings is written at most once.
- **Shared helpers** in `BaseProvider`: the flag emoji, the country-name
  lookup, and the abstract interface.
- **`LocationResult`** and its `to_h`.

## Layout

**Support modules**

| module | what it holds |
|---|---|
| `Wrappers` | `Option`, which stands for `nil`, and `Result`, which stands for a return value or a raised exception. |
| `Text` | The Ruby string operations the core relies on: `strip`, ASCII `upcase`/`downcase`, `Integer#to_s`, and `split`/`join`. |
| `IpAddr` | The slice of Ruby's `ipaddr` that the core uses. Dotted-quad parsing and IPv4 printing are exact. `ipv4_mapped?`, `native`, `private?` and `loopback?` are modelled on the address bits. |
| `Errors` | The exception classes as kinds, so the `rescue` clauses can be modelled. |
| `Host` | One value, `World`, that holds everything the core asks of its surroundings. Each part is a plain value or a function. |
| `MaxmindDb` | The shape of a MaxMind record, the `dig` extractors, and the `rescue` chain of `fetch_record`. `ip_locator.rb` and `maxmind_provider.rb` share these. |

**The source's own files**

| module | source file |
|---|---|
| `LocationResults` | `location_result.rb` |
| `IpValidator` | `ip_validator.rb` |
| `BaseProvider` | `base_provider.rb` |
| `CloudflareProvider` | `cloudflare_provider.rb` |
| `Configuration` | `configuration.rb` |
| `Trackdown` | `lib/trackdown.rb`: the configuration memo and the database checks |
| `TrackdownLocate` | `lib/trackdown.rb`: `Trackdown.locate` |
| `IpLocator` | `ip_locator.rb` |
| `MaxmindProvider` | `maxmind_provider.rb` |
| `AutoProvider` | `auto_provider.rb` |

`lib/trackdown.rb` is split into two modules because `IpLocator` reads
`Trackdown.configuration`, while `Trackdown.locate` calls `IpLocator`.

**State is modelled as classes:**

- `Configuration.Configuration` has one field per attribute. Its setters state
  their whole new state through `Snapshot()`.
- `Trackdown.Root` holds `@configuration`.
- `IpLocator.IpLocator` and `MaxmindProvider.MaxmindProvider` hold the
  memoised reader pool.
- `AutoProvider.AutoProvider` holds the two once-per-process warning flags.

Each stateful `...Now` method is proved equal to a pure function of the
settings and the memoised pool. The properties are proved about those
functions as lemmas.

**How error and `nil` paths appear.** An operation that can raise returns a
`Result`. `nil` arguments are `Option` values. The `rescue` clauses of
`fetch_record` are `MaxmindDb.Rescue`. It tries them in Ruby's order: first
`Timeout::Error`, then `Trackdown::Error`, then `StandardError`.
`NotImplementedError` is not a `StandardError`, so it passes through
unwrapped.

**Where the code and its documentation disagree, the model follows the code:**

- `LocationResult#to_h` returns only the four positional attributes.
- `CloudflareProvider.locate` sets only the code, name, city and flag. It
  reads no enrichment headers.
- `IpLocator.locate` takes only the IP and always uses MaxMind.
- A record with country names but no `iso_code` keeps its names. Its flag is
  the white flag, and it is not the unknown result.
- `LocationResult.new` declares four positional parameters, but
  `MaxmindProvider.locate` passes eight keywords. This is logged under
  Findings. The rest of the model uses the evidently intended result: four
  positional fields plus eight optional, named fields that default to absent.

## Model

| member | source | states |
|---|---|---|
| LocationResults.UnknownResult | lib/trackdown/location_result.rb:7-12 | The canonical unknown result: no code, "Unknown" country and city, the white flag U+1F3F3 U+FE0F, and no enrichment field. |
| LocationResults.LocationResult.Country | lib/trackdown/location_result.rb:14 | Defined as the country name: `country` is an alias of `country_name`. |
| LocationResults.LocationResult.Emoji | lib/trackdown/location_result.rb:15 | Defined as the flag: `emoji` is an alias of `flag_emoji`. |
| LocationResults.LocationResult.EmojiFlag | lib/trackdown/location_result.rb:16 | Defined as the flag: `emoji_flag` is an alias of `flag_emoji`. |
| LocationResults.ToHash | lib/trackdown/location_result.rb:18-25 | `to_h` has exactly the keys country_code, country_name, city and flag_emoji. Each value equals the matching reader, and the code is `nil` exactly when absent. |
| LocationResults.FromHashToHash | lib/trackdown/location_result.rb:18-25 | Rebuilding a result from its `to_h` gives back the four positional attributes. |
| LocationResults.ToHashInjective | lib/trackdown/location_result.rb:18-25 | Two results have equal hashes if and only if their four positional attributes agree. |
| IpAddr.Parse | lib/trackdown/ip_validator.rb:13 | `IPAddr.new`: a dotted quad that parses is an IPv4 address that prints back as the same text; the empty text never parses. |
| IpAddr.ParseShowV4 | lib/trackdown/ip_validator.rb:13 | Parsing the printed form of any IPv4 address gives that address back. |
| IpAddr.Native | lib/trackdown/providers/auto_provider.rb:85 | `native` of an IPv4-mapped address is the IPv4 address it embeds, which maps back to it; other addresses are unchanged. |
| IpAddr.OctetsOfCompose | lib/trackdown/ip_validator.rb:13 | Composing four octets gives a 32-bit address whose octets are those four, so distinct quads are distinct addresses. |
| IpValidator.Validate | lib/trackdown/ip_validator.rb:9-17 | `nil` passes with no address. Other input succeeds exactly when it parses, returning the parsed address. Otherwise it fails with `InvalidIpError` "Invalid IP address format: " followed by the input. |
| IpValidator.PrivateIp | lib/trackdown/ip_validator.rb:19-22 | Succeeds exactly when `ip.to_s` parses, and then answers private-or-loopback of the parsed address. Unparsable text raises `IPAddr::InvalidAddressError`. |
| IpValidator.PrivateIpOfNil | lib/trackdown/ip_validator.rb:19-22 | `private_ip?(nil)` raises, because `nil.to_s` is the empty text. |
| IpValidator.ValidatedIsClassifiable | lib/trackdown/ip_validator.rb:9-22 | A non-nil IP that `validate!` accepts never makes `private_ip?` raise. |
| IpValidator.PrivateV4Ranges | lib/trackdown/ip_validator.rb:21 | On IPv4, the masked `private?`/`loopback?` tests hold exactly on 10/8, 172.16/12, 192.168/16 and 127/8, written as address intervals. |
| IpValidator.MappedClassifiedLikeNative | lib/trackdown/ip_validator.rb:21 | An IPv4-mapped IPv6 address is private or loopback exactly when its IPv4 address is. |
| IpValidator.Ipv6Examples | lib/trackdown/ip_validator.rb:21 | ::1, fc00::1 and fd00::1 are private or loopback; 2001:4860:4860::8888 is not. |
| IpValidator.PrivateIpOfShownV4 | lib/trackdown/ip_validator.rb:19-22 | For dotted-quad text, `private_ip?` is membership in the four intervals, whatever the other text forms parse to. |
| IpValidator.Ipv4Examples | lib/trackdown/ip_validator.rb:19-22 | 192.168.1.1, 10.255.255.255, 172.31.255.255 and 127.0.0.2 are private; 169.254.1.1 and 8.8.8.8 are not. |
| IpValidator.RejectsBadOctet | lib/trackdown/ip_validator.rb:9-17 | A dotted quad with an octet above 255 or a zero-filled octet is rejected by `validate!`. |
| BaseProvider.EmojiFlag | lib/trackdown/providers/base_provider.rb:24-26 | `nil` gives the white flag. A code gives a text of the same length, in which each capital letter A-Z becomes the regional indicator at the same offset from U+1F1E6, and every other character, a regional indicator included, is kept as it is. |
| BaseProvider.FlagRoundTrip | lib/trackdown/providers/base_provider.rb:24-26 | Each character of the flag maps back to the code's character, so `tr` to U+1F1E6..U+1F1FF is undone character by character. |
| BaseProvider.FlagInjective | lib/trackdown/providers/base_provider.rb:24-26 | Distinct codes without regional indicators get distinct flags. |
| BaseProvider.CountryFlagIsNotWhiteFlag | lib/trackdown/providers/base_provider.rb:24-26 | A two-capital-letter code never gets the white flag reserved for `nil`. |
| BaseProvider.UsFlag | lib/trackdown/providers/base_provider.rb:24-26 | "US" becomes U+1F1FA U+1F1F8. |
| BaseProvider.CountryName | lib/trackdown/providers/base_provider.rb:29-36 | `nil` gives "Unknown". A code gives the name the `countries` gem finds, or "Unknown" when it finds none or raises; it never fails. |
| BaseProvider.AbstractAvailable | lib/trackdown/providers/base_provider.rb:9-11 | Always raises `NotImplementedError` (not a `StandardError`) "<class> must implement .available?". |
| BaseProvider.AbstractLocate | lib/trackdown/providers/base_provider.rb:17-19 | Always raises `NotImplementedError` "<class> must implement .locate". |
| CloudflareProvider.Available | lib/trackdown/providers/cloudflare_provider.rb:23-28 | Defined as: a request is given and its country header is present, non-empty and not exactly "XX" (compared before any upcasing). |
| CloudflareProvider.ExtractCountryCode | lib/trackdown/providers/cloudflare_provider.rb:51-56 | Absent exactly when the country header is missing, empty or "XX". Otherwise it is the non-empty upper-cased header, which is its own upper-case form. |
| CloudflareProvider.ExtractCity | lib/trackdown/providers/cloudflare_provider.rb:58-65 | Never empty. The city header verbatim when it is present and non-empty; "Unknown" when the header is missing or empty. |
| CloudflareProvider.Locate | lib/trackdown/providers/cloudflare_provider.rb:34-47 | No request raises `Trackdown::Error` "CloudflareProvider requires a request object with Cloudflare headers". With a request it never fails and never enriches, and the flag is that of the code. A known code is the upper-cased header, never empty and never "XX", with the gem's name and the city header. A missing header, an empty one or one that upper-cases to "XX" gives exactly the unknown result. |
| CloudflareProvider.LocateIgnoresIp | lib/trackdown/providers/cloudflare_provider.rb:34-47 | The IP argument never affects the result. |
| CloudflareProvider.AvailableGivesCountry | lib/trackdown/providers/cloudflare_provider.rb:23-40 | When available, the result has a country code exactly when the upper-cased header is not "XX". |
| CloudflareProvider.LowerCaseXxIsAvailableButUnknown | lib/trackdown/providers/cloudflare_provider.rb:23-40 | A header "xx" makes the provider available, yet `locate` gives the unknown result. |
| CloudflareProvider.TorCodeIsKept | lib/trackdown/providers/cloudflare_provider.rb:23-47 | "T1" is available and kept as the code, gets the flag U+1F1F9 followed by "1", and gets the name "Unknown" when the gem knows no such country. |
| CloudflareProvider.LowerCaseCodeIsUpcased | lib/trackdown/providers/cloudflare_provider.rb:51-56 | A header "us" gives the code "US" and the flag U+1F1FA U+1F1F8. |
| Configuration.ProviderOf | lib/trackdown/configuration.rb:21 | `VALID_PROVIDERS.include?`: accepted exactly for the symbols :auto, :cloudflare and :maxmind (not for strings), and the provider is the one named. |
| Configuration.ProviderOfName | lib/trackdown/configuration.rb:21 | Each provider's symbol is accepted and denotes that provider. |
| Configuration.InvalidProviderMessage | lib/trackdown/configuration.rb:37 | The message names the value and lists "auto, cloudflare, maxmind". |
| Configuration.DefaultDatabasePath | lib/trackdown/configuration.rb:27 | Without Rails it is db/GeoLite2-City.mmdb. Under Rails it starts with the Rails root and ends with that relative path, with a '/' between them. Its length is the root's length plus that of the relative path, plus one when the root does not already end in '/'. |
| Configuration.Defaults | lib/trackdown/configuration.rb:23-33 | The defaults are: provider :auto, no keys, timeout 3, pool size 5, pool timeout 3, and private IPs rejected. Memory mode is set exactly when the maxmind-db gem is loaded, and the path is the default database path. |
| Configuration.Configuration.constructor | lib/trackdown/configuration.rb:23-33 | A new configuration holds exactly `Defaults`. |
| Configuration.Configuration.SetProvider | lib/trackdown/configuration.rb:35-40 | A valid symbol replaces the provider and nothing else. Anything else raises `ArgumentError` with `InvalidProviderMessage` and leaves every attribute unchanged. |
| Configuration.Configuration.SetRejectPrivateIps | lib/trackdown/configuration.rb:13-15 | Stores the value that `reject_private_ips?` then returns; every other attribute is unchanged. |
| Configuration.Configuration.SetTimeout | lib/trackdown/configuration.rb:13-15 | Stores the timeout as given, without validation; every other attribute is unchanged (likewise for the other seven plain setters). |
| Trackdown.DatabaseExists | lib/trackdown.rb:34-36 | Defined as: the file at the configured database path exists. |
| Trackdown.EnsureDatabaseExists | lib/trackdown.rb:38-42 | No error exactly when the database file exists. Otherwise it is a `Trackdown::Error` whose message points to Trackdown.update_database. |
| Trackdown.PoolAfter | lib/trackdown/ip_locator.rb:51-61 | `@reader_pool \|\|= ConnectionPool.new(...)`: the memoised pool if any, else a pool with the configured size, timeout, database path and memory mode. |
| Trackdown.PoolIgnoresLaterSettings | lib/trackdown/providers/maxmind_provider.rb:85-99 | Once built, the pool keeps the settings of its first use, whatever the configuration says later. |
| Trackdown.Root.SetConfiguration | lib/trackdown.rb:13 | `attr_writer :configuration`: the memo becomes the given configuration, and `nil` makes the next read build fresh defaults. |
| Trackdown.Root.GetConfiguration | lib/trackdown.rb:16-18 | The first call creates a configuration holding the defaults; later calls return that same object, with its changes kept. |
| Trackdown.Root.DatabaseExistsNow | lib/trackdown.rb:34-36 | Exactly whether the file at the configured database path exists. |
| Trackdown.Root.EnsureDatabaseExistsNow | lib/trackdown.rb:38-42 | Equals `EnsureDatabaseExists` on the configuration as it stands, creating it first if need be. |
| MaxmindDb.Lookup | lib/trackdown/providers/maxmind_provider.rb:106 | `names['en']`: present exactly when some entry has the key, and then it is a stored entry for that key. |
| MaxmindDb.PickName | lib/trackdown/providers/maxmind_provider.rb:105-120 | The English name when there is one (even an empty one), else the first name in stored order; nothing exactly when there are no names. |
| MaxmindDb.PickNameIsStored | lib/trackdown/providers/maxmind_provider.rb:105-120 | A picked name is always one of the stored names. |
| MaxmindDb.FirstSubdivision | lib/trackdown/providers/maxmind_provider.rb:54 | `dig('subdivisions', 0)` is present exactly when the list is present and non-empty. |
| MaxmindDb.MetroCode | lib/trackdown/providers/maxmind_provider.rb:60 | `&.to_s` is absent exactly when no metro code is stored. A stored integer n becomes `Integer#to_s` of n: its decimal digits read back as n, with a leading '-' exactly when n is negative. Stored text passes through unchanged. |
| MaxmindDb.Rescue | lib/trackdown/providers/maxmind_provider.rb:70-83 | The rescue order: a found record (or `nil`) succeeds; a timeout becomes the timeout error "MaxMind database lookup timed out after <timeout> seconds", with the configured timeout; a Trackdown error is re-raised unchanged; any other standard error becomes the database error "Database error: " followed by its message; an error that is not a standard error passes through unchanged; so only Trackdown errors or `NotImplementedError` come out. |
| IpLocator.FetchRecord | lib/trackdown/ip_locator.rb:34-49 | A missing database gives the long `Trackdown::Error` unchanged and is checked before any fetch. Otherwise the outcome is sorted by `Rescue` into `IpLocator::TimeoutError`/`DatabaseError`, and every error is a Trackdown error or `NotImplementedError`. |
| IpLocator.Build | lib/trackdown/ip_locator.rb:24-29 | The extracted code, country name and city, the flag of the code, and no enrichment field. |
| IpLocator.NilCodeKeepsNames | lib/trackdown/ip_locator.rb:24-29 | Country names without an ISO code give no code and the white flag, but keep the picked name, so the result is not the unknown result. |
| IpLocator.Locate | lib/trackdown/ip_locator.rb:14-30 | An invalid IP fails with the validation error first. When private IPs are rejected, a private one then fails with "Private IP addresses are not allowed". A missing database then fails with the long Trackdown error of `ensure_database_exists!`, the one that points to `Trackdown.update_database`. Once those checks pass, the call succeeds exactly when the record lookup does: a found record gives the result built from it, no record gives the unknown result, and a failed lookup gives the error the rescue clauses map it to. A success implies all the checks passed, and it carries no enrichment. Errors are Trackdown errors, `IPAddr::InvalidAddressError` or `NotImplementedError`. |
| IpLocator.PrivateIpv4Refused | lib/trackdown/ip_locator.rb:17-19 | With private IPs rejected, every private or loopback IPv4 address is refused before the database is consulted. |
| IpLocator.PrivateIpv4LookedUpWhenAllowed | lib/trackdown/ip_locator.rb:17-22 | With private IPs allowed, a private address is looked up, and a `nil` record gives the unknown result. |
| IpLocator.NilIpEscapesAsAddressError | lib/trackdown/ip_locator.rb:15-17 | A `nil` IP passes `validate!`, but `private_ip?` then raises `IPAddr::InvalidAddressError` out of `locate`. |
| IpLocator.PublicIpv4Found | lib/trackdown/ip_locator.rb:14-30 | A public IPv4 address with the database present gets exactly the found record's four fields. |
| IpLocator.IpLocator.ReaderPool | lib/trackdown/ip_locator.rb:51-61 | Returns the memoised pool, building it from the current configuration the first time. |
| IpLocator.IpLocator.FetchRecordNow | lib/trackdown/ip_locator.rb:34-49 | Equals `FetchRecord` on the current configuration and memoised pool. The pool is built only when the database exists. |
| IpLocator.IpLocator.LocateNow | lib/trackdown/ip_locator.rb:14-30 | Equals `Locate` on the current configuration and pool. An invalid IP touches neither the configuration nor the pool, and the pool is built only when the lookup is reached. |
| TrackdownLocate.Locate | lib/trackdown.rb:25-28 | A missing database is reported before anything else; otherwise the answer is `IpLocator.locate`'s, unchanged. |
| TrackdownLocate.SameAnswersAsLocator | lib/trackdown.rb:25-28 | The entry point succeeds exactly when `IpLocator.locate` does, with the same result. |
| TrackdownLocate.MissingDatabaseReportedFirst | lib/trackdown.rb:25-28 | Without a database, a malformed IP gets the missing-database error from `Trackdown.locate`, although `IpLocator.locate` alone would report the invalid IP. |
| TrackdownLocate.LocateNow | lib/trackdown.rb:25-28 | Equals `Locate` on the current configuration and the locator's pool, keeping the configuration's settings. |
| MaxmindProvider.Available | lib/trackdown/providers/maxmind_provider.rb:28-33 | Defined as: the maxmind-db gem is loaded and the database file exists. |
| MaxmindProvider.Normalize | lib/trackdown/providers/maxmind_provider.rb:46-61 | The result carries the record's code with its flag. It also carries the first subdivision's picked name and ISO code, the continent code, time zone, latitude, longitude and postal code as stored, and the metro code as text. |
| MaxmindProvider.NormalizeExtendsLocatorResult | lib/trackdown/providers/maxmind_provider.rb:46-49 | The provider and `IpLocator` agree on the four base fields of every record. |
| MaxmindProvider.Locate | lib/trackdown/providers/maxmind_provider.rb:39-62 | A missing database raises "MaxMind database not found" before the gem check and before any fetch; a missing gem raises the install message. When available, it succeeds exactly when the fetch returns: `nil` gives the unknown result, and a record gives `Normalize` of it. A failed fetch gives the error `fetch_record`'s rescue clauses (lines 70-83) make of it, with the provider's kinds: `MaxmindProvider::TimeoutError` "MaxMind database lookup timed out after N seconds", a Trackdown error unchanged, or `MaxmindProvider::DatabaseError` "Database error: …". |
| MaxmindProvider.NewAsDeclared | lib/trackdown/location_result.rb:7-12 | The four-parameter constructor succeeds exactly when no keywords are passed, and then holds the four values. |
| MaxmindProvider.AsWrittenRaisesForEveryRecord | lib/trackdown/providers/maxmind_provider.rb:51-61 | As written, every found record makes `locate` raise `ArgumentError`, where the corrected `Locate` returns the normalised record. |
| MaxmindProvider.AsWrittenAgreesWithoutRecord | lib/trackdown/providers/maxmind_provider.rb:39-62 | Apart from found records, the code as written and the corrected model agree. |
| MaxmindProvider.OnlyFirstSubdivisionCounts | lib/trackdown/providers/maxmind_provider.rb:53-54 | Subdivisions after the first never change the result. |
| MaxmindProvider.NoSubdivisionsNoRegion | lib/trackdown/providers/maxmind_provider.rb:53-54 | A missing or empty subdivision list leaves region and region code absent. |
| MaxmindProvider.EmptyRecordIsUnknown | lib/trackdown/providers/maxmind_provider.rb:46-61 | A record with every key missing gives the unknown result. |
| MaxmindProvider.EnglishNamesPreferred | lib/trackdown/providers/maxmind_provider.rb:105-115 | The `en` name is chosen wherever it stands among the names. |
| MaxmindProvider.MetroCodeAsText | lib/trackdown/providers/maxmind_provider.rb:60 | The stored integer 501 becomes the text "501". |
| MaxmindProvider.MaxmindProvider.AvailableNow | lib/trackdown/providers/maxmind_provider.rb:28-33 | Exactly "gem loaded and database file present"; without the gem, the configuration is not even read. |
| MaxmindProvider.MaxmindProvider.ReaderPool | lib/trackdown/providers/maxmind_provider.rb:85-99 | Builds the pool at most once; later calls return the same pool. |
| MaxmindProvider.MaxmindProvider.LocateNow | lib/trackdown/providers/maxmind_provider.rb:39-62 | Equals `Locate` on the current configuration and memoised pool; the pool is built only when the provider is available. |
| AutoProvider.Warning.Message | lib/trackdown/providers/auto_provider.rb:100-102 | Defined as the exact texts of the two warnings: the mismatch warning interpolates the request IP and the CF-Connecting-IP header, and the no-provider warning (lines 121-123) is fixed text. |
| AutoProvider.MismatchWarning | lib/trackdown/providers/auto_provider.rb:98-102 | Defined as the mismatch warning for the IP as given and the connecting-IP header, each shown as empty text when `nil` or missing, as Ruby's interpolation of `nil` does. |
| AutoProvider.Available | lib/trackdown/providers/auto_provider.rb:31-34 | Defined as: Cloudflare's `available?` or MaxMind's `available?`. |
| AutoProvider.NormalizeIp | lib/trackdown/providers/auto_provider.rb:78-91 | `nil` exactly for `nil` or whitespace-only input; never contains a capital letter; unparsable input gives its stripped, lower-cased text. |
| AutoProvider.SameAddressSameForm | lib/trackdown/providers/auto_provider.rb:78-91 | Differently written texts of the same address normalise equal. |
| AutoProvider.MappedFormMatchesIpv4 | lib/trackdown/providers/auto_provider.rb:84-86 | ::ffff:a.b.c.d, however written, normalises to the same text as a.b.c.d. |
| AutoProvider.DottedQuadNormalForm | lib/trackdown/providers/auto_provider.rb:78-91 | A printed IPv4 address is its own normal form. |
| AutoProvider.PaddingIgnored | lib/trackdown/providers/auto_provider.rb:81 | Surrounding whitespace never changes the normal form. |
| AutoProvider.IpsMatch | lib/trackdown/providers/auto_provider.rb:68-76 | Matches whenever there is no request, or the connecting-IP header is missing or empty. |
| AutoProvider.IpsMatchSameText | lib/trackdown/providers/auto_provider.rb:75 | Reflexive: an IP always matches a header with the same text. |
| AutoProvider.IpsMatchSymmetric | lib/trackdown/providers/auto_provider.rb:75 | Symmetric: swapping the IP and the header gives the same answer. |
| AutoProvider.Decide | lib/trackdown/providers/auto_provider.rb:40-62 | Cloudflare if and only if it is available and the IPs match; MaxMind if and only if not that and MaxMind is available; nothing otherwise. |
| AutoProvider.Locate | lib/trackdown/providers/auto_provider.rb:40-62 | Each route gives that provider's answer, and the Cloudflare route never fails. With neither available it is the unknown result. Any error comes from the MaxMind route and is a Trackdown error or `NotImplementedError`. |
| AutoProvider.NothingAvailableGivesUnknown | lib/trackdown/providers/auto_provider.rb:31-34 | When `available?` (Cloudflare or MaxMind) is false, `locate` gives the unknown result. Otherwise the unknown route is taken only when Cloudflare disagrees about the IP. |
| AutoProvider.NoConnectingIpHeaderUsesCloudflare | lib/trackdown/providers/auto_provider.rb:43-45 | Without a connecting-IP header, available Cloudflare headers are always used. |
| AutoProvider.MappedHeaderUsesCloudflare | lib/trackdown/providers/auto_provider.rb:43-45 | A connecting-IP header in IPv4-mapped form counts as the same client as the plain IPv4 address. |
| AutoProvider.MismatchFallsBackToMaxmind | lib/trackdown/providers/auto_provider.rb:43-57 | A different IPv4 address in the header sends the lookup to MaxMind when it is available. |
| AutoProvider.AutoProvider.WarnIpMismatch | lib/trackdown/providers/auto_provider.rb:93-111 | Sets its flag and writes the warning only when the flag was clear; once set, nothing more is written; the other flag is untouched. |
| AutoProvider.AutoProvider.WarnNoProviders | lib/trackdown/providers/auto_provider.rb:113-131 | The same once-only behaviour for the no-provider warning. |
| AutoProvider.AutoProvider.LocateNow | lib/trackdown/providers/auto_provider.rb:40-62 | Equals `Locate` on the current settings and MaxMind's pool. A Cloudflare answer leaves the configuration and the MaxMind pool untouched, and only the MaxMind route may build the pool. After the MaxMind route the provider holds the `||=` pool: the one it already had, or else one built from the current settings, so a later lookup reuses it. The flags and the warnings written follow the route and their previous values. |
| Text.Strip | lib/trackdown/providers/auto_provider.rb:81 | `strip` gives the empty text exactly for whitespace-only input, and otherwise neither end is whitespace. The result is the part of the input that starts after its leading whitespace, and everything before and after that part is whitespace. |
| Text.StripIdempotent | lib/trackdown/providers/auto_provider.rb:81 | Stripping twice is stripping once. |

## Left out

- **Case mapping.** `upcase` and `downcase` are modelled on ASCII letters only. Ruby maps all of Unicode, but Cloudflare's codes and printed IP addresses are ASCII.
- **`IPAddr` text forms other than the dotted quad.** IPv6 literals, prefixes, zone IDs and brackets are parsed by the function `World.parseOther`. The IPv6 text form `to_s` is `World.showV6`. These are parameters, not definitions.
- **The message of `IPAddr::InvalidAddressError`.** It is not stated; only its class is.
- **`Pathname` clean-up in `Rails.root.join`.** It is modelled as joining with one '/'.
- **External calls, as parameters of `World`.**
  - the `countries` gem table;
  - `File.exist?`;
  - whether the `maxmind-db` gem loaded;
  - `Rails.root`;
  - the guarded lookup `Timeout.timeout { pool.with { reader.get(ip) } }`.
- **Timeouts.** `Timeout`, `ConnectionPool` and `Mutex` are left out, with their concurrency. Timeouts are integers, so a fractional timeout's text is not modelled.
- **Logging.** Where the warnings go (`Rails.logger` or `warn`) and the `Rails.logger.error` line in `fetch_record` are left out. The warnings are returned as values.
- **`Trackdown.configure`.** It calls `configuration.validate!`, which the configuration class does not define, so it is left out.
- **Database download.** `Trackdown.update_database` and `DatabaseUpdater` perform a network download and file writes, so they are left out.
- **IP arguments that are neither strings nor `nil`.** Only strings and `nil` are modelled.
- **Non-boolean `reject_private_ips`.** Ruby truthiness of a non-boolean value is not modelled.
- **File-system changes between checks.** They are not modelled: `File.exist?` answers the same for the whole of one call.
- **Latitude and longitude.** They are passed through as opaque reals.
- **AutoProvider.IpsMatch.** Its own contract states only the cases that match without comparing. The comparison itself is stated by AutoProvider.IpsMatchSameText, AutoProvider.IpsMatchSymmetric, AutoProvider.MappedHeaderUsesCloudflare and AutoProvider.MismatchFallsBackToMaxmind.
- **IpAddr.Parse.** Its contract states only the dotted-quad and empty-text cases, because other text is delegated to `parseOther`. IpAddr.ParseShowV4 and IpValidator.RejectsBadOctet state the rest of the exact part.

## Findings

| source | as written | input that shows it | evidently intended | confidence | as-written member | corrected member |
|---|---|---|---|---|---|---|
| lib/trackdown/providers/maxmind_provider.rb:51-61 | `LocationResult.new` is called with four positional arguments plus eight keywords. `location_result.rb:7-12` declares only four positional parameters. Under Ruby 3 the keywords arrive as a fifth positional hash, so the call raises `ArgumentError`. | Any IP for which the database returns a record, with the gem loaded and the database present. | A result with the four base fields and the eight enrichment fields. | not executed | MaxmindProvider.AsWrittenRaisesForEveryRecord | MaxmindProvider.Locate |
