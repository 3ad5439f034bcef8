# caddy-geoip2, modelled in Dafny

caddy-geoip2 is a Caddy plugin with two parts.

- A global `geoip2` app keeps MaxMind GeoIP2 databases: their settings, the open readers and an optional download schedule.
- An `http.handlers.geoip2` middleware (the `geoip2_vars` directive) looks up a request's client address in every open database. It publishes the result as request variables named `geoip2.*`.

This project models the parts of the plugin that decide things:

- **Dispatch.** A database type picks one of five projector families.
- **Projection.** Each family writes its record fields into the request's variable sink, key by key and in order.
- **Priming.** Every variable starts at its zero value.
- **The app.** It reads its Caddyfile block, loads its readers, runs the lookup over them, chooses its update schedule and stops.
- **The handler.** It reads its directive and picks its mode. It chooses the client address, then primes the variables, sets the address and runs the lookups, in that order.

## Modules

| file | module | models |
|---|---|---|
| `basics.dfy` | `Basics` | `Option`, `Result`, 64-bit integer bounds |
| `text.dfy` | `Text` | the standard-library string functions the plugin calls |
| `sink.dfy` | `Sink` | `*caddy.Replacer`: a class whose `Set` appends to a log. Its variables are the log applied to the initial map. |
| `records.dfy`, `maxmind.dfy` | `Records`, `MaxMind` | the geoip2 record types, and an opened database with its decoder |
| `enterprise*.dfy`, `isp.dfy`, `anonymous.dfy`, `connection_type.dfy`, `domain.dfy` | `Enterprise*`, `IspReplacer`, … | the five projectors and their `Lookup` methods |
| `replacer.dfy` | `Replacers` | `New`, `getReplacerForType`, `SetDefaultValues` |
| `caddyfile.dfy` | `Caddyfile` | how the dispenser loop `for d.Next() { d.Args(&v) }` turns tokens into key/argument entries; a same-line `{` is never an argument |
| `geoip2_state.dfy` | `AppState` | the `GeoIP2State` app as a class |
| `geoip2.dfy` | `Handler` | the `GeoIP2` handler as a class |

Each state-changing Go method becomes a Dafny method on a class, or a method taking the sink. Its `ensures` ties the new state to a specification function. For a write sequence that function is e.g. `EnterpriseWrites`; for the app and the handler it is `Unmarshal`, `Readers`, `LookupWrites` or `RequestWrites`. The lemmas state the properties of those functions.

## Model

| member | source | states |
|---|---|---|
| Replacers.FamilyOf | replacer/replacer.go:30-65 | An unsupported database type is rejected with an error that names that type. |
| Replacers.Dispatch | replacer/replacer.go:31-64 | Both directions hold: a type maps to Enterprise iff it is one of the 17 listed City/Country/Enterprise types, and to ISP iff it is one of the 4 ASN/ISP types. "GeoIP2-Connection-Type", "GeoIP2-Domain" and "GeoIP2-Anonymous-IP" map to ConnectionType, Domain and Anonymous. Every other type is an error. |
| Replacers.TypeListsDisjoint | replacer/replacer.go:31-64 | The Enterprise and ISP case lists are disjoint and hold none of the three single-type cases, so no type is claimed by two families. |
| Replacers.New | replacer/replacer.go:20-28 | A failed open returns the open error and never dispatches. A successful open binds the database's own decoder to the family of its type. An unsupported type is an error naming it. |
| Replacers.Lookup | replacer/replacer.go:14-17 | The interface call appends exactly the writes of the bound family's projector for the client IP. |
| Replacers.SetDefaultValues | replacer/replacer.go:69-77 | The sink receives `ip_address = ""`, then every projector run on its zero record, in order. |
| Replacers.DefaultsZero | replacer/replacer.go:69-77 | After priming, `ip_address` is `""` and every variable any projector writes during priming holds a zero value. |
| Replacers.IpAddressNotProjected | replacer/replacer.go:69-77 | No projector writes `geoip2.ip_address`, so priming and lookups never clobber it. |
| Replacers.SameKeysAsZero | replacer/replacer.go:69-77 | With at most two subdivisions, a lookup writes only variables that priming also writes. |
| Replacers.PrimedCoversLookup | replacer/replacer.go:69-77 | Every variable such a lookup writes already exists after priming. |
| Replacers.IspKeysFixed | replacer/isp.go:44-51 | The ISP variables written do not depend on the record. |
| Replacers.AnonymousKeysFixed | replacer/anonymous.go:44-51 | The Anonymous IP variables written do not depend on the record. |
| EnterpriseReplacer.NameOf | replacer/enterprise.go:60 | The result is `names[lc]`, or `""` when the locale is absent (the Go map's zero value). |
| EnterpriseReplacer.SetLocalizedNames | replacer/enterprise.go:59-65 | The locale loop writes `names_<lc>` for each of the 8 language codes in order, plus `name` right after `names_en`. |
| EnterpriseReplacer.SetCountry | replacer/enterprise.go:53-65 | It appends the country block's writes, in source order. |
| EnterpriseReplacer.SetContinent | replacer/enterprise.go:67-77 | It appends the continent block's writes. |
| EnterpriseReplacer.SetCity | replacer/enterprise.go:79-89 | It appends the city block's writes. |
| EnterpriseReplacer.SetLocation | replacer/enterprise.go:91-96 | It appends the five location writes; the floats are copied as they are. |
| EnterpriseReplacer.SetPostal | replacer/enterprise.go:98-100 | It appends the two postal writes. |
| EnterpriseReplacer.SetRegisteredCountry | replacer/enterprise.go:102-116 | It appends the registered-country block's writes. |
| EnterpriseReplacer.SetRepresentedCountry | replacer/enterprise.go:118-133 | It appends the represented-country block's writes. |
| EnterpriseReplacer.PadSubdivisions | replacer/enterprise.go:139-149 | The append loop yields exactly `Padded(subs)`. |
| EnterpriseReplacer.SetSubdivision | replacer/enterprise.go:151-163 | Entry `i` writes its fields under the 1-based counter `i+1`. |
| EnterpriseReplacer.SetSubdivisions | replacer/enterprise.go:135-164 | It pads the list, writes it, then writes every padded entry in order. |
| EnterpriseReplacer.SetTraits | replacer/enterprise.go:166-183 | It appends the fourteen traits writes. |
| EnterpriseReplacer.SetEnterprise | replacer/enterprise.go:52-184 | The log gains exactly `EnterpriseWrites(record)`, and the variables are the old ones with those writes applied. |
| EnterpriseReplacer.Lookup | replacer/enterprise.go:22-38 | The decoded record is projected whether or not the decoder reported an error. |
| EnterpriseFacts.PaddedShape | replacer/enterprise.go:139-149 | The padded list has length `max(2, n)`. The original entries are an unchanged prefix and the added entries are zero subdivisions. |
| EnterpriseFacts.SubdivisionFacts | replacer/enterprise.go:151-163 | Subdivision `i` writes only keys that start with its section prefix, each key once. |
| EnterpriseValues.SubdivisionPrefixSpelling | replacer/enterprise.go:152-159 | That prefix is `geoip2.subdivisions_<i+1>_`. |
| EnterpriseFacts.LocalizedContains | replacer/enterprise.go:59-65 | The locale loop writes `names_<lc>` with `NameOf(names, lc)` for every code, and `name` with the English name. |
| EnterpriseFacts.LocalizedDistinct | replacer/enterprise.go:59-65 | Over distinct codes, the locale loop writes no key twice. |
| EnterpriseFacts.EnterpriseDistinct | replacer/enterprise.go:52-184 | `SetEnterprise` writes no key twice: the sections have disjoint prefixes, and fields within a section differ. |
| EnterpriseFacts.EnterpriseSurvives | replacer/enterprise.go:52-184 | So every write of `SetEnterprise` is still in the sink afterwards. |
| EnterpriseKeys.KeyInjective | replacer/enterprise.go:54-183 | The key spelling `geoip2.<section>_<field>` determines both the section and the field. |
| EnterpriseKeys.SubdivisionIndexOf | replacer/enterprise.go:152-159 | The counter in a subdivision key reads back as its 0-based index. |
| EnterpriseValues.EnterpriseNames | replacer/enterprise.go:58-133 | For all five named sections: `<section>_names` holds the map, `<section>_names_<lc>` holds `Names[lc]` or `""`, and `<section>_name` holds the English name. |
| EnterpriseValues.EnterpriseSubdivisions | replacer/enterprise.go:135-164 | `subdivisions` holds the padded list. Each padded entry `i` publishes its confidence, geoname id, iso code and names under counter `i+1`; no entry is truncated. |
| EnterpriseValues.EnterpriseBlocksHold | replacer/enterprise.go:52-184 | Every write of every section holds in the final sink. |
| EnterpriseValues.EnterpriseScalars | replacer/enterprise.go:54-178 | Scalars are copied as they are: `country_code`, `location_latitude`, `location_time_zone` and `traits_isp`. |
| EnterpriseValues.EnterpriseVariables | replacer/enterprise.go:54-178 | The same facts spelled out as literal variable names. Also `country_name == country_names_en`, and `subdivisions_1_iso_code` is the first iso code or `""`. |
| EnterpriseValues.EnterpriseZero | replacer/enterprise.go:52-184 | On the zero record every write is a zero value. |
| EnterpriseShape.EnterpriseKeySet | replacer/enterprise.go:52-184 | The keys written, in order, depend only on `max(2, len(Subdivisions))`. |
| EnterpriseShape.PrimedKeysCover | replacer/enterprise.go:139-149 | With at most two subdivisions, the keys are exactly those of the zero record. |
| IspReplacer.SetISP | replacer/isp.go:44-51 | It appends the six ISP writes in source order. |
| IspReplacer.Lookup | replacer/isp.go:20-36 | The decoded record is projected even when the decoder reported an error. |
| IspReplacer.IspKeysWritten | replacer/isp.go:45-50 | It writes exactly the six ISP keys, each once. |
| IspReplacer.IspVars | replacer/isp.go:45-50 | Each key holds its record field. |
| IspReplacer.IspFrame | replacer/isp.go:44-51 | The sink gains exactly the six keys, and every other variable is unchanged. |
| IspReplacer.IspZero | replacer/isp.go:45-50 | The zero record yields 0 for the ASN and `""` for the five strings. |
| IspReplacer.IspIdempotent | replacer/isp.go:44-51 | Projecting the same record twice gives the sink of projecting it once. |
| AnonymousReplacer.SetAnonymous | replacer/anonymous.go:44-51 | It appends the six flag writes in source order. |
| AnonymousReplacer.Lookup | replacer/anonymous.go:20-36 | The decoded record is projected even when the decoder reported an error. |
| AnonymousReplacer.AnonymousKeysWritten | replacer/anonymous.go:45-50 | It writes exactly the six flag keys, each once. |
| AnonymousReplacer.AnonymousVars | replacer/anonymous.go:45-50 | Each flag holds its record field. |
| AnonymousReplacer.AnonymousFrame | replacer/anonymous.go:44-51 | The sink gains exactly the six flags, and every other variable is unchanged. |
| AnonymousReplacer.AnonymousZero | replacer/anonymous.go:45-50 | The zero record sets all six flags to false. |
| AnonymousReplacer.AnonymousIdempotent | replacer/anonymous.go:44-51 | Projecting the same record twice gives the sink of projecting it once. |
| ConnectionTypeReplacer.SetConnectionType | replacer/connection-type.go:43-45 | It appends the single `geoip2.connection_type` write. |
| ConnectionTypeReplacer.Lookup | replacer/connection-type.go:19-35 | The decoded record is projected even when the decoder reported an error. |
| ConnectionTypeReplacer.ConnectionTypeVars | replacer/connection-type.go:43-45 | Only `geoip2.connection_type` changes, and it holds `record.ConnectionType`. |
| ConnectionTypeReplacer.ConnectionTypeZero | replacer/connection-type.go:44 | The zero record yields `""`. |
| ConnectionTypeReplacer.ConnectionTypeIdempotent | replacer/connection-type.go:43-45 | Projecting a record twice is projecting it once. |
| DomainReplacer.SetDomain | replacer/domain.go:44-46 | It appends the single `geoip2.domain` write. |
| DomainReplacer.Lookup | replacer/domain.go:20-36 | The decoded record is projected even when the decoder reported an error. |
| DomainReplacer.DomainVars | replacer/domain.go:44-46 | Only `geoip2.domain` changes, and it holds `record.Domain`. |
| DomainReplacer.DomainZero | replacer/domain.go:45 | The zero record yields `""`. |
| DomainReplacer.DomainIdempotent | replacer/domain.go:44-46 | Projecting a record twice is projecting it once. |
| Sink.ApplyLastWrite | replacer/isp.go:45-50 | A write that no later write overrides determines the key's final value. |
| Sink.ApplyUntouched | replacer/isp.go:44-51 | A key that no write touches keeps its presence and value. |
| Sink.ApplyIdempotent | replacer/isp.go:44-51 | Performing the same writes twice is performing them once. |
| Caddyfile.EntriesConsumeAll | geoip2_state.go:136-141 | The dispenser loop consumes every token exactly once, as a key or as the argument of the key before it, in order. |
| Caddyfile.EntriesOfLine | geoip2_state.go:136-141 | A key followed by a value on the same line is one entry with that argument, unless the value is a block opening `{`: then the key has no argument and the `{` is the next key, as Caddy's `NextArg` backs up over it. A key alone on its line is one entry without an argument. |
| AppState.BlockOpeningIgnored | geoip2_state.go:136-141 | A setting followed by `{` on its line (`editionID {`, `accountId {`) gets no value and raises no error, so the defaults, among them the default edition, apply. |
| AppState.GeoIP2State.UnmarshalCaddyfile | geoip2_state.go:135-185 | The final settings and error are exactly `Unmarshal(old settings, entries)`. Readers and channel are unchanged. |
| AppState.StepIgnores | geoip2_state.go:139-142 | Entries without an argument, and unknown keys, change nothing. |
| AppState.StepFails | geoip2_state.go:143-167 | A step fails iff an integer setting's value does not parse. The error is "accountID is not an integer: …" or "updateFrequency is not an integer: …". |
| AppState.StepInteger | geoip2_state.go:143-167 | A parsing integer value sets its field to the parsed number. |
| AppState.StepFields | geoip2_state.go:142-168 | A non-failing step changes only its own field: it replaces a string field, or appends the edition pieces. |
| AppState.WalkFails | geoip2_state.go:136-169 | The block fails iff some entry fails, and the error is the first failing entry's. |
| AppState.WalkStops | geoip2_state.go:145-147 | Once the loop has failed, later entries are not read. |
| AppState.WalkLastWins | geoip2_state.go:149-161 | The directory, license key, lock file and URL end with the last value given, else their previous value. |
| AppState.WalkIntegers | geoip2_state.go:143-167 | The account id and frequency end with the last value given, parsed, else their previous value. |
| AppState.WalkEditions | geoip2_state.go:155-159 | Every `editionID` value's pieces are appended in order, so repeated directives accumulate. |
| AppState.EditionPiecesShape | geoip2_state.go:156-158 | A value lists at least one edition, and each is trimmed and holds no comma. |
| AppState.EditionPiecesSingle | geoip2_state.go:156-158 | A value without commas or surrounding white space lists itself. |
| AppState.UnmarshalFresh | geoip2_state.go:171-182 | On a fresh app, each setting is the last value given or its default ("https://updates.maxmind.com", "/tmp/", "/tmp/geoip2.lock", ["GeoLite2-City"]). |
| AppState.UnmarshalValid | geoip2_state.go:171-182 | After a block that does not fail, the directory, lock file, URL and editions are non-empty, and `Validate` passes. |
| AppState.ValidateRejects | geoip2_state.go:125-132 | `Validate` fails iff the directory is empty or there are no editions. |
| AppState.ReaderOfCases | geoip2_state.go:198-213 | An edition contributes a reader iff `<dir>/<edition>.mmdb` is not missing and `New` succeeds on it; the reader is `New`'s. |
| AppState.ReadersAppend | geoip2_state.go:198-214 | The reader list is built edition by edition, in edition order. |
| AppState.ReadersFromEditions | geoip2_state.go:198-214 | Every reader comes from one of the editions. |
| AppState.ReadersAll | geoip2_state.go:198-214 | When every edition opens, there is one reader per edition, in order. |
| AppState.GeoIP2State.LoadGeoIPReaders | geoip2_state.go:195-219 | `dbReaders` is replaced by the new list. Settings and channel are unchanged. |
| AppState.GeoIP2State.Lookup | geoip2_state.go:187-193 | The sink gains every reader's writes, reader by reader. |
| AppState.LookupKeepsIpAddress | geoip2_state.go:187-193 | No reader's lookup touches `geoip2.ip_address`. |
| AppState.LaterReaderWins | geoip2_state.go:190-192 | A variable ends with the value of the last reader that writes it. |
| AppState.ProjectorDistinct | geoip2_state.go:190-192 | Each reader's lookup writes each key at most once. |
| AppState.PlanAsWritten | geoip2_state.go:221-284 | The schedule as written: no credentials means no updates; otherwise it runs once, then repeats if the frequency is not 0. |
| AppState.NegativeFrequencyPanics | geoip2_state.go:273-274 | With frequency -1 the as-written schedule asks `time.NewTicker` for a negative interval, which panics. |
| AppState.HugeFrequencyPanics | geoip2_state.go:273-274 | With frequency 9223372037 the 64-bit nanosecond product wraps to a negative interval, which panics. |
| AppState.HugeFrequencyWrapsPositive | geoip2_state.go:273-274 | With frequency 18446744074 the product wraps to a positive 290448384 ns (about 0.29 s): the ticker runs at that interval, where the corrected schedule updates once. |
| AppState.Wrap64 | geoip2_state.go:274 | The result is the 64-bit wrap of the input: in range, and the identity on in-range values. |
| AppState.PlanOf | geoip2_state.go:221-284 | The corrected schedule, with the frequency checked before the ticker is made. |
| AppState.PlanSound | geoip2_state.go:221-284 | The corrected schedule never makes the ticker panic, and its interval is exactly `seconds × 10⁹`. It agrees with the code for frequencies in `[0, MaxTickSeconds]`. It skips updates iff `AccountID ≤ 0` or `LicenseKey == ""`. |
| AppState.NoCredentialsNoUpdates | geoip2_state.go:222-224 | A block that leaves out the license key or the account id never downloads. |
| AppState.Downloaded | geoip2_state.go:246-265 | An edition is recorded as updated iff it is listed and its download succeeded. One failure skips only that edition. |
| AppState.GeoIP2State.Update | geoip2_state.go:244-267 | One round downloads every edition it can, then reloads the readers regardless. |
| AppState.GeoIP2State.RunGeoIPUpdate | geoip2_state.go:221-284 | Without credentials nothing happens. Otherwise it makes one round, and one round more per tick when periodic. The readers are those of the last round, and the channel is opened. |
| AppState.GeoIP2State.Stop | geoip2_state.go:100-116 | `Stop` closes an opened channel and clears the readers. The settings are unchanged. |
| Handler.ModeOf | geoip2.go:142-151 | Matching is on the lowercased `Enable`, and any other spelling selects trusted proxies. |
| Handler.ModeSpellings | geoip2.go:142-151 | Both directions hold: "strict" gives Strict, "wild" gives Wild, "off"/"false"/"0" give Disabled, and anything else, including "", gives TrustedProxies. The mode is never left unset. |
| Handler.ModeIgnoresCase | geoip2.go:142 | Spellings that agree after lowercasing select the same mode. |
| Handler.ModeUpperCase | geoip2.go:142 | "STRICT" selects Strict and "Off" selects Disabled. |
| Handler.GeoIP2.Provision | geoip2.go:133-153 | A missing app gives "getting geoip2 app: …" and nothing changes. Otherwise the app is attached and the mode is `ModeOf(Enable)`. |
| Handler.ForwardedFirstEntry | geoip2.go:90-92 | When the header is believed, the address is its first ", "-separated entry: the whole header, or the part before the first ", ". |
| Handler.StrictIgnoresHeader | geoip2.go:90 | In strict mode, and in trusted-proxies mode behind an untrusted peer, no header changes the address. |
| Handler.ForwardedIgnored | geoip2.go:90-106 | When the header is not believed, its content does not matter. |
| Handler.RemoteAddressCases | geoip2.go:95-105 | The address is the host part of RemoteAddr. A missing port falls back to RemoteAddr as-is. Any other split error is returned, and only then is there an error. |
| Handler.ClientIPCases | geoip2.go:108-113 | A client IP is found iff an address is chosen and parses. An unparsable address gives "unable to parse address: \"…\"", and a split error is passed on. |
| Handler.RequestSkipped | geoip2.go:66-74 | With lookups disabled, no readers, or a client-IP error, nothing follows the defaults. |
| Handler.ServeDefaultsOnly | geoip2.go:64-74 | In those cases `ip_address` stays `""` and every primed variable stays at its zero value. |
| Handler.ServeSetsAddress | geoip2.go:75-78 | When the lookups run, `ip_address` ends as the client IP's text: no reader overwrites it. |
| Handler.ServeReaderValues | geoip2.go:78 | When the lookups run, a reader's write stands unless a later reader writes the same variable. |
| Handler.GeoIP2.ServeHTTP | geoip2.go:62-83 | The sink gains the defaults, then `RequestWrites`: the address, then every reader's lookup. The next handler's result is returned. |
| Handler.GeoIP2.LookupClient | geoip2.go:66-81 | The mode check, the readers check, the client IP, the address write and the lookup, in that order. |
| Handler.GeoIP2.UnmarshalCaddyfile | geoip2.go:123-130 | The setting and error are exactly `DirectiveWalk(old Enable, entries)`. |
| Handler.DirectiveOutcome | geoip2.go:124-127 | The directive succeeds iff every entry (each key token) has an argument, and then the last argument is the setting. Otherwise the error names the first entry's key without one. |
| Handler.DirectiveBlockOpening | geoip2.go:123-130 | `geoip2_vars {` fails naming `geoip2_vars` and keeps the old setting. |
| Handler.DirectiveStrayBrace | geoip2.go:123-130 | A `{` after the argument fails with "unexpected token '{', expecting argument", once the argument has been set. |
| Text.JoinSplit | geoip2_state.go:156 | `strings.Split` yields at least one piece, and the pieces joined back give the input. |
| Text.SplitPiecesFree | geoip2_state.go:156 | No piece contains the separator. |
| Text.SplitFirst | geoip2.go:91-92 | The first piece is the input up to the first separator, or the whole input. |
| Text.TrimSpaceShape | geoip2_state.go:158 | `strings.TrimSpace` is idempotent, and its result is a slice of the input. |
| Text.ToLower | geoip2.go:142 | Lowercasing keeps the length and maps every character by `LowerChar`. |
| Text.ToLowerIdempotent | geoip2.go:142 | Lowercasing twice is lowercasing once. |
| Text.AtoiOfIntToString | geoip2_state.go:144 | `strconv.Atoi` reads back every 64-bit integer's decimal spelling. |
| Text.Atoi | geoip2_state.go:163 | The empty string is an error, and results lie in the 64-bit range. |
| Text.DigitsValueOfItoa | replacer/enterprise.go:152 | `strconv.Itoa` spells a number that reads back as that number. |

## Left out

- I/O goes through parameters:
  - MaxMind decoding is the `Decoder` functions of a `Database`.
  - `maxminddb.Open` is the `Disk.open` outcome.
  - `os.Stat`'s not-exist test is `Disk.missing`.
  - The geoipupdate download and writer are the `Round.fetched` predicate.
  - Closing readers is not modelled.
- `net.SplitHostPort`, `net.ParseIP` and `IP.String` are the parameters in `Handler.Net`. The model keeps only whether the split error is "missing port in address"; the `errors.As` test of its type is not modelled.
- Concurrency is not modelled: the goroutines started by `Start`, the `RWMutex`, the `WaitGroup`, the unlocked read of `dbReaders` in `ServeHTTP`, and blocking on the ticker and the `done` channel. `RunGeoIPUpdate` takes the ticks it sees as a finite list of rounds.
- `Start`, `CaddyModule`, `init`, the app's `Provision`, the handler's `Validate` (always nil) and all logging are not modelled.
- Error texts produced by wrapping or by Caddy are not modelled. This covers the `%w` wrapping of errors coming from foreign code, and the file and line that Caddy's `ArgErr` adds to its message.
- `Replacers.New` returns the open error or the unsupported type as a datatype, without the formatted text.
- `Text.Quoted` renders `%q` only for strings without quotes, backslashes or unprintable characters.
- The `Validate` message joins the editions with spaces as `%+v` renders a `[]string`.
- `Text.ToLower` is exact only for characters whose lower case is ASCII. `AppState.PathJoin` models `filepath.Join` only for a directory as written plus a file name. It adds one `/` unless one is already there, and does not clean `..` or repeated slashes.
- The type assertion on `caddyhttp.GetVar(…TrustedProxyVarKey)` is taken to succeed. Its value is `Request.trustedProxy`.
- Go's `nil` reader slice is the empty sequence. The source tests `dbReaders != nil`, and a slice built by `append` from `nil` is `nil` exactly when it is empty.
- Caddyfile tokens spanning several lines are not modelled; a token's line is the line it starts on.
- AppState.GeoIP2State.Stop: requires that the channel is not already closed, because closing it again panics in Go.
- AppState.GeoIP2State.RunGeoIPUpdate: is stated for the corrected schedule `PlanOf`, not the as-written one. The as-written schedule is `PlanAsWritten`, and the finding below compares the two.
- Replacers.SameKeysAsZero: holds only for records with at most two subdivisions. Priming creates subdivision variables for counters 1 and 2 only, so a record with more subdivisions writes variables that do not exist before the lookup. The converse, that a third subdivision's variables are indeed missing after priming, is not proved.
- Replacers.PrimedCoversLookup: has the same requirement of at most two subdivisions, for the same reason.

## Findings

| source | as written | input that shows it | evidently intended | confidence | as-written member | corrected member |
|---|---|---|---|---|---|---|
| geoip2_state.go:273-274 | `time.NewTicker(time.Second * time.Duration(g.UpdateFrequency))` for any non-zero frequency | `updateFrequency -1`, or `updateFrequency 9223372037` (the 64-bit nanosecond product wraps to a negative value); `time.NewTicker` panics on a non-positive interval, and as nothing recovers it, the panic ends the whole Caddy process. A larger value such as `updateFrequency 18446744074` wraps to a positive interval of about 0.29 s instead (`AppState.HugeFrequencyWrapsPositive`) | periodic updates only for a positive frequency whose interval fits in 64 bits; otherwise update once | not executed | AppState.NegativeFrequencyPanics | AppState.PlanSound |
