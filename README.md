# unifi-flows: the CSV-to-storage pipeline, modelled in Dafny

This project models the core of the UniFi Insights traffic-flow exporter. The
exporter reads CSV exports of network flows and threats and turns each row
into a normalised record. Depending on configuration, each record then
becomes either a time-series point, with optional geolocation, or a
document in an embedded document store.

The model covers four parts, one module each, plus a module of JavaScript
semantics they share:

- **`Js`** (`js.dfy`): the JavaScript semantics the pipeline relies on.
  - Truthiness, and `a || b || c` alias chains over a CSV row.
  - `parseInt` with and without radix 10: leading whitespace, sign, `0x`
    prefix and the longest digit prefix. Its partner is the read-back lemma
    `ParseIntText`.
  - `String.prototype.split` on `/`, `-` and `:`, with its inverse
    `SplitJoin`.
  - ASCII `toLowerCase`.
  - `new Date(y, m, d)`, including the 19xx rule for years 0 to 99. Native
    string parsing into a `Date` is a given partial function.
- **`Normalize`** (`normalize.dfy`): `transformRecord` and `parseTimestamp`.
- **`GeoIp`** (`geoip.dfy`): the private-address classifier, the two providers'
  reply mappings, the fixed-window rate limiters, the two-tier cache and
  `lookupIp`.
  - The lookup is a pure function of the state, `LookupSpec`, with its
    properties proved as lemmas.
  - The class `GeoLookup` holds the module's `config` fields and implements
    the same steps imperatively against `LookupSpec`.
- **`TimeSeries`** (`timeseries.dfy`): the points `writeFlowPoint` and
  `writeThreatPoint` build, the geolocation attachment rule, and the batch
  writers.
  - The class `TimeSeriesStore` is the client library's write buffer and
    flush counter.
- **`DocumentStore`** (`database.dfy`): `formatFlowDocument`, the batching loop
  of `importFlowsFromCsv`, and the find request and aggregation pipeline
  that `queryFlows` and `getTopByField` build.
  - The class `FlowsDb` records the insert calls.
- **`Importer`** (`importer.dfy`): the row loop of `importCsvFile` with its
  `total`, `imported` and `errors` counters, the batch path of
  `importCsvData`, and the file filter and type routing of
  `importDirectory`.

Things outside the model are parameters:

- The clock, `generateId`, `parseFloat` and native date parsing (the
  `Host` and `Env` values).
- The providers' HTTP replies.
- The cache directory (a map from address to file).
- Whether the time-series library rejects a point or a flush.
- Whether a CSV stream reports an error.

The importer takes the set of names `src/database.js` exports
as a parameter, `exports`. The program's own value is
`DocumentStore.Exports`, and the `...AsWritten` lemmas state what follows
from it.

Quirks of the code that the model keeps, each with a lemma:

- **`saveFlow`, `saveThreat` and `updateStatus` do not exist.**
  `src/import.js` calls `db.saveFlow`, `db.saveThreat` and
  `db.updateStatus`, but `src/database.js` exports none of them.
  - In document-store mode, every flow or threat row is counted as an error
    (`DocumentModeAsWritten`).
  - The `importCsvFile` promise always rejects (`ImportCsvFileAsWritten`).
  - So `importDirectory` stops after its first CSV file (`ImportDirectory`,
    `FirstFileOnly`).
- **`geoip.lookupIp` is called without `await`.** The value checked is a
  Promise, so geolocation tags are never attached (`UnawaitedLookup`,
  `NoGeoAsWritten`). The attachment rule itself is modelled over any
  lookup result (`WithGeoRule`, `FlowPointWithGeo`).
- **Provider A's limit is `30000 / 30`, which is 1000 requests per hour.**
  The comment beside it speaks of about 42 per hour.
- **Provider B never answers.** `lookupWithIpApi` passes an `http://` URL
  to Node's `https.get`, which refuses that protocol. The promise rejects,
  and `lookupIp`'s `catch` returns null after B's counter was charged. The
  model's `IpApiReplyAsWritten` is that refused request (`IpApiAsWritten`).
  The mapping of a successful reply is still modelled (`MapIpApiRules`).
- **The memory tier of the cache is never checked for age**
  (`LookupMemoryHit`, `LookupRepeat`).
- **An unparseable timestamp does not become "now".** With fewer than three
  pieces it stays an Invalid Date, because the `catch` in `parseTimestamp`
  cannot fire for a string (`TimestampRules`).

The repository's written description differs from the code in places. The
model follows the code:

- **Timestamps.** The description says an unparseable timestamp falls back
  to "now" and that a record's timestamp is always valid. The code yields an
  Invalid Date.
- **Provider A's limit.** The description gives about 42 requests per hour.
  The code allows 1000.
- **Flow record fields.** The description lists category, direction,
  client name and session id among a flow record's fields. `transformRecord`
  produces none of them.
- **Numeric fields.** The description says numeric fields are never
  undefined and default to 0. A present but non-numeric column still parses
  to `NaN`.

## Model

| member | source | states |
|---|---|---|
| Js.FirstTruthyPicksFirst | src/import.js:125 | an alias chain yields the first truthy alias's value, whatever later aliases hold |
| Js.FirstTruthyNone | src/import.js:126-128 | with no truthy alias the chain yields the last alias's own value, which is falsy, so a trailing `|| 0` or default applies |
| Js.FirstTruthyCases | src/import.js:146 | the chain is truthy exactly when some alias is, and then some alias is the first truthy one |
| Js.Lower | src/import.js:270 | lower-casing keeps the length and maps every character through ASCII lower-casing |
| Js.ParseIntNatural | src/import.js:219-221 | `parseInt` of the decimal text of a natural number is that number, with or without radix 10 |
| Js.ParseIntText | src/influxdb.js:94-99 | `parseInt(String(n), 10)` gives back `n` for every integer, negative ones included |
| Js.SplitJoin | src/import.js:214 | splitting on `/`, `-` and `:` loses nothing: the pieces joined with the separators found rebuild the text |
| Normalize.RecordIdChoice | src/import.js:116 | the id is the row's `id` when truthy, otherwise the generated one, for flows and threats |
| Normalize.AddressAliasesFirstTruthyWins | src/import.js:125-140 | source and destination address, protocol and application take their first truthy alias, identically for flows and threats |
| Normalize.IntColumnRule | src/import.js:126-144 | a numeric column is `Int(0)` when no alias is truthy and `parseInt` of the first truthy alias otherwise |
| Normalize.NumericDefaults | src/import.js:126-144 | ports, bytes and packets are 0 when all their aliases are absent or empty |
| Normalize.TextDefaults | src/import.js:146-183 | threat type and category default to "unknown", severity to "medium", threat action to "blocked", flow action to "unknown"; otherwise the first truthy alias is kept, for the threat type, category, severity and action and the flow action; no action is ever empty |
| Normalize.UntypedKeepsRow | src/import.js:190-193 | an unknown type returns the row itself, gaining `id` only when the row has no `id` column (the spread wins) |
| Normalize.TimestampRules | src/import.js:201-232 | falsy means now; else the native parse; else the calendar date (y, m-1, d) from the first three pieces, 19xx for y up to 99, or an Invalid Date when a piece is not a number; with fewer pieces an Invalid Date |
| Normalize.MonthDayYearFallback | src/import.js:214-223 | "m/d/y" that the native parser rejects becomes the calendar date (y, m-1, d), with 19xx for y up to 99 |
| GeoIp.MapIpapiRules | src/geoip.js:131-159 | provider A answers exactly for a 200 with a JSON body and no `error`, and then only renames fields |
| GeoIp.MapIpApiRules | src/geoip.js:184-212 | provider B's reply maps to a result exactly for a 200 whose `status` is "success", and then only renames fields (as written no such reply arrives, see `IpApiAsWritten`) |
| GeoIp.ProvidersAgree | src/geoip.js:151-159 | both mappings produce the same result from the same data |
| GeoIp.IsPrivateIpPrefixes | src/geoip.js:280-292 | the classifier holds exactly for the listed IPv4 prefixes or, lower-cased, the IPv6 prefixes (a reference table) |
| GeoIp.AdmitBound | src/geoip.js:79-86 | a check is granted exactly when the possibly restarted count is below the limit and never takes the count past it |
| GeoIp.AdmitAfterPeriod | src/geoip.js:79-83 | once the period has elapsed the window restarts at `now` and the call is its first |
| GeoIp.AdmitWithinWindow | src/geoip.js:79-86 | within one window exactly `limit - count` further calls are granted however many are tried |
| GeoIp.CheckFileRules | src/geoip.js:232-250 | a file entry is a hit exactly when stored and younger than 30 days; an expired one is deleted; other entries are untouched |
| GeoIp.LookupRefused | src/geoip.js:53-60 | empty, private or loopback addresses and a disabled feature give null and change no state |
| GeoIp.LookupMemoryHit | src/geoip.js:63-65 | a memory hit is returned whatever its age, with no request and no state change |
| GeoIp.LookupFileHit | src/geoip.js:68-73 | a valid file hit is promoted to memory and returned, with no request |
| GeoIp.IpApiAsWritten | src/geoip.js:178-182 | with B's request refused as written, a lookup that asks B yields null and caches nothing, and every answer from a request is provider A's |
| GeoIp.LookupProviderOrder | src/geoip.js:75-115 | providers are asked at most once each, A before B, B only after A failed; a non-null answer is cached in both tiers stamped `now` |
| GeoIp.LookupCharges | src/geoip.js:78-105 | after a cache miss, A is asked exactly when its window admits, and B exactly when A was refused or gave null and B's window admits; each request is charged to its window; B's window is not touched when A answered; with no request the result is null |
| GeoIp.LookupKeepsLimits | src/geoip.js:85-105 | the counters never exceed 1000 and 45 |
| GeoIp.LookupRepeat | src/geoip.js:257-259 | after a successful lookup the same address is a memory hit at any later time |
| GeoIp.GeoLookup.constructor | src/geoip.js:15-31 | empty memory, both counters 0, both windows starting at load time |
| GeoIp.GeoLookup.CheckFileCache | src/geoip.js:232-250 | returns and updates the files as `CheckFile` does, nothing else changes |
| GeoIp.GeoLookup.CacheResult | src/geoip.js:257-273 | the result enters memory and a file stamped `now` |
| GeoIp.GeoLookup.AskIpApi | src/geoip.js:95-111 | provider B's turn follows `FallbackSpec` in result, state and requests |
| GeoIp.GeoLookup.AskProviders | src/geoip.js:75-115 | provider A's turn and the fallback follow `ProvidersSpec` |
| GeoIp.GeoLookup.LookupIp | src/geoip.js:51-120 | `lookupIp` follows `LookupSpec` and keeps the counters within their limits |
| TimeSeries.ReparseIdentity | src/influxdb.js:94 | `parseInt(n, 10) || 0` on an integer field value is the value itself |
| TimeSeries.AddIntReparses | src/influxdb.js:94-99 | an integer field is added exactly when truthy, holding the reparsed value |
| TimeSeries.WithGeoRule | src/influxdb.js:71-77 | geolocation is added only with both coordinates truthy: country defaults to "unknown", city and ISP only when present, no other key changes |
| TimeSeries.FlowPointWithGeo | src/influxdb.js:64-91 | with enrichment, truthy addresses and usable results, both addresses get country and coordinates |
| TimeSeries.ThreatPointWithGeo | src/influxdb.js:130-156 | the same for a threat point: both addresses get country and all four coordinates |
| TimeSeries.NoGeoAsWritten | src/influxdb.js:69-71 | with the un-awaited lookups the point is the same with enrichment on or off |
| TimeSeries.FlowPointContents | src/influxdb.js:53-107 | flow tags are the two addresses, protocol and application defaulting to "unknown"; each numeric field, duration included, is present iff truthy and holds the record's value; `action` always; no other field |
| TimeSeries.ThreatPointContents | src/influxdb.js:120-169 | threat tags carry the defaults "unknown" and "medium"; ports iff truthy; `action` always; no other field |
| TimeSeries.FirstRejected | src/influxdb.js:184-187 | the first index whose write throws, or the count when none does |
| TimeSeries.TimeSeriesStore.constructor | src/influxdb.js:14-36 | an empty buffer and no flush |
| TimeSeries.TimeSeriesStore.WriteFlowPoint | src/influxdb.js:50-110 | no-op when disabled; otherwise appends exactly `FlowPoint` unless the library throws |
| TimeSeries.TimeSeriesStore.WriteThreatPoint | src/influxdb.js:117-172 | no-op when disabled; otherwise appends exactly `ThreatPoint` unless the library throws |
| TimeSeries.TimeSeriesStore.WriteFlowPoints | src/influxdb.js:184-187 | writes the points of the records up to the first rejection, in order |
| TimeSeries.TimeSeriesStore.WriteThreatPoints | src/influxdb.js:205-208 | writes the points of the records up to the first rejection, in order |
| TimeSeries.TimeSeriesStore.StoreFlowRecords | src/influxdb.js:179-193 | 0 when disabled; else one point per record, one flush, and the record count; a rejection stops before the flush |
| TimeSeries.TimeSeriesStore.StoreThreatRecords | src/influxdb.js:200-214 | as `StoreFlowRecords` for threat points |
| DocumentStore.DecimalColumnRule | src/database.js:46-54 | an absent or empty count is 0; a column holding `String(n)` is `n` |
| DocumentStore.FormatDefaults | src/database.js:41-65 | counts default to 0; all eight text columns (addresses, protocol, application, category, direction, client name, session id) are copied; a missing timestamp is an Invalid Date, `importedAt` is now |
| DocumentStore.ChunksPartition | src/database.js:91-101 | the batches concatenate to the input; each is non-empty and at most 1000; all but the last hold exactly 1000 |
| DocumentStore.FlowsDb.constructor | src/database.js:24-28 | no insert yet |
| DocumentStore.FlowsDb.ImportFlowsFromCsv | src/database.js:72-110 | inserts the documents in batches of 1000 and a final remainder and, with every insert succeeding, resolves with the row count; a stream error rejects after the whole batches |
| DocumentStore.ImportInsertsEverything | src/database.js:86-103 | every document is inserted exactly once, in order |
| DocumentStore.TimeConstraintRule | src/database.js:162-171 | `$gte` iff `from` is truthy, `$lte` iff `to` is, no constraint with neither |
| DocumentStore.CopyFilters | src/database.js:174-179 | exactly the truthy filters among the keys are copied, as equalities; other entries stay |
| DocumentStore.BuildQueryContents | src/database.js:159-179 | the query holds only the truthy filters and the time range |
| DocumentStore.QueryFlowsDefaults | src/database.js:182-187 | limit 100, skip 0 and newest-first sort unless given |
| DocumentStore.QueryFlowsFilters | src/database.js:174-179 | `queryFlows` filters on exactly the addresses, application, protocol and client name |
| DocumentStore.TopByFieldPipeline | src/database.js:197-232 | match, group by the field summing bytes, packets and a count, sort by bytes descending, limit (10 only when none passed) |
| DocumentStore.TopIgnoresApplication | src/database.js:212-216 | the application filter does not affect `getTopByField` |
| Importer.Consume | src/import.js:49-82 | after any rows, `total` is the row count and equals `imported + errors` |
| Importer.DocumentModeAsWritten | src/import.js:69-81 | with the store as written, flow and threat rows all count as errors, others as imported, and no point is written |
| Importer.InfluxModeErrors | src/import.js:57-68 | with the time-series store on, the errors are exactly the rejected flow or threat rows |
| Importer.InfluxModeFlowPoints | src/import.js:54-64 | without rejections, the flow rows write exactly their records' points, in row order |
| Importer.InfluxModeThreatPoints | src/import.js:54-64 | without rejections, the threat rows write exactly their records' points, in row order |
| Importer.EndOutcome | src/import.js:83-101 | the promise resolves with the counters exactly when `updateStatus` exists |
| Importer.ImportCsvFileAsWritten | src/import.js:86 | as written the promise always rejects with a missing `updateStatus` |
| Importer.ConsumeRow | src/import.js:49-82 | one row's counter step and points follow `RowStep` |
| Importer.ConsumeRows | src/import.js:47-82 | the counters and the written points follow `Consume` over all rows |
| Importer.ImportCsvFile | src/import.js:34-106 | a missing file rejects at once; otherwise the rows are consumed and the end handler decides |
| Importer.FlowsOfTransformed | src/import.js:309-314 | the collected flow records are the transformed rows, in order |
| Importer.ThreatsOfTransformed | src/import.js:309-314 | the collected threat records are the transformed rows, in order |
| Importer.ImportCsvData | src/import.js:286-340 | refused when disabled; an unknown type imports 0 with all errors; otherwise the batch writer's outcome, with `errors = total - imported` |
| Importer.CsvFiles | src/import.js:262-264 | keeps exactly the listed entries whose name ends in `.csv` |
| Importer.CsvFilesFirst | src/import.js:262-272 | the first `.csv` entry of the listing is the first file the walk imports |
| Importer.KindOfFile | src/import.js:270 | a file is always routed as threats or as flows |
| Importer.KindOfFileIgnoresCase | src/import.js:270 | the letter case of the name does not change the route |
| Importer.ImportDirectory | src/import.js:255-278 | a missing directory imports nothing; otherwise every CSV file is imported in order when `updateStatus` exists, and only the first when it does not (its rejection ends the walk); the points written are those of the files imported |
| Importer.FirstFileOnly | src/import.js:267-272 | the points of a walk that stops after one file are that file's points |

## Left out

- DocumentStore.FlowsDb.ImportFlowsFromCsv: a failing final insert is not modelled. That insert is awaited unguarded in the `end` handler, so the promise would never settle.
- Floating point: `parseFloat`, coordinates and durations are exact reals or
  NaN, and `parseFloat` is a given function.
- Native `new Date(string)` parsing is a given partial function. Time zones
  and the normalisation of out-of-range `new Date(y, m, d)` arguments stay
  abstract in `Calendar`.
- JavaScript numbers are unbounded integers here. The precision loss past
  2^53 and the exponent form `String` prints for huge numbers are not
  modelled.
- TimeSeries.AddInt: it stores the field's integer directly, because the lemma
  `AddIntReparses` proves this equal to the source's `parseInt(n, 10) || 0`.
- `toLowerCase` covers ASCII letters only.
- `lookupIp` reads the clock once per call (`now`). The source reads it again
  for the cache age and the file stamp.
- The asynchronous interleaving of the `data` handlers, the `end` handler
  and the un-awaited batch insert is not modelled. Rows are processed
  strictly in order.
- The un-awaited `lookupIp` calls have side effects: they fill the cache
  and charge the counters. These effects are not connected to the point
  writers.
- HTTP requests, `JSON.parse`, file reads, writes and deletes, `fs.existsSync`
  and `readdirSync` are replaced by parameters: replies, maps, booleans and
  lists of names.
- `process.exit` on a missing token, `console` logging and `path.join` are
  left out.
- `getStats` and `close` are outside the core. So are the InfluxDB and NeDB
  libraries themselves: the store keeps the list of points or inserts it
  received.
- CSV parsing, and a stream error in the middle of `importCsvFile` or
  `importCsvData`, are not modelled. Rows arrive already parsed. Only
  `importFlowsFromCsv` models a failing stream, and only after its rows.
- Importer.ImportDirectory: all files share one `Host` and one rejection
  oracle, and row numbers restart in each file.
- The `raw` copy of a row is kept as the row itself. No JSON serialisation
  is modelled.
