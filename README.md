# Meraki API exporter: one collection cycle

A model of the collection cycle of a small Prometheus exporter for the Cisco
Meraki dashboard API (`merakiapiexporter.py`). Every cycle fetches the device
statuses, the organization record and the uplink loss/latency time series of
one organization, and writes them into in-memory gauges that a scrape
endpoint serves:

- `meraki_device_status`, labelled by serial, name, networkId, productType,
  model, orgName and orgId, holds 0/1/2/3 for dormant/online/alerting/offline
  and -1 for anything else;
- `meraki_device_uplink_loss` and `meraki_device_uplink_latency`, labelled by
  serial, networkId, uplink, ip, orgName and orgId, hold the last point of the
  uplink's time series;
- `request_processing_seconds`, unlabelled, holds the duration of the last cycle.

The model is in four modules:

- `Wrappers` (wrappers.dfy): `Option` and `Result`.
- `Records` (records.dfy): record shapes (a record is a `map<string, string>`,
  a time-series point a `map<string, real>`), the status lowercasing and
  lookup table, and the choice of the latest uplink point.
- `Metrics` (metrics.dfy): the four metric families and their label schemas,
  series keys `(metric, label values)`, and `ApplyWrites`, the registry after
  a sequence of `set` calls, with the facts every later proof rests on: the
  result is the old registry overridden by the writes
  (`ApplyWritesIsOverride`), nothing is removed, the last write under a key
  wins, and repeating the writes changes nothing.
- `Exporter` (exporter.dfy): labels with their `"Unknown"` defaults, the
  writes a cycle performs for each combination of fetch results
  (`CycleWrites`), the registry after a cycle (`CycleGauges`), lemmas about
  it, and the class `Registry`, whose method `CollectDeviceStatusMetrics` runs
  the cycle imperatively (early return, the two loops, the `continue` for an
  empty series, the `finally` that sets the timing gauge) and is proved equal
  to `CycleGauges`.

The three HTTP responses are inputs (`Responses`, each a `Result` of records
or a `FetchError`), and so are the two environment variables (`Config`) and
the elapsed wall-clock time (`elapsed`). The cycle method returns the
requests it issues and an `Outcome` (what it logs).

Where the written description of the system and the code differ, the model
follows the code:

- The code fetches the device statuses first and the organization record
  second. The description lists them the other way round. Either way, both
  happen before any gauge is set.
- The code lowercases the status before the lookup, so `Online` maps to 1.
  The description says a mixed-case status maps to -1.
- The timing gauge carries the cycle's own elapsed time. So two runs on the
  same responses leave the same registry, except that the timing sample holds
  the second run's time (`CycleIdempotent`).

## Model

| member | source | states |
|---|---|---|
| `Records.Lower` | merakiapiexporter.py:88 | lowercasing keeps the length and lowercases each character in place |
| `Records.StatusCode` | merakiapiexporter.py:88-97 | the code is in -1..3; it is -1 exactly when the lowercased status is not a key of the table; any other code is the position of the lowercased status among dormant/online/alerting/offline |
| `Records.StatusCodeMeaning` | merakiapiexporter.py:88-97 | a status maps to k in 0..3 exactly when it equals the k-th of dormant/online/alerting/offline up to case; it maps to -1 exactly when it equals none of them |
| `Records.StatusCodeIgnoresCase` | merakiapiexporter.py:88 | two strings that agree up to case get the same code |
| `Records.OnlineInAnyCase` | merakiapiexporter.py:88-97 | `Online` and `ONLINE` map to 1 |
| `Records.UnknownIsMinusOne` | merakiapiexporter.py:88-97 | the default `unknown` maps to -1 |
| `Records.DeviceStatus` | merakiapiexporter.py:88-97 | a device's code is in -1..3; it is -1 without a `status` field; otherwise it is k exactly when the status equals the k-th name up to case |
| `Records.PointSample` | merakiapiexporter.py:137-138 | loss is the point's `lossPercent` and latency its `latencyMs`, each 0.0 when the point lacks it |
| `Records.LatestSample` | merakiapiexporter.py:129-138 | there is no sample exactly when `timeSeries` is missing or empty |
| `Records.LatestSampleIsLastPoint` | merakiapiexporter.py:136-138 | the sample depends only on the last point; each field of that point defaults to 0.0 when absent |
| `Metrics.LabelSchema` | merakiapiexporter.py:13-35 | exactly the four declared families have a schema; the timing gauge has no labels |
| `Metrics.ApplyWrites` | merakiapiexporter.py:100-157 | the registry after the `set` calls in order: every key it held before and every key written has a sample afterwards |
| `Metrics.ApplyWritesIsOverride` | merakiapiexporter.py:100-108 | performing the writes equals overriding the old registry with the map of the writes alone |
| `Metrics.ApplyWritesAppend` | merakiapiexporter.py:82-157 | performing two batches of writes in turn equals performing their concatenation |
| `Metrics.ApplyWritesKeys` | merakiapiexporter.py:100-108 | afterwards the keys are exactly the old keys plus the written ones, so nothing is pruned |
| `Metrics.ApplyWritesUntouched` | merakiapiexporter.py:100-108 | a key that no write touches keeps its value, or stays absent |
| `Metrics.LastWriteWins` | merakiapiexporter.py:100-108 | a key holds the value of the last write under that key |
| `Metrics.LastWriteWinsAcross` | merakiapiexporter.py:82-157 | a write that no later write of its batch or of the next batch overrides is the key's value after both |
| `Metrics.ApplyWritesIdempotent` | merakiapiexporter.py:100-108 | performing the same writes a second time changes nothing |
| `Metrics.ApplyWritesThenSetTwice` | merakiapiexporter.py:82-168 | writes that avoid a key, then setting that key, done twice, leave what doing it once with the second value leaves |
| `Metrics.ApplyWritesWellFormed` | merakiapiexporter.py:13-35 | writes under keys that fit their family's label schema keep every sample's label set complete |
| `Exporter.ConfigPresent` | merakiapiexporter.py:42-44 | the cycle runs exactly when neither variable is unset and neither is the empty string |
| `Exporter.StatusRequest` | merakiapiexporter.py:47-60 | the device statuses GET goes to the organization's `/devices/statuses` URL with the API key and `perPage=1000` |
| `Exporter.OrganizationRequest` | merakiapiexporter.py:73-74 | the organization GET goes to the organization's own URL with the API key and no query parameters |
| `Exporter.UplinkRequest` | merakiapiexporter.py:113-117 | the uplink GET goes to the organization's `/devices/uplinksLossAndLatency` URL with the API key and `timespan=300` |
| `Exporter.RequestUrlsDistinct` | merakiapiexporter.py:47-73 | the three URLs of one organization are pairwise different |
| `Exporter.CycleOutcome` | merakiapiexporter.py:42-164 | the cycle reports missing configuration exactly when the configuration is absent, completes exactly when all three fetches succeed, and otherwise names the first failing fetch with its error, every earlier fetch having succeeded |
| `Exporter.IssuedRequests` | merakiapiexporter.py:64-119 | none without configuration; otherwise the device request first, the organization request second exactly when the device fetch succeeded, the uplink request third exactly when the organization fetch succeeded too |
| `Exporter.IssuedRequestsFollowOutcome` | merakiapiexporter.py:64-164 | the last request made is the fetch the outcome reports as failed; a completed cycle makes all three requests |
| `Exporter.DeviceLabels` | merakiapiexporter.py:78-87 | one value per status label name; serial, networkId, productType and model are the field or `Unknown`; name is `name`, else `mac`, else `Unknown`; orgName and orgId are the org record's `name` and `id`, else `Unknown` |
| `Exporter.UplinkLabels` | merakiapiexporter.py:125-128 | one value per uplink label name; serial, networkId, uplink and ip are the field or `Unknown`; orgName and orgId come from the org record with the same default |
| `Exporter.DeviceWrites` | merakiapiexporter.py:82-108 | one status write per device record |
| `Exporter.DeviceWriteAt` | merakiapiexporter.py:82-108 | write i is device i's status code under device i's labels, and no later write has that key unless a later device has the same labels |
| `Exporter.UplinkWritesOf` | merakiapiexporter.py:129-157 | the writes of one loop iteration: none for a missing or empty series, otherwise loss then latency of the latest sample (its contract is stated by `UplinkWritesOfShape`) |
| `Exporter.UplinkWrites` | merakiapiexporter.py:124-157 | the writes of the uplink loop, each uplink's after those of the uplinks before it (its contract is stated by `UplinkWritesAppend` and `UplinkWritesShape`) |
| `Exporter.UplinkWritesOfShape` | merakiapiexporter.py:129-157 | an uplink with a missing or empty series has no writes; otherwise two, loss then latency, under its labels, with the last point's values or 0.0 |
| `Exporter.UplinkWritesAppend` | merakiapiexporter.py:124-157 | the uplink writes of a concatenated response are the concatenation of each part's writes |
| `Exporter.UplinkWritesShape` | merakiapiexporter.py:141-157 | every uplink write is under the loss or latency family, with six label values |
| `Exporter.CycleWritesShape` | merakiapiexporter.py:100-157 | every write of a cycle fits its family's schema, and none is the timing sample |
| `Exporter.CycleWrites` | merakiapiexporter.py:64-157 | no writes when the device or organization fetch fails; otherwise the device writes come first, and they are all the writes when the uplink fetch fails |
| `Exporter.CycleGauges` | merakiapiexporter.py:42-168 | without configuration the registry is unchanged; otherwise the timing sample holds the elapsed time, and after a failed device or organization fetch it is the only change |
| `Exporter.CycleNeverPrunes` | merakiapiexporter.py:100-157 | the keys after a cycle include the keys before it |
| `Exporter.CyclePreservesWellFormed` | merakiapiexporter.py:13-35 | a cycle keeps every sample's label set complete |
| `Exporter.CycleIdempotent` | merakiapiexporter.py:82-168 | a second cycle on the same responses leaves the same registry as one cycle, except the timing sample, which holds the second elapsed time |
| `Exporter.DeviceStatusPublished` | merakiapiexporter.py:82-108 | once the device loop has run, a device's sample holds its status code, unless a later device has the same labels; this holds whatever the uplink fetch returned |
| `Exporter.UplinkWritesPublish` | merakiapiexporter.py:124-157 | the uplink loop leaves an uplink's latest sample under its loss and latency keys, unless a later non-empty uplink shares its labels |
| `Exporter.UplinkSamplePublished` | merakiapiexporter.py:136-157 | after a completed cycle, loss and latency equal the last point's `lossPercent` and `latencyMs`, each 0.0 if absent |
| `Exporter.UplinkFailureKeepsDeviceStatus` | merakiapiexporter.py:100-119 | when the uplink fetch fails, the status samples equal those of a completed cycle and no loss or latency sample changes |
| `Exporter.EmptySeriesSkipped` | merakiapiexporter.py:129-133 | an uplink with a missing or empty series has no effect: the cycle leaves what it would leave without that uplink |
| `Exporter.OnlyLastPointCounts` | merakiapiexporter.py:136-138 | dropping every point but the last from a series does not change the registry |
| `Exporter.Registry.constructor` | merakiapiexporter.py:13-35 | at start-up the registry holds only the timing sample, at 0 |
| `Exporter.Registry.Set` | merakiapiexporter.py:100-108 | `labels(...).set(v)` with a full label set adds or overwrites exactly one sample and keeps every label set complete |
| `Exporter.Registry.PublishDeviceStatuses` | merakiapiexporter.py:82-108 | the device loop performs one status write per record, in order, and keeps every label set complete |
| `Exporter.Registry.PublishUplinks` | merakiapiexporter.py:124-157 | the uplink loop skips empty series and otherwise writes loss, then latency, from the last point; it keeps every label set complete |
| `Exporter.Registry.CollectDeviceStatusMetrics` | merakiapiexporter.py:37-169 | the new registry is `CycleGauges` of the old one. Without configuration: no request, registry untouched. Otherwise: the timing sample is set. A failed device or organization fetch changes nothing else. Requests stop at the first failure |

## Left out

- HTTP requests, `raise_for_status` and `.json()` are not modelled. Each response is an input `Result`, and the requests are returned as values.
- Reading the environment is not modelled. The two variables are `Option<string>` parameters.
- Prometheus internals are one map. This covers `Gauge`, the exposition server on port 9090 and the concurrent scrape thread.
- Wall-clock time is a `real` parameter, `elapsed`. This covers `time.time()` and the subtraction at line 167.
- The `while True: time.sleep(60)` scheduler (lines 171-182) is not modelled. It is non-terminating I/O scheduling.
- Logging is reduced to the returned `Outcome`. Logging does not affect the registry.
- JSON values of shapes other than the ones the model types allow are not modelled. The model takes the device and uplink responses to be lists of objects, the organization response an object, record fields strings and point fields numbers. In the code the other shapes go as follows:
  - A device or uplink response of `{}` or `""` behaves like `[]`: `len` at line 70 or 121 accepts it and the loop at line 82 or 124 runs zero times.
  - A device or uplink response that is a non-empty object or string makes `.get` raise at line 83 or 125, because the loop visits keys or characters. So does a list element that is not an object.
  - A device or uplink response of `null`, a number or a boolean makes `len` raise at line 70 or 121.
  - An organization response that is not an object (a list, say) makes `.get` raise at line 78, before any gauge is set.
  - Each of these raises is caught at line 163. The updates made before it stay, and the timing sample is still set.
  - A `timeSeries` of `null`, `{}`, `""`, `0` or `false` is skipped at line 131 like a missing one, which is the model's `None`. A non-empty object, a non-zero number or `true` raises at line 136. One whose last element is not an object raises at line 137; a string's last character counts as such an element. Earlier elements are never read.
  - A non-string label field becomes its `str()` form inside Prometheus, so `null` gives the label `None`.
  - A non-string `status` makes `.lower()` raise at line 88, before that device's `labels()` call. So that device gets no sample.
  - A loss or latency that `float` cannot convert makes `set` raise at line 148 or 157, after `labels()`. For a label tuple not seen before this leaves a new sample at 0. For an existing tuple the sample keeps its old value.
- The device fetch reads a single page of at most 1000 records. That limit appears only as the `perPage` query parameter. The response is taken as given.
- Records.Lower: lowercases ASCII letters only and leaves every other character unchanged. Python's `str.lower` is Unicode-wide, but this gives the same status code. Every table entry is plain ASCII. The only non-ASCII characters that lower to ASCII are U+212A (to `k`, which no entry contains) and U+0130 (to `i` plus a combining dot, which no entry contains).
- Request headers other than the API key are not modelled. The model leaves out the constant `Content-Type`.
