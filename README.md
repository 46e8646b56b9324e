# bigleaf-exporter: the scrape pass, modelled in Dafny

The exporter polls a vendor network-monitoring API. It republishes each site's
and each circuit's health as Prometheus metrics: a `circuit_status` gauge keyed
by `(site_name, circuit_name)`, a `site_status` gauge keyed by
`(site_name, site_status)`, and a `site_information` info metric keyed by
`(site_id, site_name, company_name, company_id)`.

This project models one call of `scrape_api` on an already decoded response.
The call walks the sites in order. For each site it records the info entry,
walks the site's circuits, and maps each circuit status to an ordinal 0..2. It
then maps the site status to an ordinal 0..3. An unknown status string writes
nothing. A missing JSON key stops the walk where it is read, and the writes
made before it stay.

Files:

- `wrappers.dfy`: `Option` and a map lookup.
- `status.dfy` (module `Status`): the two status ladders.
- `metrics.dfy` (module `Metrics`): the label keys and the store's contents (`Snapshot`).
  - A store write (`Write`), and `Replay`, which applies a sequence of writes.
  - The laws of `Replay`: last writer wins, nothing is removed, batches compose.
  - The class `MetricStore`, which holds the three families as `map`/`set` fields and updates them in place.
- `exporter.dfy` (module `Exporter`): the response records and the pass itself.
  - The records use `Option` fields, so a missing key can be expressed.
  - `Scrape(r)` is the specification: the ordered writes one pass makes, and how the pass ends.
  - `ScrapeApi` is the imperative pass, with `ApplySite` and `ApplyCircuits` for the two loop bodies. It is proved to leave the store equal to `Replay(old store, Scrape(r).writes)`.
- `properties.dfy` (module `PassProperties`): what a pass does, stated against the response's records.
- `examples.dfy` (module `PassExamples`): passes over small concrete responses.

How a pass ends (`Outcome`):

- `Completed`: every record was walked.
- `RequestError`: the request raised a `requests` exception. `scrape_api` catches it at exporter.py:66 and prints it, and the store is untouched.
- `KeyMissing(k)`: a `KeyError` on key `k`.

Behaviour of the code that the model keeps:

- **Missing keys are not contained.** Only `RequestException` is caught (exporter.py:66). So a `KeyError` leaves `scrape_api`, and the `while True` loop at exporter.py:73-75 has no handler either. The error ends the script's main thread. The metrics server started at exporter.py:70 runs in a daemon thread, so the process exits and the writes that were kept are no longer served. `KeyMissing` is that escaping error. The writes made before it stay in the store.
- **The site gauge key includes the status.** The site gauge is labelled by `site_name` and `site_status` (exporter.py:28, 59-65). So a site whose status changes gets a second entry, and the entry for the old status keeps its value.
- **Circuits come before the site gauge.** A site's circuit gauges are written first (exporter.py:49-57) and its site gauge after them (58-65). So a missing circuit key means that site gets no site-gauge write.
- **Only three metric families.** The exporter publishes the circuit gauge, the site gauge and the info metric. There is no response-time or HTTP-status gauge.
- **Help text vs. the ladder.** The circuit gauge's help text (exporter.py:21) calls ordinal 1 "Circuit Issues". The ladder matches the string `"Issues"` (exporter.py:54). The model follows the ladder, and `PassExamples.HelpTextNameUnmatched` records the difference.

## Model

| member | source | states |
|---|---|---|
| Status.CircuitOrdinal | exporter.py:52-57 | A circuit status has an ordinal exactly when it is "Healthy", "Issues" or "Circuit Down". The ordinal is its position in that list (0, 1, 2). Any other string has none. |
| Status.SiteOrdinal | exporter.py:58-65 | A site status has an ordinal exactly when it is "Site Healthy", "Degraded Availability", "Circuit Issues" or "Site Offline". The ordinal is its position in that list (0..3). Any other string has none. |
| Status.CircuitOrdinalOfListed | exporter.py:52-57 | Each recognised circuit status maps to its own index, so all three ordinals are distinct. |
| Status.SiteOrdinalOfListed | exporter.py:58-65 | Each recognised site status maps to its own index, so all four ordinals are distinct. |
| Metrics.Put | exporter.py:47-65 | The reference definition of one store write (`.labels(...).set(v)` or `.labels(...).info({})`). `ReplayCircuitValue`, `ReplaySiteValue`, `ReplayInfo` and `ReplayGrows` characterise it, through `Replay`. |
| Metrics.Replay | exporter.py:41-65 | The reference definition of a batch of writes applied in order. `ReplayCircuitValue` and `ReplaySiteValue` (last writer wins), `ReplayInfo`, `ReplayGrows` (nothing removed) and `ReplayConcat` (batches compose) characterise it. |
| Metrics.ReplayCircuitValue | exporter.py:53-57 | A circuit-gauge entry afterwards holds the value of the last write to its key. A key nobody wrote keeps its old value, or stays absent. |
| Metrics.ReplaySiteValue | exporter.py:59-65 | A site-gauge entry afterwards holds the value of the last write to its key. A key nobody wrote keeps its old value, or stays absent. |
| Metrics.ReplayInfo | exporter.py:47 | The info keys afterwards are exactly the old keys plus the keys recorded by the writes. |
| Metrics.ReplayGrows | exporter.py:47-65 | No write removes an entry: every key of each of the three families is still present afterwards. |
| Metrics.ReplayConcat | exporter.py:73-75 | Applying two batches of writes in turn equals applying their concatenation, so successive passes compose. |
| Metrics.LastCircuitWriteConcat | exporter.py:53-57 | Across two batches, the last write to a circuit key comes from the later batch whenever that batch writes the key. |
| Metrics.LastSiteWriteConcat | exporter.py:59-65 | Across two batches, the last write to a site key comes from the later batch whenever that batch writes the key. |
| Metrics.ReplayKeepsConsistent | exporter.py:22-29 | Writes that each keep the store consistent keep it consistent when applied together. Consistent: circuit values are in 0..2, and each site value is the ordinal of the status in its own key. |
| Metrics.MetricStore.constructor | exporter.py:17-32 | The three families are declared without entries. |
| Metrics.MetricStore.SetCircuitGauge | exporter.py:53 | Sets one circuit-gauge entry. Every other entry of all three families is unchanged. |
| Metrics.MetricStore.SetSiteGauge | exporter.py:59 | Sets one site-gauge entry. Every other entry of all three families is unchanged. |
| Metrics.MetricStore.RecordInfo | exporter.py:47 | Adds one info key. The gauges are unchanged. |
| Exporter.CircuitPass | exporter.py:50-57 | One circuit. It raises exactly when `circuit_name` or `circuit_status` is missing, and then writes nothing. Otherwise it makes at most one write: exactly when the status is one of the three listed strings, it sets `(site_name, circuit_name)` to that string's index. |
| Exporter.CircuitsPass | exporter.py:49-57 | The reference definition of a site's circuit walk. `CircuitsPassOutcome`, `CircuitsPassStopsAt`, `UnknownCircuitStatusSkipped`, `CircuitsPassLast` and `CircuitsPassNoReport` characterise it. |
| Exporter.SiteGaugeWrites | exporter.py:58-65 | The site ladder makes at most one write. It writes exactly when the status is one of the four listed strings, and then sets `(site_name, site_status)` to that string's index. |
| Exporter.MissingScalarKey | exporter.py:42-46 | The key whose read raises is absent, and it is the first absent key in reading order: every scalar key read before it is present. |
| Exporter.SiteCircuitsPass | exporter.py:48-65 | The reference definition of what a site does after its info entry: read `circuits`, walk them, then set the site gauge. `SitePassOutcome`, `SitePassStopsInCircuits` and `SitePassSiteWrite` characterise it. |
| Exporter.SitePass | exporter.py:42-65 | The reference definition of one site record. `SitePassOutcome`, `SitePassStopsInCircuits`, `UnknownSiteStatusSkipped`, `SitePassSiteWrite` and `InfoRecorded` characterise it. |
| Exporter.SitesPass | exporter.py:41-65 | The reference definition of the site loop. `SitesPassOutcome`, `SitesPassConcat`, `AbortStopsWalk` and the last-writer-wins lemmas characterise it. |
| Exporter.Scrape | exporter.py:35-67 | The reference definition of one call: the ordered writes and the outcome. `ScrapeApi` is proved against it. `ScrapeOutcome`, `ScrapeKeepsConsistent`, `CompletedPassCircuitEntry`, `CompletedPassSiteEntry`, `Unreported*Unchanged` and `AbortStopsWalk` characterise it. |
| Exporter.ScrapeApi | exporter.py:35-67 | The store afterwards is the old store with the pass's writes applied in order, whatever the outcome. The outcome is the pass's outcome. A request failure leaves the store as it was. The store invariant is kept. |
| Exporter.ApplySite | exporter.py:42-65 | Processes one site record: reads its five scalar keys, records the info entry, walks the circuits, then sets the site gauge. It stops at the first missing key. |
| Exporter.ApplyCircuits | exporter.py:49-57 | Processes a site's circuits in order: reads the name and then the status of each, and runs the circuit ladder. It stops at the first missing key. |
| Exporter.ApplyCircuitStatus | exporter.py:52-57 | Runs the circuit ladder for one named circuit. A recognised status sets that circuit's entry to its ordinal. Any other status changes nothing. The store invariant is kept. |
| Exporter.ApplySiteStatus | exporter.py:58-65 | Runs the site ladder for one site. A recognised status sets the `(name, status)` entry to that status's ordinal. Any other status changes nothing. The store invariant is kept. |
| PassProperties.ScrapeKeepsConsistent | exporter.py:52-65 | After any pass, every circuit-gauge value is one of the three circuit ordinals. Every site-gauge value is the ordinal of the status string in its own key. |
| PassProperties.CircuitsPassConcat | exporter.py:49 | Walking two lists of circuits in turn equals walking their concatenation. A missing key in the first list stops the walk there. |
| PassProperties.SitesPassConcat | exporter.py:41 | Walking two lists of sites in turn equals walking their concatenation. A missing key in the first list stops the walk there. |
| PassProperties.CompletedPassCircuitEntry | exporter.py:41-57 | Last writer wins. After a pass that walks every record, a circuit entry holds the ordinal of the last record, in site-then-circuit order, with its site name, its circuit name and a recognised status. With no such record it keeps its old value, or stays absent. |
| PassProperties.UnreportedCircuitUnchanged | exporter.py:52-57 | A circuit key with no record carrying a recognised status keeps its old entry, or stays absent, whatever the outcome. An unknown status adds and changes nothing. |
| PassProperties.SitePassSiteWrite | exporter.py:48-65 | A site writes its site-gauge entry exactly when its name and status form the key, the status is recognised, and no key is missing up to the end of its circuits. |
| PassProperties.CompletedPassSiteEntry | exporter.py:41-65 | Last writer wins for the site gauge. After a pass that walks every record, the entry for `(name, status)` is that status's ordinal when some site record carries that name and that recognised status. Otherwise it keeps its old value. |
| PassProperties.UnreportedSiteUnchanged | exporter.py:58-65 | A site key that no site record reports (same name, same recognised status) keeps its old entry, or stays absent, whatever the outcome. |
| PassProperties.CircuitsPassOutcome | exporter.py:49-51 | A circuit walk ends normally exactly when every circuit has both keys. The status strings play no part. |
| PassProperties.CircuitsPassStopsAt | exporter.py:49-51 | The circuit walk stops at the first circuit with a missing key, raising on that key. Only the circuits before it have written. |
| PassProperties.UnknownCircuitStatusSkipped | exporter.py:52-57 | A circuit with both keys and an unlisted status writes nothing, and the walk goes on with the next circuit. |
| PassProperties.SitePassOutcome | exporter.py:42-57 | A site ends normally exactly when its five scalar keys, `circuits`, and both keys of every circuit are present. The status strings play no part. |
| PassProperties.SitePassStopsInCircuits | exporter.py:47-58 | If circuit `j` is the first with a missing key, the site leaves its info entry and the writes of circuits `..j`, sets no site gauge, and raises on that key. |
| PassProperties.UnknownSiteStatusSkipped | exporter.py:58-65 | A site with every key present and an unlisted status records its info and circuits, sets no site gauge, and the walk goes on with the next site. |
| PassProperties.SitesPassOutcome | exporter.py:41-51 | A walk over sites ends normally exactly when every key of every site is present. |
| PassProperties.ScrapeOutcome | exporter.py:35-67 | A pass ends with the request error exactly when the request failed. It ends normally exactly when `data`, `sites` and every key of every site are present. In every other case it ends with a missing key. |
| PassProperties.PrefixCompletes | exporter.py:41 | If every key of the first `i` sites is present, the walk over them ends normally. |
| PassProperties.AbortStopsWalk | exporter.py:40-51 | If site `i` is the first site with a missing key, the pass ends with that key's error. What stays is the writes of the earlier sites and of site `i` up to the missing key. No later site is walked, and nothing is rolled back. |
| PassProperties.InfoRecorded | exporter.py:42-47 | Every site the walk reaches, with its five scalar keys present, has its info entry afterwards. This holds whatever its status, and whether or not its circuits are then read. |
| PassExamples.SampleFromEmpty | exporter.py:41-65 | A two-site sample response gives an empty store exactly two circuit entries, two site entries (keyed with their status strings) and two info entries. |
| PassExamples.StaleStatusRetained | exporter.py:58-65 | A site that goes from "Site Offline" to "Site Healthy" over two passes keeps both site-gauge entries, 3 and 0. |
| PassExamples.CollidingNamesLastWins | exporter.py:41-57 | Two sites with the same site and circuit names: the later circuit record's value is the one kept. |
| PassExamples.MissingCircuitsKeepsEarlierWrites | exporter.py:47-48 | A second site without `circuits` keeps the first site's entries and its own info entry. It gets no site-gauge entry, later sites are not walked, and the pass ends with the missing key. |
| PassExamples.HelpTextNameUnmatched | exporter.py:21 | The circuit status "Circuit Issues", named in the help text, has no ordinal. "Issues" has ordinal 1. |

## Left out

- The HTTP GET with basic auth, `raise_for_status` and `response.json()` (exporter.py:37-39) are network I/O. The model takes their result as an input: a decoded body, or `RequestFailed`. A JSON decode error is counted as `RequestFailed`, because in current `requests` it is a `RequestException`.
- Loading `config.yaml` and converting `scrape_frequency` (exporter.py:8-14) are file I/O and a library parser.
- `start_http_server` and the text exposition of the registry (exporter.py:2, 70) belong to `prometheus_client`. So do the scrape server's concurrent reads of the store.
- The `while True` poll/sleep loop (exporter.py:73-75) is timing. `Metrics.ReplayConcat` states that successive passes compose. The README text above states that a `KeyMissing` outcome ends the loop.
- Printing the caught request exception (exporter.py:67) is logging.
- Dynamic typing: `site_id` and `company_id` are taken after `str(...)`, as strings. The `str()` that `prometheus_client` applies to every label value is not modelled. A JSON value of the wrong shape raises `TypeError`; that is not modelled either (for example, a `sites` value that is not a list).
- Gauge values are floats in `prometheus_client`. The model stores the integer ordinals 0..3, which convert exactly.
- The info metric's value is the empty dict passed to `.info({})`. The model records only the key.
