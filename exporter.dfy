/**
 * One pass of `scrape_api`: walk the decoded response site by site and circuit
 * by circuit, and write the info entry, the circuit gauges and the site gauge of
 * each site into the metric store. A missing JSON key stops the walk where it is
 * read; the writes made before it stay.
 */
module Exporter {
  import opened Wrappers
  import opened Status
  import opened Metrics

  /** A circuit record; a field is None when its JSON key is absent. */
  datatype Circuit = Circuit(circuitName: Option<string>, circuitStatus: Option<string>)

  /** A site record; a field is None when its JSON key is absent. Ids are taken after `str(...)`. */
  datatype Site = Site(
    siteId: Option<string>,
    siteName: Option<string>,
    companyName: Option<string>,
    companyId: Option<string>,
    siteStatus: Option<string>,
    circuits: Option<seq<Circuit>>)

  /** The value under the response's `data` key. */
  datatype Payload = Payload(sites: Option<seq<Site>>)

  /** What the HTTP request yields: a request exception, or the decoded JSON body. */
  datatype Response = RequestFailed | Decoded(data: Option<Payload>)

  /** The JSON keys whose absence raises `KeyError`. */
  datatype MissingKey =
    | DataKey | SitesKey
    | SiteIdKey | SiteNameKey | CompanyNameKey | CompanyIdKey | SiteStatusKey | CircuitsKey
    | CircuitNameKey | CircuitStatusKey

  /**
   * How a pass ends: normally, with a request exception that `scrape_api`
   * catches, or with a `KeyError` that it does not catch.
   */
  datatype Outcome = Completed | RequestError | KeyMissing(key: MissingKey)

  /** A stretch of a pass: the store writes it makes, in order, and how it ends. */
  datatype Tick = Tick(writes: seq<Write>, outcome: Outcome)

  /** Run `a`, then `b` unless `a` raised a `KeyError`. */
  function Then(a: Tick, b: Tick): Tick
  {
    if a.outcome.KeyMissing? then a else Tick(a.writes + b.writes, b.outcome)
  }

  /** The stretch that makes no write and ends normally. */
  const Skip: Tick := Tick([], Completed)

  /** Both keys of a circuit record are present. */
  predicate CircuitHasKeys(c: Circuit)
  {
    c.circuitName.Some? && c.circuitStatus.Some?
  }

  /**
   * One circuit: read `circuit_name`, then `circuit_status`, then run the status
   * ladder. It raises exactly when a key is missing, and then writes nothing;
   * otherwise it sets the circuit's entry to the index of a listed status, and
   * writes nothing for any other status.
   */
  function CircuitPass(siteName: string, c: Circuit): (r: Tick)
    ensures r.outcome == Completed <==> CircuitHasKeys(c)
    ensures r.outcome == Completed || r.outcome.KeyMissing?
    ensures |r.writes| <= 1
    ensures r.writes != [] <==> CircuitHasKeys(c) && c.circuitStatus.value in CircuitStatuses
    ensures r.writes != [] ==>
              r.writes[0].SetCircuit? && r.writes[0].ckey == CircuitKey(siteName, c.circuitName.value)
              && 0 <= r.writes[0].value < |CircuitStatuses| && CircuitStatuses[r.writes[0].value] == c.circuitStatus.value
  {
    if c.circuitName.None? then Tick([], KeyMissing(CircuitNameKey))
    else if c.circuitStatus.None? then Tick([], KeyMissing(CircuitStatusKey))
    else
      match CircuitOrdinal(c.circuitStatus.value)
      case Some(v) => Tick([SetCircuit(CircuitKey(siteName, c.circuitName.value), v)], Completed)
      case None => Skip
  }

  /** The circuits of one site, in order. */
  function CircuitsPass(siteName: string, cs: seq<Circuit>): Tick
    decreases |cs|
  {
    if cs == [] then Skip else Then(CircuitPass(siteName, cs[0]), CircuitsPass(siteName, cs[1..]))
  }

  /**
   * The site gauge write of the status ladder: one write under `(siteName,
   * status)` of the status's index for a listed status, none for any other.
   */
  function SiteGaugeWrites(siteName: string, status: string): (ws: seq<Write>)
    ensures |ws| <= 1
    ensures ws != [] <==> status in SiteStatuses
    ensures ws != [] ==>
              ws[0].SetSite? && ws[0].skey == SiteKey(siteName, status)
              && 0 <= ws[0].value < |SiteStatuses| && SiteStatuses[ws[0].value] == status
  {
    match SiteOrdinal(status)
    case Some(v) => [SetSite(SiteKey(siteName, status), v)]
    case None => []
  }

  /** The five scalar keys read before the info entry is recorded are all present. */
  predicate HasScalarKeys(s: Site)
  {
    s.siteId.Some? && s.siteName.Some? && s.companyName.Some? && s.companyId.Some? && s.siteStatus.Some?
  }

  /** The five scalar keys of a site record, in the order the site loop reads them. */
  const ScalarKeys: seq<MissingKey> := [SiteIdKey, SiteNameKey, CompanyNameKey, CompanyIdKey, SiteStatusKey]

  /** Site record `s` has key `k`; keys that are not keys of a site record are never present. */
  predicate HasSiteKey(s: Site, k: MissingKey)
  {
    match k
    case SiteIdKey => s.siteId.Some?
    case SiteNameKey => s.siteName.Some?
    case CompanyNameKey => s.companyName.Some?
    case CompanyIdKey => s.companyId.Some?
    case SiteStatusKey => s.siteStatus.Some?
    case CircuitsKey => s.circuits.Some?
    case _ => false
  }

  /** The scalar key whose read raises: the first of the five, in reading order, that is absent. */
  function MissingScalarKey(s: Site): (k: MissingKey)
    requires !HasScalarKeys(s)
    ensures k in ScalarKeys && !HasSiteKey(s, k)
    ensures forall i, j :: 0 <= i < j < |ScalarKeys| && ScalarKeys[j] == k ==> HasSiteKey(s, ScalarKeys[i])
  {
    if s.siteId.None? then SiteIdKey
    else if s.siteName.None? then SiteNameKey
    else if s.companyName.None? then CompanyNameKey
    else if s.companyId.None? then CompanyIdKey
    else SiteStatusKey
  }

  /** The info-metric labels of a site record, `str(site_id)` and `str(company_id)` included. */
  function InfoKeyOf(s: Site): InfoKey
    requires HasScalarKeys(s)
  {
    InfoKey(s.siteId.value, s.siteName.value, s.companyName.value, s.companyId.value)
  }

  /** Every key a site's walk reads is present: the five scalar keys, `circuits`, and both keys of each circuit. */
  predicate SiteHasKeys(s: Site)
  {
    HasScalarKeys(s) && s.circuits.Some?
    && forall j :: 0 <= j < |s.circuits.value| ==> CircuitHasKeys(s.circuits.value[j])
  }

  /** What one site does after its info entry: read `circuits`, walk them, then set the site gauge. */
  function SiteCircuitsPass(s: Site): Tick
    requires HasScalarKeys(s)
  {
    if s.circuits.None? then Tick([], KeyMissing(CircuitsKey))
    else Then(CircuitsPass(s.siteName.value, s.circuits.value),
              Tick(SiteGaugeWrites(s.siteName.value, s.siteStatus.value), Completed))
  }

  /** One site: read its five scalar keys, record the info entry, walk its circuits, then set its site gauge. */
  function SitePass(s: Site): Tick
  {
    if !HasScalarKeys(s) then Tick([], KeyMissing(MissingScalarKey(s)))
    else Then(Tick([PutInfo(InfoKeyOf(s))], Completed), SiteCircuitsPass(s))
  }

  /** The sites of the response, in order. */
  function SitesPass(ss: seq<Site>): Tick
    decreases |ss|
  {
    if ss == [] then Skip else Then(SitePass(ss[0]), SitesPass(ss[1..]))
  }

  /** One call of `scrape_api` on what the request yielded. */
  function Scrape(r: Response): Tick
  {
    match r
    case RequestFailed => Tick([], RequestError)
    case Decoded(data) =>
      if data.None? then Tick([], KeyMissing(DataKey))
      else if data.value.sites.None? then Tick([], KeyMissing(SitesKey))
      else SitesPass(data.value.sites.value)
  }

  /** The site records of a response, none when it has no `data.sites`. */
  function SitesOf(r: Response): seq<Site>
  {
    if r.Decoded? && r.data.Some? && r.data.value.sites.Some? then r.data.value.sites.value else []
  }

  /** Stretches chained with `Then` may be grouped either way. */
  lemma ThenAssociative(a: Tick, b: Tick, c: Tick)
    ensures Then(Then(a, b), c) == Then(a, Then(b, c))
  {
  }

  /** After writes `done`, a stretch that does not raise lets the rest run. */
  lemma ThenContinue(done: seq<Write>, a: Tick, rest: Tick)
    requires !a.outcome.KeyMissing?
    ensures Then(Tick(done, Completed), Then(a, rest)) == Then(Tick(done + a.writes, Completed), rest)
  {
    assert done + (a.writes + rest.writes) == (done + a.writes) + rest.writes;
  }

  /** After writes `done`, a stretch that raises ends the whole. */
  lemma ThenStop(done: seq<Write>, a: Tick, rest: Tick)
    requires a.outcome.KeyMissing?
    ensures Then(Tick(done, Completed), Then(a, rest)) == Tick(done + a.writes, a.outcome)
  {
  }

  /**
   * `scrape_api` against an explicitly passed store: the store afterwards is the
   * store before with the pass's writes applied in order, whatever the outcome.
   */
  method ScrapeApi(store: MetricStore, response: Response) returns (outcome: Outcome)
    modifies store
    ensures store.Current() == Replay(old(store.Current()), Scrape(response).writes)
    ensures outcome == Scrape(response).outcome
    ensures response.RequestFailed? ==> outcome == RequestError && store.Current() == old(store.Current())
    ensures old(store.Valid()) ==> store.Valid()
  {
    ghost var m0 := store.Current();
    if response.RequestFailed? {
      return RequestError;
    }
    if response.data.None? {
      return KeyMissing(DataKey);
    }
    if response.data.value.sites.None? {
      return KeyMissing(SitesKey);
    }
    var sites := response.data.value.sites.value;
    ghost var done: seq<Write> := [];
    var i := 0;
    while i < |sites|
      invariant 0 <= i <= |sites|
      invariant store.Current() == Replay(m0, done)
      invariant Then(Tick(done, Completed), SitesPass(sites[i..])) == Scrape(response)
      invariant old(store.Valid()) ==> store.Valid()
    {
      assert sites[i..][0] == sites[i] && sites[i..][1..] == sites[i + 1..];
      ghost var step := SitePass(sites[i]);
      ghost var rest := SitesPass(sites[i + 1..]);
      assert SitesPass(sites[i..]) == Then(step, rest);
      outcome := ApplySite(store, sites[i]);
      ReplayConcat(m0, done, step.writes);
      if outcome.KeyMissing? {
        ThenStop(done, step, rest);
        done := done + step.writes;
        return;
      }
      ThenContinue(done, step, rest);
      done := done + step.writes;
      i := i + 1;
    }
    assert done + [] == done;
    return Completed;
  }

  /** The body of the site loop of `scrape_api` for one site record. */
  method ApplySite(store: MetricStore, site: Site) returns (outcome: Outcome)
    modifies store
    ensures store.Current() == Replay(old(store.Current()), SitePass(site).writes)
    ensures outcome == SitePass(site).outcome
    ensures old(store.Valid()) ==> store.Valid()
  {
    ghost var m0 := store.Current();
    if site.siteId.None? {
      return KeyMissing(SiteIdKey);
    }
    if site.siteName.None? {
      return KeyMissing(SiteNameKey);
    }
    if site.companyName.None? {
      return KeyMissing(CompanyNameKey);
    }
    if site.companyId.None? {
      return KeyMissing(CompanyIdKey);
    }
    if site.siteStatus.None? {
      return KeyMissing(SiteStatusKey);
    }
    var siteName := site.siteName.value;
    var siteStatus := site.siteStatus.value;
    var infoKey := InfoKey(site.siteId.value, siteName, site.companyName.value, site.companyId.value);
    assert infoKey == InfoKeyOf(site);
    store.RecordInfo(infoKey);
    ghost var done := [PutInfo(infoKey)];
    assert store.Current() == Replay(m0, done);
    if site.circuits.None? {
      return KeyMissing(CircuitsKey);
    }
    ghost var circuitsPass := CircuitsPass(siteName, site.circuits.value);
    ghost var gauge := Tick(SiteGaugeWrites(siteName, siteStatus), Completed);
    assert SiteCircuitsPass(site) == Then(circuitsPass, gauge);
    assert SitePass(site) == Then(Tick(done, Completed), Then(circuitsPass, gauge));
    outcome := ApplyCircuits(store, siteName, site.circuits.value);
    ReplayConcat(m0, done, circuitsPass.writes);
    if outcome.KeyMissing? {
      ThenStop(done, circuitsPass, gauge);
      return;
    }
    ThenContinue(done, circuitsPass, gauge);
    done := done + circuitsPass.writes;
    assert done + gauge.writes + [] == done + gauge.writes;
    ApplySiteStatus(store, siteName, siteStatus);
    ReplayConcat(m0, done, gauge.writes);
    return Completed;
  }

  /** The circuit loop of `scrape_api` for the circuits of the site named `siteName`. */
  method ApplyCircuits(store: MetricStore, siteName: string, circuits: seq<Circuit>) returns (outcome: Outcome)
    modifies store
    ensures store.Current() == Replay(old(store.Current()), CircuitsPass(siteName, circuits).writes)
    ensures outcome == CircuitsPass(siteName, circuits).outcome
    ensures old(store.Valid()) ==> store.Valid()
  {
    ghost var m0 := store.Current();
    ghost var done: seq<Write> := [];
    assert circuits[0..] == circuits;
    var j := 0;
    while j < |circuits|
      invariant 0 <= j <= |circuits|
      invariant store.Current() == Replay(m0, done)
      invariant Then(Tick(done, Completed), CircuitsPass(siteName, circuits[j..])) == CircuitsPass(siteName, circuits)
      invariant old(store.Valid()) ==> store.Valid()
    {
      var circuit := circuits[j];
      assert circuits[j..][0] == circuit && circuits[j..][1..] == circuits[j + 1..];
      ghost var step := CircuitPass(siteName, circuit);
      ghost var rest := CircuitsPass(siteName, circuits[j + 1..]);
      assert CircuitsPass(siteName, circuits[j..]) == Then(step, rest);
      if circuit.circuitName.None? {
        ThenStop(done, step, rest);
        assert done + [] == done;
        return KeyMissing(CircuitNameKey);
      }
      if circuit.circuitStatus.None? {
        ThenStop(done, step, rest);
        assert done + [] == done;
        return KeyMissing(CircuitStatusKey);
      }
      ThenContinue(done, step, rest);
      ApplyCircuitStatus(store, siteName, circuit.circuitName.value, circuit.circuitStatus.value);
      ReplayConcat(m0, done, step.writes);
      done := done + step.writes;
      j := j + 1;
    }
    assert done + [] == done;
    return Completed;
  }

  /** The ladder on `circuit_status` for one circuit with both keys present. */
  method ApplyCircuitStatus(store: MetricStore, siteName: string, circuitName: string, circuitStatus: string)
    modifies store
    ensures store.Current() == Replay(old(store.Current()), CircuitPass(siteName, Circuit(Some(circuitName), Some(circuitStatus))).writes)
    ensures old(store.Valid()) ==> store.Valid()
  {
    var key := CircuitKey(siteName, circuitName);
    if circuitStatus == "Healthy" {
      store.SetCircuitGauge(key, 0);
    } else if circuitStatus == "Issues" {
      store.SetCircuitGauge(key, 1);
    } else if circuitStatus == "Circuit Down" {
      store.SetCircuitGauge(key, 2);
    }
    assert [SetCircuit(key, 0)][..0] == [];
  }

  /** The ladder on `site_status` for one site. */
  method ApplySiteStatus(store: MetricStore, siteName: string, siteStatus: string)
    modifies store
    ensures store.Current() == Replay(old(store.Current()), SiteGaugeWrites(siteName, siteStatus))
    ensures old(store.Valid()) ==> store.Valid()
  {
    var key := SiteKey(siteName, siteStatus);
    if siteStatus == "Site Healthy" {
      store.SetSiteGauge(key, 0);
    } else if siteStatus == "Degraded Availability" {
      store.SetSiteGauge(key, 1);
    } else if siteStatus == "Circuit Issues" {
      store.SetSiteGauge(key, 2);
    } else if siteStatus == "Site Offline" {
      store.SetSiteGauge(key, 3);
    }
    assert [SetSite(key, 0)][..0] == [];
  }
}
