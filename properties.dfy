/**
 * What one pass of `scrape_api` does to the metric store, stated against the
 * records of the response: which record's value each entry ends up holding,
 * which entries a pass leaves alone, and where a missing key stops the walk.
 */
module PassProperties {
  import opened Wrappers
  import opened Status
  import opened Metrics
  import opened Exporter

  // ---------------------------------------------------------------------------
  // Composition of stretches

  /** Walking two lists of circuits one after the other is walking their concatenation. */
  lemma {:induction false} CircuitsPassConcat(siteName: string, a: seq<Circuit>, b: seq<Circuit>)
    ensures CircuitsPass(siteName, a + b) == Then(CircuitsPass(siteName, a), CircuitsPass(siteName, b))
    decreases |a|
  {
    if a == [] {
      assert a + b == b;
      assert [] + CircuitsPass(siteName, b).writes == CircuitsPass(siteName, b).writes;
    } else {
      assert (a + b)[0] == a[0] && (a + b)[1..] == a[1..] + b;
      CircuitsPassConcat(siteName, a[1..], b);
      ThenAssociative(CircuitPass(siteName, a[0]), CircuitsPass(siteName, a[1..]), CircuitsPass(siteName, b));
    }
  }

  /** Walking two lists of sites one after the other is walking their concatenation. */
  lemma {:induction false} SitesPassConcat(a: seq<Site>, b: seq<Site>)
    ensures SitesPass(a + b) == Then(SitesPass(a), SitesPass(b))
    decreases |a|
  {
    if a == [] {
      assert a + b == b;
      assert [] + SitesPass(b).writes == SitesPass(b).writes;
    } else {
      assert (a + b)[0] == a[0] && (a + b)[1..] == a[1..] + b;
      SitesPassConcat(a[1..], b);
      ThenAssociative(SitePass(a[0]), SitesPass(a[1..]), SitesPass(b));
    }
  }

  /** A circuit walk ends normally or on a missing key, never with a request error. */
  lemma {:induction false} CircuitsPassEnds(siteName: string, cs: seq<Circuit>)
    ensures CircuitsPass(siteName, cs).outcome == Completed || CircuitsPass(siteName, cs).outcome.KeyMissing?
    decreases |cs|
  {
    if cs != [] {
      CircuitsPassEnds(siteName, cs[1..]);
    }
  }

  /** A site walk ends normally or on a missing key, never with a request error. */
  lemma SitePassEnds(s: Site)
    ensures SitePass(s).outcome == Completed || SitePass(s).outcome.KeyMissing?
  {
    if s.siteName.Some? && s.circuits.Some? {
      CircuitsPassEnds(s.siteName.value, s.circuits.value);
    }
  }

  /** The walk over `init + [c]` is the walk over `init`, then circuit `c`. */
  lemma CircuitsPassSnoc(siteName: string, init: seq<Circuit>, c: Circuit)
    ensures CircuitsPass(siteName, init + [c]) == Then(CircuitsPass(siteName, init), CircuitPass(siteName, c))
  {
    CircuitsPassConcat(siteName, init, [c]);
    assert [c][0] == c && [c][1..] == [];
    assert CircuitPass(siteName, c).writes + [] == CircuitPass(siteName, c).writes;
  }

  /** Ending a stretch that never raises a request error with an empty stretch changes nothing. */
  lemma ThenSkip(t: Tick)
    requires t.outcome == Completed || t.outcome.KeyMissing?
    ensures Then(t, Skip) == t
  {
    assert t.writes + [] == t.writes;
  }

  /** The walk over `init + [s]` is the walk over `init`, then site `s`. */
  lemma SitesPassSnoc(init: seq<Site>, s: Site)
    ensures SitesPass(init + [s]) == Then(SitesPass(init), SitePass(s))
  {
    SitesPassConcat(init, [s]);
    assert [s][0] == s && [s][1..] == [];
    SitePassEnds(s);
    ThenSkip(SitePass(s));
  }

  // ---------------------------------------------------------------------------
  // The store invariant

  /** Every write of `ws` keeps the store consistent. */
  ghost predicate AllWellFormed(ws: seq<Write>)
  {
    forall i :: 0 <= i < |ws| ==> WellFormed(ws[i])
  }

  /** Two batches of such writes, concatenated, are such writes. */
  lemma AllWellFormedConcat(a: seq<Write>, b: seq<Write>)
    requires AllWellFormed(a) && AllWellFormed(b)
    ensures AllWellFormed(a + b)
  {
    forall i | 0 <= i < |a + b| ensures WellFormed((a + b)[i]) {
      if i < |a| {
        assert (a + b)[i] == a[i];
      } else {
        assert (a + b)[i] == b[i - |a|];
      }
    }
  }

  lemma {:induction false} CircuitsPassWellFormed(siteName: string, cs: seq<Circuit>)
    ensures AllWellFormed(CircuitsPass(siteName, cs).writes)
    decreases |cs|
  {
    if cs != [] {
      CircuitsPassWellFormed(siteName, cs[1..]);
      AllWellFormedConcat(CircuitPass(siteName, cs[0]).writes, CircuitsPass(siteName, cs[1..]).writes);
    }
  }

  lemma SitePassWellFormed(s: Site)
    ensures AllWellFormed(SitePass(s).writes)
  {
    if HasScalarKeys(s) && s.circuits.Some? {
      var name, status := s.siteName.value, s.siteStatus.value;
      var info := [PutInfo(InfoKeyOf(s))];
      var cp := CircuitsPass(name, s.circuits.value);
      CircuitsPassWellFormed(name, s.circuits.value);
      AllWellFormedConcat(info, cp.writes);
      AllWellFormedConcat(info + cp.writes, SiteGaugeWrites(name, status));
      assert info + (cp.writes + SiteGaugeWrites(name, status)) == info + cp.writes + SiteGaugeWrites(name, status);
    }
  }

  lemma {:induction false} SitesPassWellFormed(ss: seq<Site>)
    ensures AllWellFormed(SitesPass(ss).writes)
    decreases |ss|
  {
    if ss != [] {
      SitePassWellFormed(ss[0]);
      SitesPassWellFormed(ss[1..]);
      AllWellFormedConcat(SitePass(ss[0]).writes, SitesPass(ss[1..]).writes);
    }
  }

  /**
   * A pass keeps the store consistent: every circuit gauge entry holds one of
   * the three circuit ordinals, and every site gauge entry holds the ordinal of
   * the status string that is part of its own key.
   */
  lemma ScrapeKeepsConsistent(m: Snapshot, r: Response)
    requires Consistent(m)
    ensures Consistent(Replay(m, Scrape(r).writes))
  {
    if r.Decoded? && r.data.Some? && r.data.value.sites.Some? {
      SitesPassWellFormed(r.data.value.sites.value);
    }
    ReplayKeepsConsistent(m, Scrape(r).writes);
  }

  // ---------------------------------------------------------------------------
  // Circuit gauge: last writer wins, by record

  /** `c` is a circuit record of site `siteName` keyed `k` whose status the ladder recognises. */
  predicate ReportsCircuit(siteName: string, c: Circuit, k: CircuitKey)
  {
    siteName == k.siteName && c.circuitName == Some(k.circuitName)
    && c.circuitStatus.Some? && CircuitOrdinal(c.circuitStatus.value).Some?
  }

  /** The ordinal of the last record among circuits `cs` of site `siteName` that reports key `k`. */
  function LastReportedCircuitIn(siteName: string, cs: seq<Circuit>, k: CircuitKey): Option<int>
    decreases |cs|
  {
    if cs == [] then None
    else if ReportsCircuit(siteName, cs[|cs| - 1], k) then CircuitOrdinal(cs[|cs| - 1].circuitStatus.value)
    else LastReportedCircuitIn(siteName, cs[..|cs| - 1], k)
  }

  /** The ordinal of the last circuit record, across sites `ss` in iteration order, that reports key `k`. */
  function LastReportedCircuit(ss: seq<Site>, k: CircuitKey): Option<int>
    decreases |ss|
  {
    if ss == [] then None
    else
      var s := ss[|ss| - 1];
      var here := if s.siteName.Some? && s.circuits.Some? then LastReportedCircuitIn(s.siteName.value, s.circuits.value, k) else None;
      if here.Some? then here else LastReportedCircuit(ss[..|ss| - 1], k)
  }

  /** One circuit writes key `k` exactly when it reports `k`, and then writes its status's ordinal. */
  lemma CircuitPassLast(siteName: string, c: Circuit, k: CircuitKey)
    ensures LastCircuitWrite(CircuitPass(siteName, c).writes, k)
         == if ReportsCircuit(siteName, c, k) then CircuitOrdinal(c.circuitStatus.value) else None
  {
    var ws := CircuitPass(siteName, c).writes;
    if ws != [] {
      assert ws[..0] == [];
    }
  }

  /** On circuits walked to the end, the last write to `k` is the last record reporting `k`. */
  lemma {:induction false} CircuitsPassLast(siteName: string, cs: seq<Circuit>, k: CircuitKey)
    requires !CircuitsPass(siteName, cs).outcome.KeyMissing?
    ensures LastCircuitWrite(CircuitsPass(siteName, cs).writes, k) == LastReportedCircuitIn(siteName, cs, k)
    decreases |cs|
  {
    if cs != [] {
      var init, c := cs[..|cs| - 1], cs[|cs| - 1];
      assert cs == init + [c];
      CircuitsPassSnoc(siteName, init, c);
      CircuitsPassLast(siteName, init, k);
      CircuitPassLast(siteName, c, k);
      LastCircuitWriteConcat(CircuitsPass(siteName, init).writes, CircuitPass(siteName, c).writes, k);
    }
  }

  /** Whatever the outcome, a write to `k` among circuits `cs` needs a record reporting `k`. */
  lemma {:induction false} CircuitsPassNoReport(siteName: string, cs: seq<Circuit>, k: CircuitKey)
    requires LastReportedCircuitIn(siteName, cs, k).None?
    ensures LastCircuitWrite(CircuitsPass(siteName, cs).writes, k).None?
    decreases |cs|
  {
    if cs != [] {
      var init, c := cs[..|cs| - 1], cs[|cs| - 1];
      assert cs == init + [c];
      CircuitsPassSnoc(siteName, init, c);
      CircuitsPassNoReport(siteName, init, k);
      CircuitPassLast(siteName, c, k);
      LastCircuitWriteConcat(CircuitsPass(siteName, init).writes, CircuitPass(siteName, c).writes, k);
    }
  }

  /** The circuit writes of one site are those of its circuit walk: the info entry and the site gauge write none. */
  lemma SitePassCircuitWrites(s: Site, k: CircuitKey)
    requires HasScalarKeys(s) && s.circuits.Some?
    ensures LastCircuitWrite(SitePass(s).writes, k) == LastCircuitWrite(CircuitsPass(s.siteName.value, s.circuits.value).writes, k)
  {
    var name, status := s.siteName.value, s.siteStatus.value;
    var info := [PutInfo(InfoKeyOf(s))];
    var cp := CircuitsPass(name, s.circuits.value);
    var gauge := SiteGaugeWrites(name, status);
    assert LastCircuitWrite(info, k).None? by {
      assert info[..0] == [];
    }
    assert LastCircuitWrite(gauge, k).None? by {
      if gauge != [] {
        assert gauge[..0] == [];
      }
    }
    LastCircuitWriteConcat(info, cp.writes, k);
    if cp.outcome.KeyMissing? {
      assert SitePass(s).writes == info + cp.writes;
    } else {
      assert SitePass(s).writes == info + cp.writes + gauge;
      LastCircuitWriteConcat(info + cp.writes, gauge, k);
    }
  }

  /** On sites walked to the end, the last write to `k` is the last circuit record reporting `k`. */
  lemma {:induction false} SitesPassCircuitLast(ss: seq<Site>, k: CircuitKey)
    requires !SitesPass(ss).outcome.KeyMissing?
    ensures LastCircuitWrite(SitesPass(ss).writes, k) == LastReportedCircuit(ss, k)
    decreases |ss|
  {
    if ss != [] {
      var init, s := ss[..|ss| - 1], ss[|ss| - 1];
      assert ss == init + [s];
      SitesPassSnoc(init, s);
      SitesPassCircuitLast(init, k);
      SitePassCircuitWrites(s, k);
      CircuitsPassLast(s.siteName.value, s.circuits.value, k);
      LastCircuitWriteConcat(SitesPass(init).writes, SitePass(s).writes, k);
    }
  }

  /** Whatever the outcome, a write to `k` among sites `ss` needs a circuit record reporting `k`. */
  lemma {:induction false} SitesPassCircuitNoReport(ss: seq<Site>, k: CircuitKey)
    requires LastReportedCircuit(ss, k).None?
    ensures LastCircuitWrite(SitesPass(ss).writes, k).None?
    decreases |ss|
  {
    if ss != [] {
      var init, s := ss[..|ss| - 1], ss[|ss| - 1];
      assert ss == init + [s];
      SitesPassSnoc(init, s);
      SitesPassCircuitNoReport(init, k);
      if !SitesPass(init).outcome.KeyMissing? {
        LastCircuitWriteConcat(SitesPass(init).writes, SitePass(s).writes, k);
        if HasScalarKeys(s) && s.circuits.Some? {
          SitePassCircuitWrites(s, k);
          CircuitsPassNoReport(s.siteName.value, s.circuits.value, k);
        } else {
          assert SitePass(s).writes == [] || SitePass(s).writes[0].PutInfo?;
          assert |SitePass(s).writes| <= 1;
          var ws := SitePass(s).writes;
          if ws != [] {
            assert ws[..0] == [];
          }
        }
      }
    }
  }

  /**
   * Last writer wins: after a pass that walks every record, the circuit entry
   * under `k` holds the ordinal of the last circuit record (sites in order, then
   * circuits in order) with that site and circuit name and a recognised status;
   * with no such record it keeps whatever it held before, or stays absent.
   */
  lemma CompletedPassCircuitEntry(m: Snapshot, r: Response, k: CircuitKey)
    requires Scrape(r).outcome == Completed
    ensures Lookup(Replay(m, Scrape(r).writes).circuits, k)
         == if LastReportedCircuit(SitesOf(r), k).Some? then LastReportedCircuit(SitesOf(r), k) else Lookup(m.circuits, k)
  {
    SitesPassCircuitLast(SitesOf(r), k);
    ReplayCircuitValue(m, Scrape(r).writes, k);
  }

  /**
   * A circuit key that no record of the response reports with a recognised
   * status keeps its entry (or its absence) whatever the pass's outcome: an
   * unknown status adds and changes nothing.
   */
  lemma UnreportedCircuitUnchanged(m: Snapshot, r: Response, k: CircuitKey)
    requires LastReportedCircuit(SitesOf(r), k).None?
    ensures Lookup(Replay(m, Scrape(r).writes).circuits, k) == Lookup(m.circuits, k)
  {
    if r.Decoded? && r.data.Some? && r.data.value.sites.Some? {
      SitesPassCircuitNoReport(SitesOf(r), k);
    }
    ReplayCircuitValue(m, Scrape(r).writes, k);
  }

  // ---------------------------------------------------------------------------
  // Site gauge: last writer wins, by record

  /** Site record `s` reports site key `k`: its name and status are those of `k` and the status is recognised. */
  predicate ReportsSite(s: Site, k: SiteKey)
  {
    s.siteName == Some(k.siteName) && s.siteStatus == Some(k.siteStatus) && SiteOrdinal(k.siteStatus).Some?
  }

  /** The ordinal of the last site record among `ss` that reports key `k`. */
  function LastReportedSite(ss: seq<Site>, k: SiteKey): Option<int>
    decreases |ss|
  {
    if ss == [] then None
    else if ReportsSite(ss[|ss| - 1], k) then SiteOrdinal(ss[|ss| - 1].siteStatus.value)
    else LastReportedSite(ss[..|ss| - 1], k)
  }

  /** A circuit walk writes no site-gauge entry. */
  lemma {:induction false} CircuitsPassNoSiteWrite(siteName: string, cs: seq<Circuit>, k: SiteKey)
    ensures LastSiteWrite(CircuitsPass(siteName, cs).writes, k).None?
    decreases |cs|
  {
    if cs != [] {
      var init, c := cs[..|cs| - 1], cs[|cs| - 1];
      assert cs == init + [c];
      CircuitsPassSnoc(siteName, init, c);
      CircuitsPassNoSiteWrite(siteName, init, k);
      var ws := CircuitPass(siteName, c).writes;
      assert LastSiteWrite(ws, k).None? by {
        if ws != [] {
          assert ws[..0] == [];
        }
      }
      LastSiteWriteConcat(CircuitsPass(siteName, init).writes, ws, k);
    }
  }

  /**
   * One site writes site key `k` exactly when it reports `k` and its walk does
   * not stop on a missing key: the site gauge comes after the circuits, so a
   * site whose `circuits` key or one of whose circuit keys is missing writes no
   * site gauge.
   */
  lemma SitePassSiteWrite(s: Site, k: SiteKey)
    ensures LastSiteWrite(SitePass(s).writes, k)
         == if ReportsSite(s, k) && !SitePass(s).outcome.KeyMissing? then SiteOrdinal(k.siteStatus) else None
  {
    var ws := SitePass(s).writes;
    if HasScalarKeys(s) {
      var name, status := s.siteName.value, s.siteStatus.value;
      var info := [PutInfo(InfoKeyOf(s))];
      assert LastSiteWrite(info, k).None? by {
        assert info[..0] == [];
      }
      if s.circuits.None? {
        assert ws == info;
      } else {
        var cp := CircuitsPass(name, s.circuits.value);
        var gauge := SiteGaugeWrites(name, status);
        CircuitsPassNoSiteWrite(name, s.circuits.value, k);
        LastSiteWriteConcat(info, cp.writes, k);
        assert LastSiteWrite(gauge, k) == if ReportsSite(s, k) then SiteOrdinal(status) else None by {
          if gauge != [] {
            assert gauge[..0] == [];
          }
        }
        if cp.outcome.KeyMissing? {
          assert ws == info + cp.writes;
        } else {
          assert ws == info + cp.writes + gauge;
          LastSiteWriteConcat(info + cp.writes, gauge, k);
        }
      }
    } else {
      assert ws == [];
    }
  }

  /** On sites walked to the end, the last write to site key `k` is the last site record reporting `k`. */
  lemma {:induction false} SitesPassSiteLast(ss: seq<Site>, k: SiteKey)
    requires !SitesPass(ss).outcome.KeyMissing?
    ensures LastSiteWrite(SitesPass(ss).writes, k) == LastReportedSite(ss, k)
    decreases |ss|
  {
    if ss != [] {
      var init, s := ss[..|ss| - 1], ss[|ss| - 1];
      assert ss == init + [s];
      SitesPassSnoc(init, s);
      SitesPassSiteLast(init, k);
      SitePassSiteWrite(s, k);
      LastSiteWriteConcat(SitesPass(init).writes, SitePass(s).writes, k);
    }
  }

  /** Whatever the outcome, a write to site key `k` needs a site record reporting `k`. */
  lemma {:induction false} SitesPassSiteNoReport(ss: seq<Site>, k: SiteKey)
    requires LastReportedSite(ss, k).None?
    ensures LastSiteWrite(SitesPass(ss).writes, k).None?
    decreases |ss|
  {
    if ss != [] {
      var init, s := ss[..|ss| - 1], ss[|ss| - 1];
      assert ss == init + [s];
      SitesPassSnoc(init, s);
      SitesPassSiteNoReport(init, k);
      if !SitesPass(init).outcome.KeyMissing? {
        SitePassSiteWrite(s, k);
        LastSiteWriteConcat(SitesPass(init).writes, SitePass(s).writes, k);
      }
    }
  }

  /**
   * Last writer wins for the site gauge: after a pass that walks every record,
   * the entry under `(site_name, site_status)` is the ordinal of that status
   * when some site record carries that name and that recognised status, and
   * otherwise keeps what it held before; entries under a site's earlier status
   * strings are not cleared.
   */
  lemma CompletedPassSiteEntry(m: Snapshot, r: Response, k: SiteKey)
    requires Scrape(r).outcome == Completed
    ensures Lookup(Replay(m, Scrape(r).writes).sites, k)
         == if LastReportedSite(SitesOf(r), k).Some? then LastReportedSite(SitesOf(r), k) else Lookup(m.sites, k)
  {
    SitesPassSiteLast(SitesOf(r), k);
    ReplaySiteValue(m, Scrape(r).writes, k);
  }

  /** A site key that no site record reports keeps its entry (or its absence) whatever the pass's outcome. */
  lemma UnreportedSiteUnchanged(m: Snapshot, r: Response, k: SiteKey)
    requires LastReportedSite(SitesOf(r), k).None?
    ensures Lookup(Replay(m, Scrape(r).writes).sites, k) == Lookup(m.sites, k)
  {
    if r.Decoded? && r.data.Some? && r.data.value.sites.Some? {
      SitesPassSiteNoReport(SitesOf(r), k);
    }
    ReplaySiteValue(m, Scrape(r).writes, k);
  }

  // ---------------------------------------------------------------------------
  // Which records end a pass

  /** A circuit walk ends normally exactly when every circuit has both keys; the status strings play no part. */
  lemma {:induction false} CircuitsPassOutcome(siteName: string, cs: seq<Circuit>)
    ensures CircuitsPass(siteName, cs).outcome == Completed <==> forall j :: 0 <= j < |cs| ==> CircuitHasKeys(cs[j])
    decreases |cs|
  {
    if cs != [] {
      CircuitsPassOutcome(siteName, cs[1..]);
      assert forall j :: 0 < j < |cs| ==> cs[j] == cs[1..][j - 1];
    }
  }

  /**
   * The circuit walk stops at the first circuit `j` with a missing key, with
   * that key's error: the circuits before it have written, it and the ones
   * after it have not.
   */
  lemma CircuitsPassStopsAt(siteName: string, cs: seq<Circuit>, j: nat)
    requires j < |cs| && !CircuitHasKeys(cs[j])
    requires forall i :: 0 <= i < j ==> CircuitHasKeys(cs[i])
    ensures CircuitsPass(siteName, cs)
         == Tick(CircuitsPass(siteName, cs[..j]).writes,
                 KeyMissing(if cs[j].circuitName.None? then CircuitNameKey else CircuitStatusKey))
  {
    assert cs == cs[..j] + cs[j..];
    CircuitsPassConcat(siteName, cs[..j], cs[j..]);
    CircuitsPassOutcome(siteName, cs[..j]);
    assert cs[j..][0] == cs[j];
    assert CircuitsPass(siteName, cs[..j]).writes + [] == CircuitsPass(siteName, cs[..j]).writes;
  }

  /** A circuit with both keys and an unknown status writes nothing, and the walk goes on with the next circuit. */
  lemma UnknownCircuitStatusSkipped(siteName: string, c: Circuit, rest: seq<Circuit>)
    requires CircuitHasKeys(c) && c.circuitStatus.value !in CircuitStatuses
    ensures CircuitsPass(siteName, [c] + rest) == CircuitsPass(siteName, rest)
  {
    assert ([c] + rest)[0] == c && ([c] + rest)[1..] == rest;
    assert [] + CircuitsPass(siteName, rest).writes == CircuitsPass(siteName, rest).writes;
  }

  /** One site ends normally exactly when every key its walk reads is present; the status strings play no part. */
  lemma SitePassOutcome(s: Site)
    ensures SitePass(s).outcome == Completed <==> SiteHasKeys(s)
  {
    if HasScalarKeys(s) && s.circuits.Some? {
      CircuitsPassOutcome(s.siteName.value, s.circuits.value);
      CircuitsPassEnds(s.siteName.value, s.circuits.value);
    }
  }

  /**
   * A site whose circuit `j` is the first with a missing key: the site's info
   * entry and the writes of the circuits before `j` stay, the site gauge is not
   * set, and the site ends with that key's error.
   */
  lemma SitePassStopsInCircuits(s: Site, j: nat)
    requires HasScalarKeys(s) && s.circuits.Some?
    requires j < |s.circuits.value| && !CircuitHasKeys(s.circuits.value[j])
    requires forall i :: 0 <= i < j ==> CircuitHasKeys(s.circuits.value[i])
    ensures SitePass(s)
         == Tick([PutInfo(InfoKeyOf(s))] + CircuitsPass(s.siteName.value, s.circuits.value[..j]).writes,
                 KeyMissing(if s.circuits.value[j].circuitName.None? then CircuitNameKey else CircuitStatusKey))
  {
    CircuitsPassStopsAt(s.siteName.value, s.circuits.value, j);
  }

  /**
   * A site with every key present and an unknown site status records its info
   * entry and its circuits, sets no site gauge, and the walk goes on with the
   * next site.
   */
  lemma UnknownSiteStatusSkipped(s: Site, rest: seq<Site>)
    requires SiteHasKeys(s) && s.siteStatus.value !in SiteStatuses
    ensures SitesPass([s] + rest)
         == Tick([PutInfo(InfoKeyOf(s))] + CircuitsPass(s.siteName.value, s.circuits.value).writes + SitesPass(rest).writes,
                 SitesPass(rest).outcome)
  {
    SitePassOutcome(s);
    var cp := CircuitsPass(s.siteName.value, s.circuits.value);
    assert SitePass(s).writes == [PutInfo(InfoKeyOf(s))] + cp.writes by {
      assert cp.writes + [] == cp.writes;
    }
    assert ([s] + rest)[0] == s && ([s] + rest)[1..] == rest;
  }

  /** A walk over sites ends normally exactly when every key of every site is present. */
  lemma {:induction false} SitesPassOutcome(ss: seq<Site>)
    ensures SitesPass(ss).outcome == Completed <==> forall i :: 0 <= i < |ss| ==> SiteHasKeys(ss[i])
    decreases |ss|
  {
    if ss != [] {
      SitePassOutcome(ss[0]);
      SitePassEnds(ss[0]);
      SitesPassOutcome(ss[1..]);
      assert forall i :: 0 < i < |ss| ==> ss[i] == ss[1..][i - 1];
    }
  }

  /**
   * How a pass ends, in terms of the response alone: a request exception ends
   * it with the request error; otherwise it ends normally exactly when `data`,
   * `sites` and every key of every site are present, and with a missing key
   * in every other case.
   */
  lemma ScrapeOutcome(r: Response)
    ensures Scrape(r).outcome == RequestError <==> r.RequestFailed?
    ensures Scrape(r).outcome == Completed
        <==> r.Decoded? && r.data.Some? && r.data.value.sites.Some?
             && forall i :: 0 <= i < |r.data.value.sites.value| ==> SiteHasKeys(r.data.value.sites.value[i])
    ensures r.Decoded? && Scrape(r).outcome != Completed ==> Scrape(r).outcome.KeyMissing?
  {
    if r.Decoded? && r.data.Some? && r.data.value.sites.Some? {
      SitesPassOutcome(r.data.value.sites.value);
      SitesPassNeverRequestError(r.data.value.sites.value);
    }
  }

  /** A walk over sites never ends with a request error. */
  lemma {:induction false} SitesPassNeverRequestError(ss: seq<Site>)
    ensures SitesPass(ss).outcome == Completed || SitesPass(ss).outcome.KeyMissing?
    decreases |ss|
  {
    if ss != [] {
      SitePassEnds(ss[0]);
      SitesPassNeverRequestError(ss[1..]);
    }
  }

  // ---------------------------------------------------------------------------
  // Where a missing key stops the walk

  /** Every key of every site before index `i` is present. */
  predicate CompletesBefore(ss: seq<Site>, i: int)
  {
    forall j :: 0 <= j < i && j < |ss| ==> SiteHasKeys(ss[j])
  }

  /** If every key of the first `i` sites is present, the walk over them ends normally. */
  lemma {:induction false} PrefixCompletes(ss: seq<Site>, i: nat)
    requires i <= |ss| && CompletesBefore(ss, i)
    ensures SitesPass(ss[..i]).outcome == Completed
    decreases i
  {
    if i > 0 {
      assert ss[..i] == ss[..i - 1] + [ss[i - 1]];
      SitesPassSnoc(ss[..i - 1], ss[i - 1]);
      PrefixCompletes(ss, i - 1);
      SitePassOutcome(ss[i - 1]);
    }
  }

  /** The walk reaches site `i`: its writes follow those of the sites before it. */
  lemma SitesPassAt(ss: seq<Site>, i: nat)
    requires i < |ss| && CompletesBefore(ss, i)
    ensures SitesPass(ss) == Then(Tick(SitesPass(ss[..i]).writes, Completed), Then(SitePass(ss[i]), SitesPass(ss[i + 1..])))
  {
    assert ss == ss[..i] + ss[i..];
    SitesPassConcat(ss[..i], ss[i..]);
    PrefixCompletes(ss, i);
    assert ss[i..][0] == ss[i] && ss[i..][1..] == ss[i + 1..];
  }

  /**
   * Site `i` is the first site with a missing key: the pass ends there with
   * that key's error, the writes of the sites before it and of site `i` up to
   * the missing key stay, and no later site is walked.
   */
  lemma AbortStopsWalk(m: Snapshot, r: Response, i: nat)
    requires i < |SitesOf(r)| && CompletesBefore(SitesOf(r), i)
    requires !SiteHasKeys(SitesOf(r)[i])
    ensures Scrape(r).outcome.KeyMissing? && Scrape(r).outcome == SitePass(SitesOf(r)[i]).outcome
    ensures Replay(m, Scrape(r).writes) == Replay(Replay(m, SitesPass(SitesOf(r)[..i]).writes), SitePass(SitesOf(r)[i]).writes)
  {
    var ss := SitesOf(r);
    SitesPassAt(ss, i);
    SitePassOutcome(ss[i]);
    SitePassEnds(ss[i]);
    ThenStop(SitesPass(ss[..i]).writes, SitePass(ss[i]), SitesPass(ss[i + 1..]));
    ReplayConcat(m, SitesPass(ss[..i]).writes, SitePass(ss[i]).writes);
  }

  /**
   * Every site the walk reaches and whose five scalar keys are present has its
   * info entry afterwards, whatever its status string and whether or not its
   * circuits are then read successfully.
   */
  lemma InfoRecorded(m: Snapshot, r: Response, i: nat)
    requires i < |SitesOf(r)| && CompletesBefore(SitesOf(r), i)
    requires HasScalarKeys(SitesOf(r)[i])
    ensures InfoKeyOf(SitesOf(r)[i]) in Replay(m, Scrape(r).writes).info
  {
    var ss := SitesOf(r);
    var prefix := SitesPass(ss[..i]).writes;
    var here := SitePass(ss[i]);
    assert here.writes[0] == PutInfo(InfoKeyOf(ss[i]));
    SitesPassAt(ss, i);
    var ws := Scrape(r).writes;
    assert ws == prefix + here.writes || ws == prefix + (here.writes + SitesPass(ss[i + 1..]).writes);
    assert ws[|prefix|] == PutInfo(InfoKeyOf(ss[i]));
    assert InfoKeyOf(ss[i]) in InfoWritten(ws);
    ReplayInfo(m, ws);
  }
}
