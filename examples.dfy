/** Concrete passes over small responses, worked out against the model. */
module PassExamples {
  import opened Wrappers
  import opened Status
  import opened Metrics
  import opened Exporter

  function SiteRecord(id: string, name: string, status: string, cs: seq<Circuit>): Site
  {
    Site(Some(id), Some(name), Some("Acme"), Some("7"), Some(status), Some(cs))
  }

  function CircuitRecord(name: string, status: string): Circuit
  {
    Circuit(Some(name), Some(status))
  }

  /** One more step of a replay over a prefix of `ws`. */
  lemma ReplayPrefix(m: Snapshot, ws: seq<Write>, k: nat)
    requires 0 < k <= |ws|
    ensures Replay(m, ws[..k]) == Put(Replay(m, ws[..k - 1]), ws[k - 1])
  {
    assert ws[..k][..k - 1] == ws[..k - 1];
  }

  lemma ReplayTwo(m: Snapshot, w0: Write, w1: Write)
    ensures Replay(m, [w0, w1]) == Put(Put(m, w0), w1)
  {
    var ws := [w0, w1];
    assert ws[..0] == [] && ws[..2] == ws;
    ReplayPrefix(m, ws, 1);
    ReplayPrefix(m, ws, 2);
  }

  lemma ReplayFour(m: Snapshot, w0: Write, w1: Write, w2: Write, w3: Write)
    ensures Replay(m, [w0, w1, w2, w3]) == Put(Put(Put(Put(m, w0), w1), w2), w3)
  {
    var ws := [w0, w1, w2, w3];
    assert ws[..0] == [] && ws[..4] == ws;
    ReplayPrefix(m, ws, 1);
    ReplayPrefix(m, ws, 2);
    ReplayPrefix(m, ws, 3);
    ReplayPrefix(m, ws, 4);
  }

  lemma ReplaySix(m: Snapshot, w0: Write, w1: Write, w2: Write, w3: Write, w4: Write, w5: Write)
    ensures Replay(m, [w0, w1, w2, w3, w4, w5]) == Put(Put(Put(Put(Put(Put(m, w0), w1), w2), w3), w4), w5)
  {
    var ws := [w0, w1, w2, w3, w4, w5];
    assert ws[..0] == [] && ws[..6] == ws;
    ReplayPrefix(m, ws, 1);
    ReplayPrefix(m, ws, 2);
    ReplayPrefix(m, ws, 3);
    ReplayPrefix(m, ws, 4);
    ReplayPrefix(m, ws, 5);
    ReplayPrefix(m, ws, 6);
  }

  /** The walk over a non-empty list of sites, one site at a time. */
  lemma SitesPassUnfolds(ss: seq<Site>)
    requires ss != []
    ensures SitesPass(ss) == Then(SitePass(ss[0]), SitesPass(ss[1..]))
  {
  }

  /** The walk over two sites that both end normally. */
  lemma TwoSitesPass(a: Site, b: Site)
    requires SitePass(a).outcome == Completed && SitePass(b).outcome == Completed
    ensures SitesPass([a, b]) == Tick(SitePass(a).writes + SitePass(b).writes, Completed)
  {
    SitesPassUnfolds([a, b]);
    SitesPassUnfolds([b]);
    assert [a, b][1..] == [b] && [b][1..] == [];
    assert SitePass(b).writes + [] == SitePass(b).writes;
  }

  const SiteA := SiteRecord("1", "A", "Site Healthy", [CircuitRecord("c1", "Healthy")])
  const SiteB := SiteRecord("2", "B", "Circuit Issues", [CircuitRecord("c2", "Circuit Down")])

  /** Two sites: one healthy with a healthy circuit, one with circuit issues and a circuit down. */
  const Sample: Response := Decoded(Some(Payload(Some([SiteA, SiteB]))))

  /** From an empty store the sample leaves exactly two circuit entries, two site entries and two info entries. */
  lemma SampleFromEmpty()
    ensures Scrape(Sample).outcome == Completed
    ensures Replay(Empty, Scrape(Sample).writes)
         == Snapshot(
              map[CircuitKey("A", "c1") := 0, CircuitKey("B", "c2") := 2],
              map[SiteKey("A", "Site Healthy") := 0, SiteKey("B", "Circuit Issues") := 2],
              {InfoKey("1", "A", "Acme", "7"), InfoKey("2", "B", "Acme", "7")})
  {
    var w0, w1, w2 := PutInfo(InfoKey("1", "A", "Acme", "7")), SetCircuit(CircuitKey("A", "c1"), 0), SetSite(SiteKey("A", "Site Healthy"), 0);
    var w3, w4, w5 := PutInfo(InfoKey("2", "B", "Acme", "7")), SetCircuit(CircuitKey("B", "c2"), 2), SetSite(SiteKey("B", "Circuit Issues"), 2);
    assert Scrape(Sample) == Tick([w0, w1, w2, w3, w4, w5], Completed) by {
      assert SitePass(SiteA) == Tick([w0, w1, w2], Completed);
      assert SitePass(SiteB) == Tick([w3, w4, w5], Completed);
      TwoSitesPass(SiteA, SiteB);
    }
    ReplaySix(Empty, w0, w1, w2, w3, w4, w5);
  }

  const Offline: Response := Decoded(Some(Payload(Some([SiteRecord("1", "A", "Site Offline", [])]))))
  const Recovered: Response := Decoded(Some(Payload(Some([SiteRecord("1", "A", "Site Healthy", [])]))))

  /** A site that goes offline and then recovers keeps both site-gauge entries: the old status key is never cleared. */
  lemma StaleStatusRetained()
    ensures Replay(Replay(Empty, Scrape(Offline).writes), Scrape(Recovered).writes).sites
         == map[SiteKey("A", "Site Offline") := 3, SiteKey("A", "Site Healthy") := 0]
  {
    var info := PutInfo(InfoKey("1", "A", "Acme", "7"));
    var down, up := SetSite(SiteKey("A", "Site Offline"), 3), SetSite(SiteKey("A", "Site Healthy"), 0);
    assert Scrape(Offline).writes == [info, down];
    assert Scrape(Recovered).writes == [info, up];
    ReplayTwo(Empty, info, down);
    ReplayTwo(Put(Put(Empty, info), down), info, up);
  }

  const FirstA := SiteRecord("1", "A", "Site Healthy", [CircuitRecord("wan", "Issues")])
  const SecondA := SiteRecord("2", "A", "Site Healthy", [CircuitRecord("wan", "Healthy")])
  const Colliding: Response := Decoded(Some(Payload(Some([FirstA, SecondA]))))

  /** Two sites with the same name and circuit name: the later record's value is the one kept. */
  lemma CollidingNamesLastWins()
    ensures Replay(Empty, Scrape(Colliding).writes).circuits == map[CircuitKey("A", "wan") := 0]
  {
    var w0, w1, w2 := PutInfo(InfoKey("1", "A", "Acme", "7")), SetCircuit(CircuitKey("A", "wan"), 1), SetSite(SiteKey("A", "Site Healthy"), 0);
    var w3, w4 := PutInfo(InfoKey("2", "A", "Acme", "7")), SetCircuit(CircuitKey("A", "wan"), 0);
    assert Scrape(Colliding) == Tick([w0, w1, w2, w3, w4, w2], Completed) by {
      assert SitePass(FirstA) == Tick([w0, w1, w2], Completed);
      assert SitePass(SecondA) == Tick([w3, w4, w2], Completed);
      TwoSitesPass(FirstA, SecondA);
    }
    ReplaySix(Empty, w0, w1, w2, w3, w4, w2);
  }

  const NoCircuits := Site(Some("2"), Some("B"), Some("Acme"), Some("7"), Some("Site Offline"), None)
  const SiteC := SiteRecord("3", "C", "Site Healthy", [])
  const Truncated: Response := Decoded(Some(Payload(Some([SiteA, NoCircuits, SiteC]))))

  /**
   * The second site lacks `circuits`: the first site's entries and the second
   * site's info entry stay, the second site gets no site-gauge entry, the third
   * site is not walked, and the pass ends with the missing key.
   */
  lemma MissingCircuitsKeepsEarlierWrites()
    ensures Scrape(Truncated).outcome == KeyMissing(CircuitsKey)
    ensures Replay(Empty, Scrape(Truncated).writes)
         == Snapshot(
              map[CircuitKey("A", "c1") := 0],
              map[SiteKey("A", "Site Healthy") := 0],
              {InfoKey("1", "A", "Acme", "7"), InfoKey("2", "B", "Acme", "7")})
  {
    var w0, w1, w2 := PutInfo(InfoKey("1", "A", "Acme", "7")), SetCircuit(CircuitKey("A", "c1"), 0), SetSite(SiteKey("A", "Site Healthy"), 0);
    var w3 := PutInfo(InfoKey("2", "B", "Acme", "7"));
    assert Scrape(Truncated) == Tick([w0, w1, w2, w3], KeyMissing(CircuitsKey)) by {
      assert SitePass(SiteA) == Tick([w0, w1, w2], Completed);
      assert SitePass(NoCircuits) == Tick([w3], KeyMissing(CircuitsKey));
      var ss := [SiteA, NoCircuits, SiteC];
      SitesPassUnfolds(ss);
      assert ss[1..] == [NoCircuits, SiteC];
      SitesPassUnfolds(ss[1..]);
    }
    ReplayFour(Empty, w0, w1, w2, w3);
  }

  /** The help text of the circuit gauge names ordinal 1 "Circuit Issues", but the ladder matches only "Issues". */
  lemma HelpTextNameUnmatched()
    ensures CircuitOrdinal("Circuit Issues").None?
    ensures CircuitOrdinal("Issues") == Some(1)
  {
  }
}
