/**
 * The process-wide metric store: the `circuit_status` gauge, the `site_status`
 * gauge and the `site_information` info metric, each a family of entries keyed
 * by its label values. Entries are set or overwritten, never removed.
 */
module Metrics {
  import opened Wrappers
  import opened Status

  /** Labels `site_name`, `circuit_name` of the circuit gauge. */
  datatype CircuitKey = CircuitKey(siteName: string, circuitName: string)

  /** Labels `site_name`, `site_status` of the site gauge: the status string is part of the key. */
  datatype SiteKey = SiteKey(siteName: string, siteStatus: string)

  /** Labels `site_id`, `site_name`, `company_name`, `company_id` of the info metric. */
  datatype InfoKey = InfoKey(siteId: string, siteName: string, companyName: string, companyId: string)

  /** The contents of the three families at one moment. Info entries carry an empty value, so a set of keys suffices. */
  datatype Snapshot = Snapshot(circuits: map<CircuitKey, int>, sites: map<SiteKey, int>, info: set<InfoKey>)

  /** The store as the registry holds it before the first pass. */
  const Empty: Snapshot := Snapshot(map[], map[], {})

  /** One `.labels(...).set(v)` on a gauge or `.labels(...).info({})` on the info metric. */
  datatype Write =
    | SetCircuit(ckey: CircuitKey, value: int)
    | SetSite(skey: SiteKey, value: int)
    | PutInfo(ikey: InfoKey)

  /** The store after one write. */
  function Put(m: Snapshot, w: Write): Snapshot
  {
    match w
    case SetCircuit(k, v) => m.(circuits := m.circuits[k := v])
    case SetSite(k, v) => m.(sites := m.sites[k := v])
    case PutInfo(k) => m.(info := m.info + {k})
  }

  /** The store after a sequence of writes, applied first to last. */
  function Replay(m: Snapshot, ws: seq<Write>): Snapshot
    decreases |ws|
  {
    if ws == [] then m else Put(Replay(m, ws[..|ws| - 1]), ws[|ws| - 1])
  }

  /** The value of the last write to circuit key `k` in `ws`, found by scanning from the end. */
  function LastCircuitWrite(ws: seq<Write>, k: CircuitKey): Option<int>
    decreases |ws|
  {
    if ws == [] then None
    else if ws[|ws| - 1].SetCircuit? && ws[|ws| - 1].ckey == k then Some(ws[|ws| - 1].value)
    else LastCircuitWrite(ws[..|ws| - 1], k)
  }

  /** The value of the last write to site key `k` in `ws`, found by scanning from the end. */
  function LastSiteWrite(ws: seq<Write>, k: SiteKey): Option<int>
    decreases |ws|
  {
    if ws == [] then None
    else if ws[|ws| - 1].SetSite? && ws[|ws| - 1].skey == k then Some(ws[|ws| - 1].value)
    else LastSiteWrite(ws[..|ws| - 1], k)
  }

  /** Every info key some write in `ws` records. */
  function InfoWritten(ws: seq<Write>): set<InfoKey>
  {
    set i | 0 <= i < |ws| && ws[i].PutInfo? :: ws[i].ikey
  }

  /** A circuit gauge entry always holds a circuit ordinal, and a site gauge entry the ordinal of the status in its own key. */
  ghost predicate Consistent(m: Snapshot)
  {
    && (forall k :: k in m.circuits ==> 0 <= m.circuits[k] < |CircuitStatuses|)
    && (forall k :: k in m.sites ==> SiteOrdinal(k.siteStatus) == Some(m.sites[k]))
  }

  /** A write that keeps `Consistent`. */
  ghost predicate WellFormed(w: Write)
  {
    match w
    case SetCircuit(_, v) => 0 <= v < |CircuitStatuses|
    case SetSite(k, v) => SiteOrdinal(k.siteStatus) == Some(v)
    case PutInfo(_) => true
  }

  /** Last writer wins: a circuit entry holds the last value written to its key, or its old value when nothing wrote it. */
  lemma {:induction false} ReplayCircuitValue(m: Snapshot, ws: seq<Write>, k: CircuitKey)
    ensures Lookup(Replay(m, ws).circuits, k)
         == if LastCircuitWrite(ws, k).Some? then LastCircuitWrite(ws, k) else Lookup(m.circuits, k)
    decreases |ws|
  {
    if ws != [] {
      ReplayCircuitValue(m, ws[..|ws| - 1], k);
    }
  }

  /** Last writer wins: a site entry holds the last value written to its key, or its old value when nothing wrote it. */
  lemma {:induction false} ReplaySiteValue(m: Snapshot, ws: seq<Write>, k: SiteKey)
    ensures Lookup(Replay(m, ws).sites, k)
         == if LastSiteWrite(ws, k).Some? then LastSiteWrite(ws, k) else Lookup(m.sites, k)
    decreases |ws|
  {
    if ws != [] {
      ReplaySiteValue(m, ws[..|ws| - 1], k);
    }
  }

  /** The info metric afterwards holds exactly the old keys and the keys recorded. */
  lemma {:induction false} ReplayInfo(m: Snapshot, ws: seq<Write>)
    ensures Replay(m, ws).info == m.info + InfoWritten(ws)
    decreases |ws|
  {
    if ws != [] {
      var init := ws[..|ws| - 1];
      ReplayInfo(m, init);
      assert InfoWritten(ws) == InfoWritten(init) + (if ws[|ws| - 1].PutInfo? then {ws[|ws| - 1].ikey} else {}) by {
        forall x | x in InfoWritten(ws) ensures x in InfoWritten(init) + (if ws[|ws| - 1].PutInfo? then {ws[|ws| - 1].ikey} else {}) {
          var i :| 0 <= i < |ws| && ws[i].PutInfo? && ws[i].ikey == x;
          if i < |ws| - 1 {
            assert init[i] == ws[i];
          }
        }
        forall x | x in InfoWritten(init) ensures x in InfoWritten(ws) {
          var i :| 0 <= i < |init| && init[i].PutInfo? && init[i].ikey == x;
          assert ws[i] == init[i];
        }
      }
    }
  }

  /** No write removes an entry: every key present before is present afterwards. */
  lemma {:induction false} ReplayGrows(m: Snapshot, ws: seq<Write>)
    ensures m.circuits.Keys <= Replay(m, ws).circuits.Keys
    ensures m.sites.Keys <= Replay(m, ws).sites.Keys
    ensures m.info <= Replay(m, ws).info
    decreases |ws|
  {
    if ws != [] {
      ReplayGrows(m, ws[..|ws| - 1]);
    }
  }

  /** Applying two batches of writes one after the other is applying their concatenation: passes compose. */
  lemma {:induction false} ReplayConcat(m: Snapshot, a: seq<Write>, b: seq<Write>)
    ensures Replay(m, a + b) == Replay(Replay(m, a), b)
    decreases |b|
  {
    if b == [] {
      assert a + b == a;
    } else {
      var b' := b[..|b| - 1];
      assert (a + b)[..|a + b| - 1] == a + b';
      ReplayConcat(m, a, b');
    }
  }

  /** The last write to a circuit key in two batches comes from the later batch when it writes that key at all. */
  lemma {:induction false} LastCircuitWriteConcat(a: seq<Write>, b: seq<Write>, k: CircuitKey)
    ensures LastCircuitWrite(a + b, k)
         == if LastCircuitWrite(b, k).Some? then LastCircuitWrite(b, k) else LastCircuitWrite(a, k)
    decreases |b|
  {
    if b == [] {
      assert a + b == a;
    } else {
      var b' := b[..|b| - 1];
      assert (a + b)[..|a + b| - 1] == a + b';
      if !(b[|b| - 1].SetCircuit? && b[|b| - 1].ckey == k) {
        LastCircuitWriteConcat(a, b', k);
      }
    }
  }

  /** The last write to a site key in two batches comes from the later batch when it writes that key at all. */
  lemma {:induction false} LastSiteWriteConcat(a: seq<Write>, b: seq<Write>, k: SiteKey)
    ensures LastSiteWrite(a + b, k)
         == if LastSiteWrite(b, k).Some? then LastSiteWrite(b, k) else LastSiteWrite(a, k)
    decreases |b|
  {
    if b == [] {
      assert a + b == a;
    } else {
      var b' := b[..|b| - 1];
      assert (a + b)[..|a + b| - 1] == a + b';
      if !(b[|b| - 1].SetSite? && b[|b| - 1].skey == k) {
        LastSiteWriteConcat(a, b', k);
      }
    }
  }

  /** A batch of well-formed writes keeps the store consistent. */
  lemma {:induction false} ReplayKeepsConsistent(m: Snapshot, ws: seq<Write>)
    requires Consistent(m)
    requires forall i :: 0 <= i < |ws| ==> WellFormed(ws[i])
    ensures Consistent(Replay(m, ws))
    decreases |ws|
  {
    if ws != [] {
      var init := ws[..|ws| - 1];
      assert forall i :: 0 <= i < |init| ==> init[i] == ws[i];
      ReplayKeepsConsistent(m, init);
      assert WellFormed(ws[|ws| - 1]);
    }
  }

  /**
   * The registry with its three metric families. The source keeps them in
   * module-level globals; here one object owns them.
   */
  class MetricStore {
    var circuitGauge: map<CircuitKey, int>
    var siteGauge: map<SiteKey, int>
    var siteInformation: set<InfoKey>

    /** The contents of the three families. */
    function Current(): Snapshot
      reads this
    {
      Snapshot(circuitGauge, siteGauge, siteInformation)
    }

    /** The store invariant every pass keeps. */
    ghost predicate Valid()
      reads this
    {
      Consistent(Current())
    }

    /** Declaring the three families: all of them start without entries. */
    constructor ()
      ensures Current() == Empty
      ensures Valid()
    {
      circuitGauge := map[];
      siteGauge := map[];
      siteInformation := {};
    }

    /** `circuit_gauge.labels(site_name=..., circuit_name=...).set(value)`. */
    method SetCircuitGauge(key: CircuitKey, value: int)
      modifies this
      ensures circuitGauge == old(circuitGauge)[key := value]
      ensures siteGauge == old(siteGauge) && siteInformation == old(siteInformation)
      ensures Current() == Put(old(Current()), SetCircuit(key, value))
    {
      circuitGauge := circuitGauge[key := value];
    }

    /** `site_gauge.labels(site_name=..., site_status=...).set(value)`. */
    method SetSiteGauge(key: SiteKey, value: int)
      modifies this
      ensures siteGauge == old(siteGauge)[key := value]
      ensures circuitGauge == old(circuitGauge) && siteInformation == old(siteInformation)
      ensures Current() == Put(old(Current()), SetSite(key, value))
    {
      siteGauge := siteGauge[key := value];
    }

    /** `site_information.labels(...).info({})`. */
    method RecordInfo(key: InfoKey)
      modifies this
      ensures siteInformation == old(siteInformation) + {key}
      ensures circuitGauge == old(circuitGauge) && siteGauge == old(siteGauge)
      ensures Current() == Put(old(Current()), PutInfo(key))
    {
      siteInformation := siteInformation + {key};
    }
  }
}
