/**
 * The two status ladders of the exporter: the vendor's status strings and the
 * ordinal each one is published as. A string outside the ladder has no ordinal.
 */
module Status {
  import opened Wrappers

  /** Circuit statuses the ladder recognises; the index of each is its ordinal. */
  const CircuitStatuses: seq<string> := ["Healthy", "Issues", "Circuit Down"]

  /** Site statuses the ladder recognises; the index of each is its ordinal. */
  const SiteStatuses: seq<string> := ["Site Healthy", "Degraded Availability", "Circuit Issues", "Site Offline"]

  /** The if/elif ladder on `circuit_status`. */
  function CircuitOrdinal(status: string): (r: Option<int>)
    ensures r.Some? <==> status in CircuitStatuses
    ensures r.Some? ==> 0 <= r.value < |CircuitStatuses| && CircuitStatuses[r.value] == status
  {
    if status == "Healthy" then Some(0)
    else if status == "Issues" then Some(1)
    else if status == "Circuit Down" then Some(2)
    else None
  }

  /** The if/elif ladder on `site_status`. */
  function SiteOrdinal(status: string): (r: Option<int>)
    ensures r.Some? <==> status in SiteStatuses
    ensures r.Some? ==> 0 <= r.value < |SiteStatuses| && SiteStatuses[r.value] == status
  {
    if status == "Site Healthy" then Some(0)
    else if status == "Degraded Availability" then Some(1)
    else if status == "Circuit Issues" then Some(2)
    else if status == "Site Offline" then Some(3)
    else None
  }

  /** Each recognised circuit status is published as its position in the ladder. */
  lemma CircuitOrdinalOfListed(i: int)
    requires 0 <= i < |CircuitStatuses|
    ensures CircuitOrdinal(CircuitStatuses[i]) == Some(i)
  {
  }

  /** Each recognised site status is published as its position in the ladder. */
  lemma SiteOrdinalOfListed(i: int)
    requires 0 <= i < |SiteStatuses|
    ensures SiteOrdinal(SiteStatuses[i]) == Some(i)
  {
  }
}
