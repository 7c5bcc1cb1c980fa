/**
 * What the bridges see of the Matter protocol client: the requests they send
 * to it, the outcome of each request, and the filter they apply to pushes.
 */
module Protocol {
  import Const

  /** An opaque handle to a live protocol client. */
  datatype Client = Client(id: nat)

  /** The outcome of an awaited client call: its result, or a raised exception. */
  datatype Outcome<+T> = Ok(value: T) | Err

  /**
   * One call made on the client: `subscribe_attribute` (with the bridge's own
   * update handler as callback), `read_attribute` or `write_attribute`.
   */
  datatype Request =
    | Subscribe(node: int, endpoint: int, cluster: int, attribute: int)
    | Read(node: int, endpoint: int, cluster: int, attribute: int)
    | Write(node: int, endpoint: int, cluster: int, attribute: int, value: int)

  /**
   * The push filter of a bridge bound to `ownAttr`: the cluster and the
   * attribute must match; the node and the endpoint are not looked at.
   */
  predicate PushMatches(ownAttr: int, clusterId: int, attributeId: int) {
    clusterId == Const.VendorClusterId && attributeId == ownAttr
  }

  /** Bridges bound to different attributes accept disjoint sets of pushes. */
  lemma FiltersDisjoint(a: int, b: int, clusterId: int, attributeId: int)
    requires a != b
    ensures !(PushMatches(a, clusterId, attributeId) && PushMatches(b, clusterId, attributeId))
  {
  }

  /** Every filter admits only the vendor cluster, whatever attribute it is bound to. */
  lemma FiltersShareVendorCluster(a: int, clusterId: int, attributeId: int)
    requires PushMatches(a, clusterId, attributeId)
    ensures clusterId == 0xFC01
  {
  }
}
