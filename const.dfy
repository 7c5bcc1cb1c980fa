/** The wire-level constants of the Haier vendor cluster and its code tables. */
module Const {
  import opened PyDict

  /** The manufacturer-specific cluster every bridge reads, writes and subscribes to. */
  const VendorClusterId: int := 0xFC01

  const AttrStateId: int := 0x0001
  const AttrModeId: int := 0x0002
  const AttrCompHzId: int := 0x0003
  const AttrCompTargetId: int := 0x0004

  /** Operating state: wire code to label, in the literal's order. */
  const StateMap: Dict<int, string> := [(0, "OFF"), (1, "HEAT"), (2, "COOL")]

  /** Operating mode: wire code to label, in the literal's order. */
  const ModeMap: Dict<int, string> := [(0, "ECO"), (1, "QUIET"), (2, "TURBO")]

  /** The four attribute ids of the vendor cluster, ordered as declared. */
  const AttrIds: seq<int> := [AttrStateId, AttrModeId, AttrCompHzId, AttrCompTargetId]

  /** STATE_MAP is a dict over the codes 0, 1, 2 whose labels are pairwise distinct. */
  lemma StateMapWellFormed()
    ensures Keys(StateMap) == [0, 1, 2]
    ensures Values(StateMap) == ["OFF", "HEAT", "COOL"]
    ensures DistinctKeys(StateMap) && Injective(StateMap)
  {
  }

  /** MODE_MAP is a dict over the codes 0, 1, 2 whose labels are pairwise distinct. */
  lemma ModeMapWellFormed()
    ensures Keys(ModeMap) == [0, 1, 2]
    ensures Values(ModeMap) == ["ECO", "QUIET", "TURBO"]
    ensures DistinctKeys(ModeMap) && Injective(ModeMap)
  {
  }

  /** The attribute ids are pairwise distinct. */
  lemma AttrIdsDistinct()
    ensures forall i, j :: 0 <= i < |AttrIds| && 0 <= j < |AttrIds| && AttrIds[i] == AttrIds[j] ==> i == j
  {
  }
}
