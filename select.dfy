/** The select platform: enumeration bridges for the state and mode attributes. */
module Select {
  import opened Wrappers
  import opened PyDict
  import opened Protocol
  import opened Const
  import ClientLookup

  /**
   * One enumeration bridge: it mirrors a vendor attribute as a label from
   * `mapping`, writes labels back as codes and follows the attribute's pushes.
   */
  class HaierSelect {
    const client: Client
    const nodeId: int
    const endpointId: int
    const attrId: int
    const name: string
    const mapping: PyDict.Dict<int, string>
    const reverseMapping: map<string, int>
    const options: seq<string>

    /** The label on show, `None` while unknown. */
    var currentOption: Option<string>
    /** How many times the entity has told Home Assistant its state changed. */
    var stateWrites: nat

    /** The fixed parts agree: the reverse map is the comprehension over `mapping`, the options its values. */
    ghost predicate Valid()
    {
      DistinctKeys(mapping) && reverseMapping == Inverted(mapping) && options == Values(mapping)
    }

    constructor (client: Client, nodeId: int, endpointId: int, attrId: int, name: string, mapping: PyDict.Dict<int, string>)
      requires DistinctKeys(mapping)
      ensures Valid()
      ensures this.client == client && this.nodeId == nodeId && this.endpointId == endpointId
      ensures this.attrId == attrId && this.name == name && this.mapping == mapping
      ensures forall v :: v in reverseMapping <==> v in options
      ensures Injective(mapping) ==> forall k :: k in Keys(mapping) ==>
        Get(mapping, k).value in reverseMapping && reverseMapping[Get(mapping, k).value] == k
      ensures |options| == |mapping| && forall i :: 0 <= i < |mapping| ==> options[i] == mapping[i].1
      ensures currentOption == None && stateWrites == 0
    {
      this.client := client;
      this.nodeId := nodeId;
      this.endpointId := endpointId;
      this.attrId := attrId;
      this.name := name;
      this.mapping := mapping;
      this.reverseMapping := Inverted(mapping);
      this.options := Values(mapping);
      this.currentOption := None;
      this.stateWrites := 0;
      new;
      InvertedDomain(mapping);
      forall k | Injective(mapping) && k in Keys(mapping)
        ensures Get(mapping, k).value in reverseMapping && reverseMapping[Get(mapping, k).value] == k
      {
        InvertedInverts(mapping, k);
      }
    }

    /**
     * `async_select_option`: an unknown label does nothing; a known one is
     * written as its code, and only a successful write shows it and notifies.
     */
    method SelectOption(option: string, write: Outcome<()>) returns (sent: seq<Request>)
      requires Valid()
      modifies this
      ensures option !in reverseMapping ==>
        sent == [] && currentOption == old(currentOption) && stateWrites == old(stateWrites)
      ensures option in reverseMapping ==>
        sent == [Write(nodeId, endpointId, VendorClusterId, attrId, reverseMapping[option])]
        && Get(mapping, reverseMapping[option]) == Some(option)
      ensures option in reverseMapping && write.Ok? ==>
        currentOption == Some(option) && stateWrites == old(stateWrites) + 1
      ensures option in reverseMapping && write.Err? ==>
        currentOption == old(currentOption) && stateWrites == old(stateWrites)
    {
      if option !in reverseMapping {
        return [];
      }
      var val := reverseMapping[option];
      InvertedRoundTrip(mapping, option);
      sent := [Write(nodeId, endpointId, VendorClusterId, attrId, val)];
      if write.Ok? {
        currentOption := Some(option);
        stateWrites := stateWrites + 1;
      }
    }

    /**
     * `async_added_to_hass`: subscribe, then read, then show the label of the
     * code read (`None` for a code outside `mapping`). A failed step stops
     * there and leaves the state as it was.
     */
    method Activate(subscribe: Outcome<()>, read: Outcome<int>) returns (sent: seq<Request>)
      modifies this
      ensures subscribe.Err? ==>
        sent == [Subscribe(nodeId, endpointId, VendorClusterId, attrId)]
      ensures subscribe.Ok? ==>
        sent == [Subscribe(nodeId, endpointId, VendorClusterId, attrId), Read(nodeId, endpointId, VendorClusterId, attrId)]
      ensures subscribe.Ok? && read.Ok? ==>
        currentOption == Get(mapping, read.value) && stateWrites == old(stateWrites) + 1
      ensures subscribe.Err? || read.Err? ==>
        currentOption == old(currentOption) && stateWrites == old(stateWrites)
    {
      sent := [Subscribe(nodeId, endpointId, VendorClusterId, attrId)];
      if subscribe.Err? {
        return;
      }
      sent := sent + [Read(nodeId, endpointId, VendorClusterId, attrId)];
      if read.Err? {
        return;
      }
      currentOption := Get(mapping, read.value);
      stateWrites := stateWrites + 1;
    }

    /** `_handle_update`: a push for this bridge's cluster and attribute shows the value's label. */
    method HandleUpdate(node: int, endpoint: int, clusterId: int, attributeId: int, value: int)
      modifies this
      ensures PushMatches(attrId, clusterId, attributeId) ==>
        currentOption == Get(mapping, value) && stateWrites == old(stateWrites) + 1
      ensures !PushMatches(attrId, clusterId, attributeId) ==>
        currentOption == old(currentOption) && stateWrites == old(stateWrites)
    {
      if clusterId == VendorClusterId && attributeId == attrId {
        currentOption := Get(mapping, value);
        stateWrites := stateWrites + 1;
      }
    }
  }

  /**
   * `async_setup_entry`: locate the client; without one, add nothing; with
   * one, add the state and the mode bridge for the configured node and endpoint.
   */
  method SetupEntry(nodeId: int, endpointId: int, es: seq<ClientLookup.MatterEntry>, store: ClientLookup.Store)
    returns (raised: bool, added: seq<HaierSelect>)
    ensures raised <==> ClientLookup.Resolve(es, store).Raised?
    ensures !ClientLookup.Resolve(es, store).Found? ==> added == []
    ensures ClientLookup.Resolve(es, store).Found? ==>
      |added| == 2 && fresh(added[0]) && fresh(added[1]) &&
      added[0].Valid() && added[1].Valid() &&
      added[0].client == added[1].client == ClientLookup.Resolve(es, store).client &&
      added[0].nodeId == added[1].nodeId == nodeId &&
      added[0].endpointId == added[1].endpointId == endpointId &&
      added[0].attrId == AttrStateId && added[0].name == "Haier State" && added[0].mapping == StateMap &&
      added[1].attrId == AttrModeId && added[1].name == "Haier Mode" && added[1].mapping == ModeMap &&
      added[0].currentOption == added[1].currentOption == None
  {
    var found := ClientLookup.FindClient(es, store);
    raised := found.Raised?;
    added := [];
    if !found.Found? {
      return;
    }
    StateMapWellFormed();
    ModeMapWellFormed();
    var state := new HaierSelect(found.client, nodeId, endpointId, AttrStateId, "Haier State", StateMap);
    var mode := new HaierSelect(found.client, nodeId, endpointId, AttrModeId, "Haier Mode", ModeMap);
    added := [state, mode];
  }
}
