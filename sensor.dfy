/** The sensor platform: numeric bridges for the compressor frequencies. */
module Sensor {
  import opened Wrappers
  import opened Protocol
  import opened Const
  import ClientLookup

  /** One numeric bridge: the attribute's value is shown as received, without translation. */
  class HaierHzSensor {
    const client: Client
    const nodeId: int
    const endpointId: int
    const attrId: int
    const name: string

    /** The value on show, `None` while unknown. */
    var state: Option<int>
    /** How many times the entity has told Home Assistant its state changed. */
    var stateWrites: nat

    constructor (client: Client, nodeId: int, endpointId: int, attrId: int, name: string)
      ensures this.client == client && this.nodeId == nodeId && this.endpointId == endpointId
      ensures this.attrId == attrId && this.name == name
      ensures state == None && stateWrites == 0
    {
      this.client := client;
      this.nodeId := nodeId;
      this.endpointId := endpointId;
      this.attrId := attrId;
      this.name := name;
      this.state := None;
      this.stateWrites := 0;
    }

    /**
     * `async_added_to_hass`: subscribe, then read, then show the value read
     * unchanged. A failed step stops there and leaves the state as it was.
     */
    method Activate(subscribe: Outcome<()>, read: Outcome<int>) returns (sent: seq<Request>)
      modifies this
      ensures subscribe.Err? ==>
        sent == [Subscribe(nodeId, endpointId, VendorClusterId, attrId)]
      ensures subscribe.Ok? ==>
        sent == [Subscribe(nodeId, endpointId, VendorClusterId, attrId), Read(nodeId, endpointId, VendorClusterId, attrId)]
      ensures subscribe.Ok? && read.Ok? ==>
        state == Some(read.value) && stateWrites == old(stateWrites) + 1
      ensures subscribe.Err? || read.Err? ==>
        state == old(state) && stateWrites == old(stateWrites)
    {
      sent := [Subscribe(nodeId, endpointId, VendorClusterId, attrId)];
      if subscribe.Err? {
        return;
      }
      sent := sent + [Read(nodeId, endpointId, VendorClusterId, attrId)];
      if read.Err? {
        return;
      }
      state := Some(read.value);
      stateWrites := stateWrites + 1;
    }

    /** `_handle_update`: a push for this bridge's cluster and attribute is shown as it came. */
    method HandleUpdate(node: int, endpoint: int, clusterId: int, attributeId: int, value: int)
      modifies this
      ensures PushMatches(attrId, clusterId, attributeId) ==>
        state == Some(value) && stateWrites == old(stateWrites) + 1
      ensures !PushMatches(attrId, clusterId, attributeId) ==>
        state == old(state) && stateWrites == old(stateWrites)
    {
      if clusterId == VendorClusterId && attributeId == attrId {
        state := Some(value);
        stateWrites := stateWrites + 1;
      }
    }
  }

  /**
   * `async_setup_entry`: locate the client; without one, add nothing; with
   * one, add the two compressor-frequency sensors.
   */
  method SetupEntry(nodeId: int, endpointId: int, es: seq<ClientLookup.MatterEntry>, store: ClientLookup.Store)
    returns (raised: bool, added: seq<HaierHzSensor>)
    ensures raised <==> ClientLookup.Resolve(es, store).Raised?
    ensures !ClientLookup.Resolve(es, store).Found? ==> added == []
    ensures ClientLookup.Resolve(es, store).Found? ==>
      |added| == 2 && fresh(added[0]) && fresh(added[1]) &&
      added[0].client == added[1].client == ClientLookup.Resolve(es, store).client &&
      added[0].nodeId == added[1].nodeId == nodeId &&
      added[0].endpointId == added[1].endpointId == endpointId &&
      added[0].attrId == AttrCompHzId && added[0].name == "Compressor Frequency" &&
      added[1].attrId == AttrCompTargetId && added[1].name == "Compressor Target Frequency" &&
      added[0].state == added[1].state == None
  {
    var found := ClientLookup.FindClient(es, store);
    raised := found.Raised?;
    added := [];
    if !found.Found? {
      return;
    }
    var hz := new HaierHzSensor(found.client, nodeId, endpointId, AttrCompHzId, "Compressor Frequency");
    var target := new HaierHzSensor(found.client, nodeId, endpointId, AttrCompTargetId, "Compressor Target Frequency");
    added := [hz, target];
  }
}
