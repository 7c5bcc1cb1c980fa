/**
 * Client code that uses only the bridges' contracts, walking through the
 * behaviour the integration is meant to have on concrete values.
 */
module Scenarios {
  import opened Wrappers
  import opened Protocol
  import opened Const
  import Select
  import Sensor
  import ClientLookup

  /** The state bridge: activation reads code 1, an unknown label is ignored, pushes are filtered. */
  method StateBridgeWalkthrough(c: Client)
  {
    StateMapWellFormed();
    var b := new Select.HaierSelect(c, 5, 1, AttrStateId, "Haier State", StateMap);
    assert b.currentOption == None;
    assert b.options == ["OFF", "HEAT", "COOL"];

    var sent := b.Activate(Ok(()), Ok(1));
    assert sent[0].Subscribe? && sent[1].Read?;
    assert b.currentOption == Some("HEAT");

    assert "FREEZING" !in b.options;
    sent := b.SelectOption("FREEZING", Ok(()));
    assert sent == [] && b.currentOption == Some("HEAT");

    b.HandleUpdate(5, 1, VendorClusterId, AttrModeId, 2);
    assert b.currentOption == Some("HEAT");
    b.HandleUpdate(7, 9, VendorClusterId, AttrStateId, 2);
    assert b.currentOption == Some("COOL");
  }

  /** The mode bridge: writing ECO sends code 0 and shows ECO only when the write succeeds. */
  method ModeBridgeWalkthrough(c: Client)
  {
    ModeMapWellFormed();
    var b := new Select.HaierSelect(c, 5, 1, AttrModeId, "Haier Mode", ModeMap);
    b.HandleUpdate(5, 1, 0xFC01, 0x0002, 2);
    assert b.currentOption == Some("TURBO");

    assert "ECO" in b.options;
    var sent := b.SelectOption("ECO", Err);
    assert b.currentOption == Some("TURBO");
    assert sent[0].value == 0 by {
      PyDict.InvertedInverts(ModeMap, 0);
    }
    sent := b.SelectOption("ECO", Ok(()));
    assert |sent| == 1 && b.currentOption == Some("ECO");
  }

  /** A sensor shows 4500 as 4500, and a failed subscription leaves it unknown. */
  method SensorWalkthrough(c: Client)
  {
    var s := new Sensor.HaierHzSensor(c, 5, 1, AttrCompHzId, "Compressor Frequency");
    var sent := s.Activate(Err, Ok(4500));
    assert |sent| == 1 && s.state == None;
    sent := s.Activate(Ok(()), Ok(4500));
    assert s.state == Some(4500);
  }

  /** An entry that is not loaded is passed over and the fallback finds the client. */
  method LookupWalkthrough(c: Client)
  {
    var entry := ClientLookup.MatterEntry(ClientLookup.SetupRetry, ClientLookup.Missing, "e1");
    var adapter := ClientLookup.Adapter(true, ClientLookup.Holds(Some(c)));
    var r := ClientLookup.FindClient([entry], ClientLookup.Dict([("e1", adapter)]));
    assert r == ClientLookup.Found(c) by {
      ClientLookup.NoLoadedEntryFallsThrough([entry], [("e1", adapter)]);
    }
    var none := ClientLookup.FindClient([], ClientLookup.Dict([]));
    assert none == ClientLookup.NotFound;
  }
}
