# Haier Matter bridge: a Dafny model

This project models the core of a Home Assistant custom integration for Haier
appliances that are reached over Matter, plus one piece of the appliance
firmware. The integration does four things:

- **Client lookup.** `async_setup_entry` of the select and the sensor
  platform locates the running Matter integration's client. A first pass
  looks at the Matter config entries in state `LOADED`: `runtime_data` comes
  first, then `hass.data["matter"][entry_id]`. A fallback pass looks at every
  value of `hass.data["matter"]` when that is a dict. Without a client no
  entity is added.
- **Enumeration bridge** (`HaierSelect`). It shows a vendor attribute through
  a code-to-label table. It writes a chosen label back as its code. It
  follows the attribute's push updates.
- **Numeric bridge** (`HaierHzSensor`). It has the same lifecycle, but values
  pass through untranslated.
- **Constant tables.** These hold the vendor cluster 0xFC01, the four
  attribute ids, and the `STATE_MAP` and `MODE_MAP` code tables.

From the firmware: `MatterNumericEndpoint<T>` for an integral `T`. Its
`attributeChangeCB` passes a TemperatureSetpoint change on to a registered
callback as `i16 / 100`, using C++ truncating division.

Modules, one per concern:

- `Wrappers`: Option.
- `PyDict`: Python dicts as insertion-ordered lists of pairs, with `get`,
  `values()` and the inverting comprehension.
- `Const`: the constants of `const.py`.
- `Protocol`: the client handle, call outcomes, the requests a bridge sends,
  and the push filter.
- `ClientLookup`: the search as a specification function `Resolve`, and as
  the source's two `for`/`break` loops in the method `FindClient`, proved
  equal to `Resolve`.
- `Select`: the `HaierSelect` class and the select `async_setup_entry`.
- `Sensor`: the `HaierHzSensor` class and the sensor `async_setup_entry`.
- `Endpoints`: C++ division, and the `MatterNumericEndpoint` class.
- `Scenarios`: client methods that check the integration's intended
  behaviour on concrete values using only the contracts above. Examples:
  code 1 shows as HEAT, FREEZING is ignored, ECO is written as 0, and 4500
  stays 4500.

Modelling choices:

- **Client calls.** `subscribe_attribute`, `read_attribute` and
  `write_attribute` are outcome parameters (`Ok(v)` or `Err`, for a raised
  exception). Each bridge method returns the requests it sent, in order.
- **State notification.** `async_write_ha_state` is the counter
  `stateWrites`.
- **The search.** It returns `Found(client)`, `NotFound`, or `Raised`. The
  source's loops can raise: `select.py:36` and `sensor.py:38` call `.get` on
  `hass.data["matter"]` even when that value is not a dict. A `matter_client` attribute can hold
  `None`. The loop still `break`s on it, and the later `if not
  matter_client` then starts the fallback (`NoneClientStopsFirstPass`).
- **Edge cases kept as the code has them.**
  - Nothing in the first loop catches an exception. So when
    `hass.data["matter"]` is not a dict, the `.get` call at `select.py:36`
    and `sensor.py:38` makes setup raise.
  - The doc comment on `onChange` (`Endpoints.h:16`) says the integral value
    is the floor of value / 100. The code truncates toward zero, so -150
    becomes -1, not -2 (`NegativeSetpointTruncates`, `TruncationVersusFloor`).

## Model

| member | source | states |
|---|---|---|
| PyDict.Get | ha_haier_matter/custom_components/haier_matter/select.py:94 | `dict.get` gives a value stored under the key, and `None` exactly when the key is absent |
| PyDict.InvertedDomain | ha_haier_matter/custom_components/haier_matter/select.py:67-68 | the reverse map is keyed by exactly the labels in the options list, and each entry comes from a pair of the forward map |
| PyDict.InvertedKeepsLast | ha_haier_matter/custom_components/haier_matter/select.py:67 | without injectivity the comprehension keeps the code of the last pair carrying a label |
| PyDict.InvertedInverts | ha_haier_matter/custom_components/haier_matter/select.py:67 | for an injective map, `reverse[mapping[k]] == k` for every code `k` |
| PyDict.InvertedRoundTrip | ha_haier_matter/custom_components/haier_matter/select.py:67 | every label of the reverse map leads to a code whose `get` gives that label back |
| Const.StateMapWellFormed | ha_haier_matter/custom_components/haier_matter/const.py:9-13 | STATE_MAP has keys 0, 1, 2 in order, labels OFF, HEAT, COOL, and is injective |
| Const.ModeMapWellFormed | ha_haier_matter/custom_components/haier_matter/const.py:15-19 | MODE_MAP has keys 0, 1, 2 in order, labels ECO, QUIET, TURBO, and is injective |
| Const.AttrIdsDistinct | ha_haier_matter/custom_components/haier_matter/const.py:4-7 | the four attribute ids are pairwise distinct |
| Protocol.FiltersDisjoint | ha_haier_matter/custom_components/haier_matter/select.py:100 | bridges bound to different attributes never both accept the same push |
| Protocol.FiltersShareVendorCluster | ha_haier_matter/custom_components/haier_matter/const.py:3 | every bridge's push filter admits only cluster 0xFC01 |
| ClientLookup.EntryProbe | ha_haier_matter/custom_components/haier_matter/select.py:31-39 | an entry not in state LOADED is skipped; a `runtime_data` client is taken before `hass.data` is consulted; otherwise the entry yields a client exactly when a truthy adapter with a `matter_client` is stored under its id, and that client is the one taken; the step raises exactly when it must call `.get` on a non-dict |
| ClientLookup.FindClient | ha_haier_matter/custom_components/haier_matter/select.py:28-50 | the two `for`/`break` loops compute exactly the search `Resolve` |
| ClientLookup.OnlyLoadedConsidered | ha_haier_matter/custom_components/haier_matter/select.py:30-31 | dropping every entry that is not LOADED leaves the result unchanged |
| ClientLookup.FirstHitWins | ha_haier_matter/custom_components/haier_matter/select.py:30-39 | the first entry yielding a client decides, whatever follows it and whatever the fallback holds |
| ClientLookup.RuntimeDataFirst | ha_haier_matter/custom_components/haier_matter/select.py:32-34 | a loaded entry's `runtime_data.matter_client` is found even if `hass.data["matter"]` is not a dict |
| ClientLookup.FallbackFirstValue | ha_haier_matter/custom_components/haier_matter/select.py:41-47 | when the first pass yields no client, the first dict value with a `matter_client` supplies it |
| ClientLookup.NoLoadedEntryFallsThrough | ha_haier_matter/custom_components/haier_matter/sensor.py:44-50 | with no LOADED entry the first pass yields nothing and the result is the fallback's |
| ClientLookup.EmptyRegistryNotFound | ha_haier_matter/custom_components/haier_matter/sensor.py:52-54 | no entries and no data give no client |
| ClientLookup.FoundIsRegistered | ha_haier_matter/custom_components/haier_matter/sensor.py:28-50 | a found client is one that a LOADED entry's runtime data, its adapter in `hass.data`, or some dict value exposes |
| ClientLookup.LegacyAdapterTaken | ha_haier_matter/custom_components/haier_matter/select.py:35-39 | for a LOADED entry without a `runtime_data` client, reached after entries that gave nothing, a truthy adapter with a client stored under its id in `hass.data["matter"]` decides the search |
| ClientLookup.NoneClientStopsFirstPass | ha_haier_matter/custom_components/haier_matter/select.py:32-41 | a LOADED entry whose `matter_client` attribute holds `None` still ends the first loop, so for any later entries and any store the result is what that entry alone gives |
| ClientLookup.OpaqueDataRaises | ha_haier_matter/custom_components/haier_matter/select.py:35-36 | a LOADED entry without a `runtime_data` client, reached after entries that gave nothing, makes the search raise on a non-dict `hass.data["matter"]`, whatever entries follow |
| Select.HaierSelect.constructor | ha_haier_matter/custom_components/haier_matter/select.py:60-70 | the reverse map inverts the forward map (when injective) over exactly its labels, the options are the labels in order, and the option starts as `None` |
| Select.HaierSelect.SelectOption | ha_haier_matter/custom_components/haier_matter/select.py:78-86 | an unknown label sends nothing and changes nothing; a known one sends one write of its code to the bridge's own node, endpoint, vendor cluster and attribute, and that code decodes to the label; only a successful write shows the label and notifies |
| Select.HaierSelect.Activate | ha_haier_matter/custom_components/haier_matter/select.py:88-97 | subscribes before reading; a failed subscribe sends no read; a read of `v` shows `mapping.get(v)` and notifies; any failure leaves the state as it was |
| Select.HaierSelect.HandleUpdate | ha_haier_matter/custom_components/haier_matter/select.py:99-102 | a push with the vendor cluster and the bridge's attribute shows `mapping.get(value)` and notifies, whatever its node and endpoint; any other push changes nothing |
| Select.SetupEntry | ha_haier_matter/custom_components/haier_matter/select.py:20-55 | no client: nothing added; otherwise exactly the state and mode bridges on the found client, with their ids, names and tables |
| Sensor.HaierHzSensor.constructor | ha_haier_matter/custom_components/haier_matter/sensor.py:66-73 | the sensor is bound to its client, node, endpoint and attribute, and its state starts as `None` |
| Sensor.HaierHzSensor.Activate | ha_haier_matter/custom_components/haier_matter/sensor.py:81-90 | subscribes before reading; a failed subscribe sends no read; a read of `v` shows `v` itself; any failure leaves the state as it was |
| Sensor.HaierHzSensor.HandleUpdate | ha_haier_matter/custom_components/haier_matter/sensor.py:92-95 | a matching push shows its value unmodified; any other push changes nothing |
| Sensor.SetupEntry | ha_haier_matter/custom_components/haier_matter/sensor.py:18-59 | no client: nothing added; otherwise exactly two sensors on the found client, for the compressor frequency and target frequency attributes |
| Endpoints.CppDiv | Endpoints.h:31 | C++ `/` truncates: the quotient's magnitude is that of the dividend divided by the divisor, with the dividend's sign |
| Endpoints.CppDivBounds | Endpoints.h:31 | the truncated quotient times the divisor lies within one divisor of the dividend |
| Endpoints.TruncationVersusFloor | Endpoints.h:16-31 | truncation equals floor division for non-negative or exact setpoints and is one above it otherwise |
| Endpoints.NegativeSetpointTruncates | Endpoints.h:16-31 | -150 is delivered as -1, while the documented floor would give -2 |
| Endpoints.SetpointRange | Endpoints.h:31 | every int16 setpoint is delivered as a value in [-327, 327] |
| Endpoints.MatterNumericEndpoint.constructor | Endpoints.h:38 | no callback is registered initially |
| Endpoints.MatterNumericEndpoint.OnChange | Endpoints.h:18 | the given callback replaces the previous one; an empty one unregisters |
| Endpoints.MatterNumericEndpoint.AttributeChangeCB | Endpoints.h:20-35 | the callback fires exactly when endpoint, cluster, attribute match and a callback is set, with the truncated setpoint in [-327, 327]; the answer is always the base class's |

## Left out

- Async scheduling: each client call is one atomic step with a supplied outcome. A push interleaved with an in-flight read or write is not modelled.
- Logging (`_LOGGER.error`) is left out. So are the entity framework details: `unique_id`, the `name` and `current_option`/`native_value` properties, the unit, the state class and `should_poll`.
- Reading `entry.data[CONF_NODE_ID]` and `entry.data[CONF_ENDPOINT_ID]` is left out. The node and endpoint ids are parameters, since the configuration flow always stores both.
- `hass.config_entries.async_entries("matter")` and `hass.data` are passed in as values.
- ClientLookup.Resolve: every client object is taken to be truthy, and only `None` counts as a falsy `matter_client`.
- ClientLookup.Resolve: a non-dict `hass.data["matter"]` object that does have a `get` method is not modelled. Every non-dict value is taken to lack `.get`.
- Read and pushed values are modelled as integers, the wire codes of the vendor attributes. Values of other Python types are not modelled.
- The client's delivery of pushes only after a successful subscription is not modelled. `HandleUpdate` can be called at any time, just as the handler itself checks nothing about subscription.
- There is no unsubscribe on teardown and no retry after an activation failure. The source has neither.
- Endpoints.MatterNumericEndpoint.AttributeChangeCB: `static_cast<T>` is taken to keep the value. This holds for any signed integral `T` of 16 bits or more. An unsigned `T` would wrap a negative quotient (-1 becomes 65535 for `uint16_t`), and `bool` would turn every nonzero quotient into `true`; neither is modelled. The instantiations of `T` are not part of this model.
- The floating-point branch of `attributeChangeCB` (`Endpoints.h:29`) is left out, because it is floating point.
- The base class `MatterTemperatureControlledCabinet::attributeChangeCB` is a foreign library. Its answer is the opaque parameter `baseResult`.
- The TemperatureControl cluster id (0x0056) and TemperatureSetpoint attribute id (0x0000) come from the Matter Application Cluster specification's Temperature Control cluster. They are not in the repository's files.
- A callback's own effect when invoked is not modelled. The model records which callback is called and with what argument.
- The setup wizard (`config_flow.py`), the status LED (`StatusLED.h`) and the firmware configuration (`Config.h`) are not part of this model. They are UI, hardware and constant glue.
- `DOMAIN` and the `CONF_*` key names are left out. They only name storage keys.
