/**
 * The firmware's numeric Matter endpoint (integral value type): it registers
 * one change callback and, when the TemperatureSetpoint attribute of its own
 * TemperatureControl cluster changes, hands the callback the setpoint divided
 * by 100 with C++ integer division.
 */
module Endpoints {
  import opened Wrappers

  type Int16 = x: int | -0x8000 <= x < 0x8000
  type UInt16 = x: int | 0 <= x < 0x1_0000
  type UInt32 = x: int | 0 <= x < 0x1_0000_0000

  /** Cluster id of TemperatureControl in the Matter application cluster library. */
  const TemperatureControlClusterId: UInt32 := 0x0056
  /** Attribute id of TemperatureSetpoint within TemperatureControl. */
  const TemperatureSetpointAttributeId: UInt32 := 0x0000

  /**
   * C++ integer division by a positive divisor: the quotient is truncated
   * toward zero, so its magnitude is |a| / b and a nonzero quotient has the
   * sign of `a` (Dafny's own `/` rounds toward minus infinity here instead).
   */
  function CppDiv(a: int, b: int): (q: int)
    requires b > 0
    ensures Abs(q) == Abs(a) / b
    ensures q == 0 || ((q > 0) <==> (a > 0))
  {
    if a >= 0 then a / b else -((-a) / b)
  }

  /** The truncated quotient times the divisor falls short of the dividend's magnitude by less than one divisor. */
  lemma CppDivBounds(a: int, b: int)
    requires b > 0
    ensures 0 <= Abs(a) - Abs(CppDiv(a, b)) * b < b
  {
  }

  function Abs(x: int): (r: nat)
    ensures r == x || r == -x
  {
    if x < 0 then -x else x
  }

  /** For a non-negative or exact dividend truncation agrees with floor division; otherwise it is one above. */
  lemma TruncationVersusFloor(x: int)
    ensures x >= 0 || x % 100 == 0 ==> CppDiv(x, 100) == x / 100
    ensures x < 0 && x % 100 != 0 ==> CppDiv(x, 100) == x / 100 + 1
  {
  }

  /** A setpoint of -1.50 degrees is delivered as -1, not as the floor -2. */
  lemma NegativeSetpointTruncates()
    ensures CppDiv(-150, 100) == -1 && -150 / 100 == -2
  {
  }

  /** Every int16 setpoint is delivered as a value in [-327, 327]. */
  lemma SetpointRange(raw: Int16)
    ensures -327 <= CppDiv(raw, 100) <= 327
  {
  }

  /** A `std::function<void(T)>` target, known only by identity. */
  datatype Callback = Callback(id: nat)

  /** One call of the registered callback with its argument. */
  datatype Invocation = Invocation(target: Callback, arg: int)

  class MatterNumericEndpoint {
    /** What `getEndPointId()` answers. */
    const endpointId: UInt16
    /** `_onChangeCb`; `None` is an empty `std::function`, as `nullptr` makes it. */
    var onChangeCb: Option<Callback>

    constructor (endpointId: UInt16)
      ensures this.endpointId == endpointId && onChangeCb == None
    {
      this.endpointId := endpointId;
      onChangeCb := None;
    }

    /** `onChange`: the given callback replaces whatever was registered before. */
    method OnChange(cb: Option<Callback>)
      modifies this
      ensures onChangeCb == cb
    {
      onChangeCb := cb;
    }

    /**
     * `attributeChangeCB` for an integral `T`: the callback runs, with the
     * setpoint truncated by 100, exactly when the endpoint, the cluster and the
     * attribute match and a callback is set; the answer is always the base
     * class's answer `baseResult`.
     */
    method AttributeChangeCB(endpoint: UInt16, clusterId: UInt32, attributeId: UInt32, setpoint: Int16, baseResult: bool)
      returns (ret: bool, invoked: Option<Invocation>)
      ensures ret == baseResult
      ensures invoked.Some? <==>
        endpoint == endpointId && clusterId == TemperatureControlClusterId &&
        attributeId == TemperatureSetpointAttributeId && onChangeCb.Some?
      ensures invoked.Some? ==> invoked.value.target == onChangeCb.value
      ensures invoked.Some? ==> -327 <= invoked.value.arg <= 327
      ensures invoked.Some? ==>
        Abs(invoked.value.arg) == Abs(setpoint) / 100 &&
        (invoked.value.arg == 0 || (invoked.value.arg < 0 <==> setpoint < 0))
    {
      ret := baseResult;
      invoked := None;
      if endpoint == endpointId && clusterId == TemperatureControlClusterId &&
         attributeId == TemperatureSetpointAttributeId && onChangeCb.Some? {
        SetpointRange(setpoint);
        var arg := CppDiv(setpoint, 100);
        invoked := Some(Invocation(onChangeCb.value, arg));
      }
    }
  }
}
