/**
 * Device and port discovery of the HPN Polatis fibre switch over REST: a
 * fixed device description, and one OMS port per number the device lists
 * under "input_ports" and "output_ports".
 */
module PolatisDiscovery {
  import opened Wrappers
  import opened Strings
  import opened Net
  import opened Descriptions

  /** A Java `int`. */
  type Int32 = x: int | -0x8000_0000 <= x < 0x8000_0000

  /** `discoverDeviceDetails`: the same description whatever the device says. */
  function DiscoverDeviceDetails(): (d: DeviceDetails)
    ensures d.deviceType == FIBER_SWITCH && d.vendor == "HPN"
    ensures d.hwVersion == "0.1" && d.swVersion == "0.1"
    ensures d.serialNumber == "1111" && d.chassisId == ChassisText("1111")
    ensures d.annotations == map[]
  {
    DeviceDetails(FIBER_SWITCH, "HPN", "0.1", "0.1", "1111", ChassisText("1111"), map[])
  }

  const PortNamePrefix := "port-"

  /** The name annotation of port `n`. */
  function PortName(n: Int32): string {
    PortNamePrefix + IntToString(n)
  }

  /** `parsePort`: port `n` is an enabled OMS port over the band, named "port-<n>". */
  function ParsePort(n: Int32): (d: PortDescription)
    ensures d.OmsPortDescription? && d.number == n && d.enabled
    ensures d.annotations.Keys == {PortNameKey} && d.annotations[PortNameKey] == PortName(n)
    ensures d.minFrequencyHz == StartCenterHz && d.maxFrequencyHz == StopCenterHz && d.gridHz == SpacingHz(OmsSpacing)
  {
    BandOmsPort(n, map[PortNameKey := PortName(n)])
  }

  /** The name of a port reads back as its number. */
  lemma PortNameRoundTrip(n: Int32)
    ensures PortName(n)[..|PortNamePrefix|] == PortNamePrefix
    ensures ParseLong(PortName(n)[|PortNamePrefix|..]) == Some(n as int)
  {
    assert PortName(n)[|PortNamePrefix|..] == IntToString(n);
    ParseLongIntToString(n);
  }

  /** Two ports share a name only when they share a number. */
  lemma PortNamesDistinct(m: Int32, n: Int32)
    ensures ParsePort(m).annotations[PortNameKey] == ParsePort(n).annotations[PortNameKey] <==> m == n
  {
    PortNameRoundTrip(m);
    PortNameRoundTrip(n);
  }

  /** The ports of a list of numbers, in order. */
  function PortsOf(ns: seq<Int32>): (ports: seq<PortDescription>)
    ensures |ports| == |ns|
    ensures forall i :: 0 <= i < |ns| ==> ports[i] == ParsePort(ns[i])
  {
    seq(|ns|, i requires 0 <= i < |ns| => ParsePort(ns[i]))
  }

  /** Adding one number to the list adds its port at the end. */
  lemma PortsOfStep(ns: seq<Int32>, i: nat)
    requires i < |ns|
    ensures PortsOf(ns[..i + 1]) == PortsOf(ns[..i]) + [ParsePort(ns[i])]
  {
  }

  /**
   * `parsePorts`: every input port, then every output port, each list in
   * the order the device gives it.
   */
  method ParsePorts(inputs: seq<Int32>, outputs: seq<Int32>) returns (ports: seq<PortDescription>)
    ensures ports == PortsOf(inputs) + PortsOf(outputs)
  {
    ports := [];
    var i := 0;
    while i < |inputs|
      invariant 0 <= i <= |inputs| && ports == PortsOf(inputs[..i])
    {
      PortsOfStep(inputs, i);
      ports := ports + [ParsePort(inputs[i])];
      i := i + 1;
    }
    assert inputs[..i] == inputs;
    var j := 0;
    while j < |outputs|
      invariant 0 <= j <= |outputs| && ports == PortsOf(inputs) + PortsOf(outputs[..j])
    {
      PortsOfStep(outputs, j);
      ports := ports + [ParsePort(outputs[j])];
      j := j + 1;
    }
    assert outputs[..j] == outputs;
  }

  /** Inputs come first, then outputs, each list in the device's order. */
  lemma ParsedPortsOrder(inputs: seq<Int32>, outputs: seq<Int32>)
    ensures |PortsOf(inputs) + PortsOf(outputs)| == |inputs| + |outputs|
    ensures forall i :: 0 <= i < |inputs| ==> (PortsOf(inputs) + PortsOf(outputs))[i] == ParsePort(inputs[i])
    ensures forall j :: 0 <= j < |outputs| ==> (PortsOf(inputs) + PortsOf(outputs))[|inputs| + j] == ParsePort(outputs[j])
  {
    var ports := PortsOf(inputs) + PortsOf(outputs);
    forall j | 0 <= j < |outputs|
      ensures ports[|inputs| + j] == ParsePort(outputs[j])
    {
      assert ports[|inputs| + j] == PortsOf(outputs)[j];
    }
  }

  /** The "/ports/" document: each list is `None` when its key is absent. */
  datatype PortsDocument = PortsDocument(inputPorts: Option<seq<Int32>>, outputPorts: Option<seq<Int32>>)

  /** Reading a list whose key is absent dereferences `null`. */
  datatype DiscoveryError = MissingKey(key: string)

  /**
   * `discoverPortDetails`: `reply` is `None` when reading or parsing the
   * document fails, which gives no ports; a missing list is an error the
   * caller sees; otherwise the ports of both lists.
   */
  method DiscoverPortDetails(reply: Option<PortsDocument>) returns (r: Result<seq<PortDescription>, DiscoveryError>)
    ensures reply.None? ==> r == Success([])
    ensures reply.Some? && reply.value.inputPorts.None? ==> r == Failure(MissingKey("input_ports"))
    ensures reply.Some? && reply.value.inputPorts.Some? && reply.value.outputPorts.None? ==>
      r == Failure(MissingKey("output_ports"))
    ensures reply.Some? && reply.value.inputPorts.Some? && reply.value.outputPorts.Some? ==>
      r == Success(PortsOf(reply.value.inputPorts.value) + PortsOf(reply.value.outputPorts.value))
    ensures reply.Some? && reply.value.inputPorts.Some? && reply.value.outputPorts.Some? ==>
      r.Success? && |r.value| == |reply.value.inputPorts.value| + |reply.value.outputPorts.value|
    ensures r.Success? ==> forall d :: d in r.value ==>
      d.OmsPortDescription? && d.minFrequencyHz == StartCenterHz && d.maxFrequencyHz == StopCenterHz &&
      d.gridHz == SpacingHz(OmsSpacing) && PortNameKey in d.annotations
    ensures r.Success? ==> forall d :: d in r.value ==>
      d.number in reply.value.inputPorts.value || d.number in reply.value.outputPorts.value
  {
    if reply.None? {
      return Success([]);
    }
    if reply.value.inputPorts.None? {
      return Failure(MissingKey("input_ports"));
    }
    if reply.value.outputPorts.None? {
      return Failure(MissingKey("output_ports"));
    }
    var inputs, outputs := reply.value.inputPorts.value, reply.value.outputPorts.value;
    var ports := ParsePorts(inputs, outputs);
    ParsedPortsOrder(inputs, outputs);
    forall d | d in ports
      ensures d.OmsPortDescription? && d.minFrequencyHz == StartCenterHz && d.maxFrequencyHz == StopCenterHz
      ensures d.gridHz == SpacingHz(OmsSpacing) && PortNameKey in d.annotations
      ensures d.number in inputs || d.number in outputs
    {
      var k :| 0 <= k < |ports| && ports[k] == d;
      if k < |inputs| {
        assert d == ParsePort(inputs[k]);
      } else {
        assert d == ParsePort(outputs[k - |inputs|]);
      }
    }
    return Success(ports);
  }
}
