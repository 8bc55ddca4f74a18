/**
 * The power behaviour of the OpenROADM driver: which ports report a target
 * (output) or an input power range, and the fixed readings it returns.
 * Powers are in dBm.
 */
module RoadmPowerConfig {
  import opened Wrappers
  import opened Strings
  import opened Net

  /** A closed range of powers, `[lower, upper]`. */
  datatype PowerRange = Closed(lower: real, upper: real)

  /** Both ranges the driver reports, -60 dBm to 60 dBm. */
  const TxRange := Closed(-60.0, 60.0)
  const RxRange := Closed(-60.0, 60.0)

  /** Output ports carry "TX" in their logical connection point, input ports "RX". */
  const TxTag := "TX"
  const RxTag := "RX"

  /** A port without a logical connection point: reading it gives `null`, and testing it throws. */
  datatype PowerError = MissingLcp(port: PortNumber)

  /**
   * The numbers of the ports whose logical connection point contains `tag`,
   * in the device's port order; the first port without one stops the stream.
   */
  function TaggedPorts(ports: seq<Port>, tag: string): (r: Result<seq<PortNumber>, PowerError>)
    ensures r.Success? <==> forall i :: 0 <= i < |ports| ==> LcpKey in ports[i].annotations
    ensures r.Failure? ==> exists i :: 0 <= i < |ports| && LcpKey !in ports[i].annotations && r.error == MissingLcp(ports[i].number)
    ensures r.Success? ==> forall n :: n in r.value <==>
      exists i :: 0 <= i < |ports| && ports[i].number == n && Contains(ports[i].annotations[LcpKey], tag)
  {
    if ports == [] then Success([])
    else if LcpKey !in ports[0].annotations then Failure(MissingLcp(ports[0].number))
    else
      match TaggedPorts(ports[1..], tag)
      case Failure(e) => Failure(e)
      case Success(rest) =>
        if Contains(ports[0].annotations[LcpKey], tag) then Success([ports[0].number] + rest) else Success(rest)
  }

  /**
   * The range reported for `port` when it is listed under `tag`, or none:
   * over a device whose ports all have a logical connection point, the range
   * exactly when some port of that number is marked with `tag`.
   */
  function RangeIfTagged(ports: seq<Port>, tag: string, port: PortNumber, range: PowerRange): (r: Result<Option<PowerRange>, PowerError>)
    ensures r.Success? <==> forall i :: 0 <= i < |ports| ==> LcpKey in ports[i].annotations
    ensures r.Success? ==> (r.value.Some? <==>
      exists i :: 0 <= i < |ports| && ports[i].number == port && Contains(ports[i].annotations[LcpKey], tag))
    ensures r.Success? && r.value.Some? ==> r.value.value == range
  {
    match TaggedPorts(ports, tag)
    case Failure(e) => Failure(e)
    case Success(tagged) => if port in tagged then Success(Some(range)) else Success(None)
  }

  /**
   * `getTargetPowerRange`: fails when some port of the device has no logical
   * connection point; otherwise -60 to 60 dBm exactly when some port of that
   * number is marked "TX", and none for any other port.
   */
  function TargetPowerRange(ports: seq<Port>, port: PortNumber): (r: Result<Option<PowerRange>, PowerError>)
    ensures r.Success? <==> forall i :: 0 <= i < |ports| ==> LcpKey in ports[i].annotations
    ensures r.Success? ==> (r.value.Some? <==>
      exists i :: 0 <= i < |ports| && ports[i].number == port && Contains(ports[i].annotations[LcpKey], "TX"))
    ensures r.Success? && r.value.Some? ==> r.value.value == Closed(-60.0, 60.0)
  {
    RangeIfTagged(ports, TxTag, port, TxRange)
  }

  /**
   * `getInputPowerRange`: fails when some port of the device has no logical
   * connection point; otherwise -60 to 60 dBm exactly when some port of that
   * number is marked "RX", and none for any other port.
   */
  function InputPowerRange(ports: seq<Port>, port: PortNumber): (r: Result<Option<PowerRange>, PowerError>)
    ensures r.Success? <==> forall i :: 0 <= i < |ports| ==> LcpKey in ports[i].annotations
    ensures r.Success? ==> (r.value.Some? <==>
      exists i :: 0 <= i < |ports| && ports[i].number == port && Contains(ports[i].annotations[LcpKey], "RX"))
    ensures r.Success? && r.value.Some? ==> r.value.value == Closed(-60.0, 60.0)
  {
    RangeIfTagged(ports, RxTag, port, RxRange)
  }

  /** `getTargetPower`: the driver does not read the device; every port reports a reading, of 0 dBm. */
  function TargetPower(port: PortNumber): (r: Option<real>)
    ensures r.Some? && r.value == 0.0
  {
    Some(0.0)
  }

  /** `currentPower`: likewise a reading of 0 dBm on every port, the same as the target. */
  function CurrentPower(port: PortNumber): (r: Option<real>)
    ensures r.Some? && r.value == 0.0 && r == TargetPower(port)
  {
    Some(0.0)
  }
}
