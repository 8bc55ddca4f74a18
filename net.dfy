/**
 * The ONOS values the drivers exchange with the core: frequencies, optical
 * channel signals on the ITU-T G.694.1 grid, flow-rule criteria and
 * instructions, flow rules and device ports.  Frequencies are whole numbers
 * of hertz, as ONOS `Frequency` stores them.
 */
module Net {
  import opened Wrappers
  import opened Strings

  type DeviceId = string
  type PortNumber = int

  const GHz: int := 1_000_000_000
  const THz: int := 1_000_000_000_000
  /** The anchor of the ITU-T G.694.1 grid (clause 6), 193.1 THz. */
  const GridAnchorHz: int := 193_100 * GHz
  /** The flexible-grid slot width, 12.5 GHz. */
  const SlotHz: int := 12_500_000_000

  datatype GridType = DWDM | CWDM | FLEX | UNKNOWN

  datatype ChannelSpacing = CHL_100GHZ | CHL_50GHZ | CHL_25GHZ | CHL_12P5GHZ | CHL_6P25GHZ

  function SpacingHz(cs: ChannelSpacing): (hz: nat)
    ensures hz > 0 && hz % 2 == 0
  {
    match cs
    case CHL_100GHZ => 100 * GHz
    case CHL_50GHZ => 50 * GHz
    case CHL_25GHZ => 25 * GHz
    case CHL_12P5GHZ => 12_500_000_000
    case CHL_6P25GHZ => 6_250_000_000
  }

  /** An optical channel: grid, spacing, multiplier of the spacing from the anchor, width in 12.5 GHz slots. */
  datatype OchSignal = OchSignal(gridType: GridType, channelSpacing: ChannelSpacing,
                                 spacingMultiplier: int, slotGranularity: int)

  datatype OchSignalType = FIXED_GRID | FLEX_GRID

  /** Centre frequency: the anchor plus the multiplier times the spacing. */
  function CentralFrequency(s: OchSignal): (hz: int)
    ensures hz - GridAnchorHz == s.spacingMultiplier * SpacingHz(s.channelSpacing)
  {
    GridAnchorHz + SpacingHz(s.channelSpacing) * s.spacingMultiplier
  }

  /** ONOS `OchSignal.newDwdmSlot`: a DWDM channel whose width is one spacing. */
  function NewDwdmSlot(spacing: ChannelSpacing, multiplier: int): (s: OchSignal)
    ensures s.gridType == DWDM && s.channelSpacing == spacing && s.spacingMultiplier == multiplier
    ensures s.slotGranularity * SlotHz <= SpacingHz(spacing) < (s.slotGranularity + 1) * SlotHz
  {
    OchSignal(DWDM, spacing, multiplier, SpacingHz(spacing) / SlotHz)
  }

  /** One character of a rendered frequency: a digit, the point or the sign. */
  predicate NumericChar(c: char) {
    IsDigit(c) || c == '.' || c == '-'
  }

  predicate NumericText(s: string) {
    forall i :: 0 <= i < |s| ==> NumericChar(s[i])
  }

  /**
   * The digits of `f / 10^k` after the decimal point, most significant first,
   * without trailing zeros and with at least one digit.
   */
  function FractionDigits(f: nat, k: nat): (r: string)
    requires 1 <= k && f < Pow10(k)
    ensures 1 <= |r| <= k && AllDigits(r)
    decreases k
  {
    var unit := Pow10(k - 1);
    QuotientBelowTen(f, unit);
    var d := f / unit;
    var rest := f % unit;
    [DigitChar(d)] + (if rest == 0 || k == 1 then "" else FractionDigits(rest, k - 1))
  }

  lemma QuotientBelowTen(f: nat, unit: nat)
    requires unit > 0 && f < 10 * unit
    ensures f / unit < 10
  {
    var q := f / unit;
    assert f == q * unit + f % unit;
    assert (q - 10) * unit < 0;
  }

  /**
   * Java's `Double.toString(Frequency.ofHz(hz).asTHz())` for frequencies whose
   * value in THz prints in plain notation: the integer part, a point, and the
   * fraction without trailing zeros (at least one digit).
   */
  function FormatTHz(hz: int): (r: string)
    ensures |r| >= 3 && NumericText(r)
  {
    var a: nat := if hz < 0 then -hz else hz;
    var whole := NatToString(a / THz);
    var frac := FractionDigits(a % THz, 12);
    var r := (if hz < 0 then "-" else "") + whole + "." + frac;
    assert forall i :: 0 <= i < |whole| ==> NumericChar(whole[i]);
    assert forall i :: 0 <= i < |frac| ==> NumericChar(frac[i]);
    r
  }

  datatype Criterion =
    | InPort(port: PortNumber)
    | OchSigType(signalType: OchSignalType)
    | OchSigId(lambda: OchSignal)
    | OtherCriterion

  datatype CriterionType = IN_PORT | OCH_SIGTYPE | OCH_SIGID | OTHER_CRITERION

  function TypeOf(c: Criterion): CriterionType {
    match c
    case InPort(_) => IN_PORT
    case OchSigType(_) => OCH_SIGTYPE
    case OchSigId(_) => OCH_SIGID
    case OtherCriterion => OTHER_CRITERION
  }

  /** `TrafficSelector.getCriterion(t)`: the selector's criterion of type `t`, if any. */
  function GetCriterion(selector: seq<Criterion>, t: CriterionType): (r: Option<Criterion>)
    ensures r.Some? <==> exists i :: 0 <= i < |selector| && TypeOf(selector[i]) == t
    ensures r.Some? ==> r.value in selector && TypeOf(r.value) == t
  {
    if selector == [] then None
    else if TypeOf(selector[0]) == t then Some(selector[0])
    else GetCriterion(selector[1..], t)
  }

  datatype Instruction =
    | Output(port: PortNumber)
    | ModLambda(lambda: OchSignal)
    | OtherInstruction

  /** The port of the first OUTPUT instruction of a treatment, if any. */
  function FirstOutput(treatment: seq<Instruction>): (r: Option<PortNumber>)
    ensures r.Some? <==> exists i :: 0 <= i < |treatment| && treatment[i].Output?
    ensures r.Some? ==> Output(r.value) in treatment
  {
    if treatment == [] then None
    else if treatment[0].Output? then Some(treatment[0].port)
    else FirstOutput(treatment[1..])
  }

  /** A flow rule: target device, flow id (the cookie it was built with), priority, permanence, match and actions. */
  datatype FlowRule = FlowRule(deviceId: DeviceId, id: int, priority: int, permanent: bool,
                               selector: seq<Criterion>, treatment: seq<Instruction>)

  const CircuitPackKey := "circuit-pack"
  const PortNameKey := "portName"
  const LcpKey := "logical-connection-point"

  /** A device port as the device service reports it: number and annotations. */
  datatype Port = Port(number: PortNumber, annotations: map<string, string>)

  /** The annotations the OpenROADM discovery puts on every port. */
  predicate Annotated(p: Port) {
    CircuitPackKey in p.annotations && PortNameKey in p.annotations && LcpKey in p.annotations
  }

  function Lcp(p: Port): string
    requires Annotated(p)
  {
    p.annotations[LcpKey]
  }

  /** `DeviceService.getPort(device, n)`: the port numbered `n`, if the device has one. */
  function LookupPort(ports: seq<Port>, n: PortNumber): (r: Option<Port>)
    ensures r.Some? <==> exists i :: 0 <= i < |ports| && ports[i].number == n
    ensures r.Some? ==> r.value in ports && r.value.number == n
  {
    if ports == [] then None
    else if ports[0].number == n then Some(ports[0])
    else LookupPort(ports[1..], n)
  }
}
