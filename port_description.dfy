/**
 * What the discovery behaviours hand to ONOS: a device description and a
 * list of port descriptions, each an OCh port (one tunable channel) or an
 * OMS port (a multiplexed section over a band of the grid).
 */
module Descriptions {
  import opened Net

  /** The first and last channel centres of an OMS port, 191.35 THz and 196.10 THz. */
  const StartCenterHz: int := 191_350 * GHz
  const StopCenterHz: int := 196_100 * GHz
  /** OMS ports are gridded at 50 GHz. */
  const OmsSpacing: ChannelSpacing := CHL_50GHZ

  datatype DeviceType = SWITCH | ROUTER | ROADM | OTN | ROADM_OTN | FIBER_SWITCH | OPTICAL_AMPLIFIER | OTHER

  /** A chassis id built from a number, or from a text that ONOS itself decodes. */
  datatype ChassisId = ChassisNumber(value: int) | ChassisText(text: string)

  datatype DeviceDetails = DeviceDetails(
    deviceType: DeviceType,
    vendor: string,
    hwVersion: string,
    swVersion: string,
    serialNumber: string,
    chassisId: ChassisId,
    annotations: map<string, string>)

  datatype OduSignalType = ODU0 | ODU1 | ODU2 | ODU2e | ODU3 | ODU4

  datatype PortType = COPPER | FIBER | PACKET | ODUCLT | OCH | OMS | OTU | VIRTUAL

  datatype PortDescription =
    | OchPortDescription(number: PortNumber, enabled: bool, signalType: OduSignalType, tunable: bool,
                         lambda: OchSignal, annotations: map<string, string>)
    | OmsPortDescription(number: PortNumber, enabled: bool, minFrequencyHz: int, maxFrequencyHz: int,
                         gridHz: int, annotations: map<string, string>)

  /** The type ONOS gives a port built from the description. */
  function PortTypeOf(d: PortDescription): PortType {
    if d.OchPortDescription? then OCH else OMS
  }

  /** `omsPortDescription` with the band both drivers declare: 191.35 to 196.10 THz at 50 GHz, enabled. */
  function BandOmsPort(number: PortNumber, annotations: map<string, string>): (d: PortDescription)
    ensures d.OmsPortDescription? && d.number == number && d.enabled && d.annotations == annotations
    ensures d.minFrequencyHz == StartCenterHz && d.maxFrequencyHz == StopCenterHz
    ensures d.gridHz == SpacingHz(OmsSpacing)
    ensures d.maxFrequencyHz - d.minFrequencyHz == (96 - 1) * d.gridHz && (GridAnchorHz - d.minFrequencyHz) % d.gridHz == 0
  {
    OmsPortDescription(number, true, StartCenterHz, StopCenterHz, SpacingHz(OmsSpacing), annotations)
  }

  /** The device port ONOS keeps for a description: its number and annotations. */
  function AsPort(d: PortDescription): (p: Port)
    ensures p.number == d.number && p.annotations == d.annotations
  {
    Port(d.number, d.annotations)
  }
}
