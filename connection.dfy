/**
 * The OpenROADM objects one cross-connect needs on the device: a media
 * channel (MC) per degree side, a network media channel (NMC) per side and the
 * roadm-connection joining the two NMCs, all derived from a cross-connect rule
 * and the annotations of its two ports.
 */
module RoadmConnection {
  import opened Wrappers
  import opened Strings
  import opened Net
  import opened RoadmFlowRule

  /** `port.annotations().value(key)`: absent keys read as null. */
  function Annotation(p: Port, key: string): (r: Option<string>)
    ensures r.Some? <==> key in p.annotations
  {
    if key in p.annotations then Some(p.annotations[key]) else None
  }

  /** Java string concatenation prints a null reference as "null". */
  function Text(v: Option<string>): string {
    if v.Some? then v.value else "null"
  }

  function LcpText(p: Port): string {
    Text(Annotation(p, LcpKey))
  }

  /** Name of the media channel of a degree port: `MC-TTP-<lcp>-<THz>`. */
  function McName(lcp: string, center: int): string {
    "MC-TTP-" + lcp + "-" + FormatTHz(center)
  }

  /** Name of the network media channel of a degree port: `NMC-CTP-<lcp>-<THz>`. */
  function NmcName(lcp: string, center: int): string {
    "NMC-CTP-" + lcp + "-" + FormatTHz(center)
  }

  /** Name of the network media channel of a client port: `<lcp>-<THz>`, without prefix. */
  function ClientNmcName(lcp: string, center: int): string {
    lcp + "-" + FormatTHz(center)
  }

  datatype MediaChannel = MediaChannel(
    name: string,
    supportingCircuitPack: Option<string>,
    supportingPort: Option<string>,
    supportingInterface: string,
    minFrequency: int,
    maxFrequency: int)

  datatype NetworkMediaChannel = NetworkMediaChannel(
    name: string,
    supportingCircuitPack: Option<string>,
    supportingPort: Option<string>,
    supportingInterface: Option<string>,
    frequency: int,
    width: int)

  /** The data of one connection; an MC a link type does not use is absent (its fields stay null). */
  datatype ConnectionData = ConnectionData(
    connectionName: string,
    deviceId: DeviceId,
    flowId: int,
    priority: int,
    linkType: LinkType,
    ochSignal: OchSignal,
    inPort: PortNumber,
    outPort: PortNumber,
    srcMc: Option<MediaChannel>,
    dstMc: Option<MediaChannel>,
    srcNmc: NetworkMediaChannel,
    dstNmc: NetworkMediaChannel,
    srcConnInterface: string,
    dstConnInterface: string)

  /** The name a side's MC had, as Java's null name prints. */
  function McNameOrNull(mc: Option<MediaChannel>): Option<string> {
    if mc.Some? then Some(mc.value.name) else None
  }

  /**
   * The shape every built connection has: MCs exactly on the degree sides,
   * each a window one channel spacing wide centred on the channel, both NMCs
   * at the centre with the spacing as width, each NMC resting on its side's
   * MC, and the connection joining the two NMCs.
   */
  predicate WellFormed(c: ConnectionData) {
    var center := CentralFrequency(c.ochSignal);
    var width := SpacingHz(c.ochSignal.channelSpacing);
    (c.srcMc.Some? <==> c.linkType != ADD_LINK) &&
    (c.dstMc.Some? <==> c.linkType != DROP_LINK) &&
    (forall mc :: mc in [c.srcMc, c.dstMc] && mc.Some? ==>
       mc.value.maxFrequency - mc.value.minFrequency == width &&
       mc.value.minFrequency + mc.value.maxFrequency == 2 * center) &&
    c.srcNmc.frequency == center && c.dstNmc.frequency == center &&
    c.srcNmc.width == width && c.dstNmc.width == width &&
    c.srcNmc.supportingInterface == (if c.srcMc.Some? then McNameOrNull(c.srcMc) else Some("")) &&
    c.dstNmc.supportingInterface == McNameOrNull(c.dstMc) &&
    c.srcConnInterface == c.srcNmc.name && c.dstConnInterface == c.dstNmc.name
  }

  function BuildMc(p: Port, center: int, radius: int): MediaChannel {
    MediaChannel(McName(LcpText(p), center), Annotation(p, CircuitPackKey), Annotation(p, PortNameKey),
                 "OMS-" + LcpText(p), center - radius, center + radius)
  }

  function BuildNmc(name: string, p: Port, center: int, width: int, supportingInterface: Option<string>): NetworkMediaChannel {
    NetworkMediaChannel(name, Annotation(p, CircuitPackKey), Annotation(p, PortNameKey), supportingInterface, center, width)
  }

  /**
   * The connection constructor with its three builders: the radius is half
   * the channel spacing, the centre is the signal's central frequency, and
   * the names, supporting interfaces and windows follow the link type.
   */
  function BuildConnection(name: string, xc: OpenRoadmFlowRule, srcPort: Port, dstPort: Port): (c: ConnectionData)
    ensures WellFormed(c)
    ensures c.connectionName == name && c.linkType == xc.linkType && c.ochSignal == xc.ochSignal
    ensures c.inPort == xc.inPort && c.outPort == xc.outPort
    ensures c.deviceId == xc.rule.deviceId && c.flowId == xc.rule.id && c.priority == xc.rule.priority
    ensures var center := CentralFrequency(xc.ochSignal);
      c.srcNmc.name == (if xc.linkType == ADD_LINK then ClientNmcName(LcpText(srcPort), center)
                        else NmcName(LcpText(srcPort), center)) &&
      c.dstNmc.name == (if xc.linkType == DROP_LINK then ClientNmcName(LcpText(dstPort), center)
                        else NmcName(LcpText(dstPort), center)) &&
      (c.srcMc.Some? ==> c.srcMc.value.name == McName(LcpText(srcPort), center) &&
                         c.srcMc.value.supportingInterface == "OMS-" + LcpText(srcPort)) &&
      (c.dstMc.Some? ==> c.dstMc.value.name == McName(LcpText(dstPort), center) &&
                         c.dstMc.value.supportingInterface == "OMS-" + LcpText(dstPort))
    ensures c.srcNmc.supportingCircuitPack == Annotation(srcPort, CircuitPackKey) &&
            c.srcNmc.supportingPort == Annotation(srcPort, PortNameKey) &&
            c.dstNmc.supportingCircuitPack == Annotation(dstPort, CircuitPackKey) &&
            c.dstNmc.supportingPort == Annotation(dstPort, PortNameKey)
  {
    var center := CentralFrequency(xc.ochSignal);
    var width := SpacingHz(xc.ochSignal.channelSpacing);
    var radius := width / 2;
    var src := LcpText(srcPort);
    var dst := LcpText(dstPort);
    var r := xc.rule;
    match xc.linkType
    case EXPRESS_LINK =>
      var srcMc := BuildMc(srcPort, center, radius);
      var dstMc := BuildMc(dstPort, center, radius);
      var srcNmc := BuildNmc(NmcName(src, center), srcPort, center, width, Some(srcMc.name));
      var dstNmc := BuildNmc(NmcName(dst, center), dstPort, center, width, Some(dstMc.name));
      ConnectionData(name, r.deviceId, r.id, r.priority, xc.linkType, xc.ochSignal, xc.inPort, xc.outPort,
                     Some(srcMc), Some(dstMc), srcNmc, dstNmc, srcNmc.name, dstNmc.name)
    case ADD_LINK =>
      var dstMc := BuildMc(dstPort, center, radius);
      var srcNmc := BuildNmc(ClientNmcName(src, center), srcPort, center, width, Some(""));
      var dstNmc := BuildNmc(NmcName(dst, center), dstPort, center, width, Some(dstMc.name));
      ConnectionData(name, r.deviceId, r.id, r.priority, xc.linkType, xc.ochSignal, xc.inPort, xc.outPort,
                     None, Some(dstMc), srcNmc, dstNmc, srcNmc.name, dstNmc.name)
    case DROP_LINK =>
      var srcMc := BuildMc(srcPort, center, radius);
      var srcNmc := BuildNmc(NmcName(src, center), srcPort, center, width, Some(srcMc.name));
      var dstNmc := BuildNmc(ClientNmcName(dst, center), dstPort, center, width, None);
      ConnectionData(name, r.deviceId, r.id, r.priority, xc.linkType, xc.ochSignal, xc.inPort, xc.outPort,
                     Some(srcMc), None, srcNmc, dstNmc, srcNmc.name, dstNmc.name)
  }

  /** The four interfaces of an express connection have distinct names when its two ports do. */
  lemma ExpressInterfaceNamesDistinct(name: string, xc: OpenRoadmFlowRule, srcPort: Port, dstPort: Port)
    requires xc.linkType == EXPRESS_LINK && LcpText(srcPort) != LcpText(dstPort)
    ensures var c := BuildConnection(name, xc, srcPort, dstPort);
      var names := [c.srcMc.value.name, c.dstMc.value.name, c.srcNmc.name, c.dstNmc.name];
      forall i, j :: 0 <= i < j < 4 ==> names[i] != names[j]
  {
    var c := BuildConnection(name, xc, srcPort, dstPort);
    var center := CentralFrequency(xc.ochSignal);
    var f := FormatTHz(center);
    var a, b := LcpText(srcPort), LcpText(dstPort);
    McNameInjective(a, b, center);
    NmcNameInjective(a, b, center);
    assert McName(a, center)[0] == 'M' && NmcName(b, center)[0] == 'N';
    assert McName(b, center)[0] == 'M' && NmcName(a, center)[0] == 'N';
  }

  lemma McNameInjective(a: string, b: string, center: int)
    ensures McName(a, center) == McName(b, center) ==> a == b
  {
    var tail := "-" + FormatTHz(center);
    if McName(a, center) == McName(b, center) {
      assert |a| == |b|;
      assert McName(a, center)[7..7 + |a|] == a;
      assert McName(b, center)[7..7 + |b|] == b;
    }
  }

  lemma NmcNameInjective(a: string, b: string, center: int)
    ensures NmcName(a, center) == NmcName(b, center) ==> a == b
  {
    if NmcName(a, center) == NmcName(b, center) {
      assert |a| == |b|;
      assert NmcName(a, center)[8..8 + |a|] == a;
      assert NmcName(b, center)[8..8 + |b|] == b;
    }
  }

  /** A connection object, held by the cache and compared by identity, as Java's default `equals` does. */
  class OpenRoadmConnection {
    const data: ConnectionData

    constructor (name: string, xc: OpenRoadmFlowRule, srcPort: Port, dstPort: Port)
      ensures data == BuildConnection(name, xc, srcPort, dstPort)
    {
      data := BuildConnection(name, xc, srcPort, dstPort);
    }
  }
}
