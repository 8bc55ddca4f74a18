/**
 * The OpenROADM flow-rule programmable behaviour: turning a cross-connect
 * rule into the ordered edit-configs that create its MCs, NMCs and
 * roadm-connection, tearing them down again (from the rule or from a bare
 * connection name found on the device), reading the device's connections
 * back as flow rules, and the conversion between OCh signals and frequency
 * windows.
 */
module RoadmFlowRuleProgrammable {
  import opened Wrappers
  import opened Strings
  import opened Net
  import opened RoadmFlowRule
  import opened RoadmConnection
  import opened ConnectionCache
  import opened Netconf

  /** The most connections the driver keeps before it refuses to create more (the check is `size() > 100`). */
  const MaxCachedConnections := 100

  // ---------------------------------------------------------------------
  // Line ports

  /** Ports whose logical connection point names a degree ("DEG"), in device order. */
  function LinePorts(ports: seq<Port>): (r: seq<PortNumber>)
    requires forall p :: p in ports ==> LcpKey in p.annotations
    ensures |r| <= |ports|
    ensures forall n :: n in r <==>
      exists p :: p in ports && p.number == n && Contains(p.annotations[LcpKey], "DEG")
  {
    if ports == [] then []
    else
      var rest := LinePorts(ports[1..]);
      assert forall p :: p in ports[1..] ==> p in ports;
      assert forall p :: p in ports ==> p == ports[0] || p in ports[1..];
      if Contains(ports[0].annotations[LcpKey], "DEG") then [ports[0].number] + rest else rest
  }

  // ---------------------------------------------------------------------
  // OCh signal <-> frequency window

  /** Java's `(int)` cast of a double: saturates at the 32-bit bounds. */
  function DoubleToInt(x: int): (r: int)
    ensures -0x8000_0000 <= r <= 0x7fff_ffff
    ensures -0x8000_0000 <= x <= 0x7fff_ffff ==> r == x
  {
    if x < -0x8000_0000 then -0x8000_0000 else if x > 0x7fff_ffff then 0x7fff_ffff else x
  }

  /** Quotient rounded toward zero, as a cast of a floating-point quotient to an integer rounds. */
  function TruncDiv(a: int, b: int): (q: int)
    requires b > 0
    ensures a >= 0 ==> q * b <= a < (q + 1) * b
    ensures a < 0 ==> (q - 1) * b < a <= q * b
  {
    if a >= 0 then a / b else -((-a) / b)
  }

  /**
   * `toOchSignalMinMax`: a window exactly 50 GHz or 100 GHz wide becomes a
   * DWDM channel of that spacing, its multiplier being the offset of the
   * window's middle from the anchor in spacings (rounded toward zero) and its
   * slot count the width in 12.5 GHz slots; any other width has no signal.
   */
  function ToOchSignalMinMax(minHz: int, maxHz: int): (r: Option<OchSignal>)
    ensures r.Some? <==> maxHz - minHz == 50 * GHz || maxHz - minHz == 100 * GHz
    ensures r.Some? ==>
      r.value.gridType == DWDM &&
      SpacingHz(r.value.channelSpacing) == maxHz - minHz &&
      r.value.slotGranularity * SlotHz == maxHz - minHz
  {
    var diff := maxHz - minHz;
    var slots := DoubleToInt(TruncDiv(diff, SlotHz));
    if diff == 50 * GHz then
      Some(OchSignal(DWDM, CHL_50GHZ, DoubleToInt(TruncDiv(diff / 2 + minHz - GridAnchorHz, 50 * GHz)), slots))
    else if diff == 100 * GHz then
      Some(OchSignal(DWDM, CHL_100GHZ, DoubleToInt(TruncDiv(diff / 2 + minHz - GridAnchorHz, 100 * GHz)), slots))
    else None
  }

  /** `toOchSignalCenterWidth`: the window of half the width (rounded down) on either side of the centre. */
  function ToOchSignalCenterWidth(center: int, width: int): (r: Option<OchSignal>)
    ensures r == ToOchSignalMinMax(center - width / 2, center + width / 2)
    ensures r.Some? <==> 2 * (width / 2) == 50 * GHz || 2 * (width / 2) == 100 * GHz
  {
    var radius := width / 2;
    ToOchSignalMinMax(center - radius, center + radius)
  }

  /** Spacings the conversion supports. */
  predicate ConvertibleSpacing(cs: ChannelSpacing) {
    cs == CHL_50GHZ || cs == CHL_100GHZ
  }

  /**
   * Centre and spacing of a 50 or 100 GHz channel (with a 32-bit multiplier)
   * convert back to the same channel, with the slot count `newDwdmSlot` gives.
   */
  lemma CenterWidthRoundTrip(s: OchSignal)
    requires ConvertibleSpacing(s.channelSpacing)
    requires -0x8000_0000 <= s.spacingMultiplier <= 0x7fff_ffff
    ensures ToOchSignalCenterWidth(CentralFrequency(s), SpacingHz(s.channelSpacing)) ==
            Some(NewDwdmSlot(s.channelSpacing, s.spacingMultiplier))
  {
    var sp := SpacingHz(s.channelSpacing);
    var m := s.spacingMultiplier;
    var c := CentralFrequency(s);
    assert sp / 2 + (c - sp / 2) - GridAnchorHz == m * sp;
    TruncDivExact(m, sp);
  }

  /** The media-channel window of a channel converts back to the channel. */
  lemma MinMaxRoundTrip(s: OchSignal)
    requires ConvertibleSpacing(s.channelSpacing)
    requires -0x8000_0000 <= s.spacingMultiplier <= 0x7fff_ffff
    ensures var radius := SpacingHz(s.channelSpacing) / 2;
      ToOchSignalMinMax(CentralFrequency(s) - radius, CentralFrequency(s) + radius) ==
      Some(NewDwdmSlot(s.channelSpacing, s.spacingMultiplier))
  {
    CenterWidthRoundTrip(s);
  }

  lemma TruncDivExact(m: int, b: int)
    requires b == 50 * GHz || b == 100 * GHz
    ensures TruncDiv(m * b, b) == m
  {
    if b == 50 * GHz {
      assert m * b == m * (50 * GHz);
    } else {
      assert m * b == m * (100 * GHz);
    }
  }

  /**
   * A window off the grid maps to the grid channel found by rounding the
   * window's middle toward the anchor: less than one spacing away from it.
   */
  lemma MinMaxRoundsTowardAnchor(minHz: int, maxHz: int)
    requires ToOchSignalMinMax(minHz, maxHz).Some?
    requires var sp := maxHz - minHz; var k := TruncDiv(sp / 2 + minHz - GridAnchorHz, sp);
      -0x8000_0000 <= k <= 0x7fff_ffff
    ensures var s := ToOchSignalMinMax(minHz, maxHz).value;
      var middle := minHz + (maxHz - minHz) / 2;
      var offset := CentralFrequency(s) - GridAnchorHz;
      (middle >= GridAnchorHz ==> offset <= middle - GridAnchorHz < offset + SpacingHz(s.channelSpacing)) &&
      (middle < GridAnchorHz ==> offset - SpacingHz(s.channelSpacing) < middle - GridAnchorHz <= offset)
  {
  }

  // ---------------------------------------------------------------------
  // Connection names and the edit-configs of a connection

  /**
   * The connection name the driver derives from a rule: the source NMC name,
   * "-to-", the destination NMC name; client sides carry no "NMC-CTP-" prefix.
   */
  function ConnectionName(t: LinkType, srcLcp: string, dstLcp: string, center: int): (name: string)
    ensures name == SrcNmcName(t, srcLcp, center) + "-to-" + DstNmcName(t, dstLcp, center)
  {
    var f := FormatTHz(center);
    match t
    case EXPRESS_LINK =>
      assert "NMC-CTP-" + srcLcp + "-" + f + "-to-NMC-CTP-" + dstLcp + "-" + f ==
             ("NMC-CTP-" + srcLcp + "-" + f) + "-to-" + ("NMC-CTP-" + dstLcp + "-" + f);
      "NMC-CTP-" + srcLcp + "-" + f + "-to-NMC-CTP-" + dstLcp + "-" + f
    case ADD_LINK =>
      assert srcLcp + "-" + f + "-to-NMC-CTP-" + dstLcp + "-" + f == (srcLcp + "-" + f) + "-to-" + ("NMC-CTP-" + dstLcp + "-" + f);
      srcLcp + "-" + f + "-to-NMC-CTP-" + dstLcp + "-" + f
    case DROP_LINK =>
      assert "NMC-CTP-" + srcLcp + "-" + f + "-to-" + dstLcp + "-" + f == ("NMC-CTP-" + srcLcp + "-" + f) + "-to-" + (dstLcp + "-" + f);
      "NMC-CTP-" + srcLcp + "-" + f + "-to-" + dstLcp + "-" + f
  }

  /** The ports of a rule as the device service knows them (a missing one is a null dereference in the driver). */
  predicate PortsKnown(xc: OpenRoadmFlowRule, ports: seq<Port>) {
    LookupPort(ports, xc.inPort).Some? && LookupPort(ports, xc.outPort).Some?
  }

  /**
   * The port the driver dereferences first without it being known, if any:
   * the source port's annotations are read before the destination's.
   */
  function UnknownPortOf(xc: OpenRoadmFlowRule, ports: seq<Port>): (p: Option<PortNumber>)
    ensures p.None? <==> PortsKnown(xc, ports)
    ensures p.Some? ==> LookupPort(ports, p.value).None? && (p.value == xc.inPort || p.value == xc.outPort)
    ensures p.Some? && p.value != xc.inPort ==> LookupPort(ports, xc.inPort).Some?
  {
    if LookupPort(ports, xc.inPort).None? then Some(xc.inPort)
    else if LookupPort(ports, xc.outPort).None? then Some(xc.outPort)
    else None
  }

  /** The name the driver gives the connection of a rule. */
  function NameFor(xc: OpenRoadmFlowRule, ports: seq<Port>): string
    requires PortsKnown(xc, ports)
  {
    ConnectionName(xc.linkType, LcpText(LookupPort(ports, xc.inPort).value),
                   LcpText(LookupPort(ports, xc.outPort).value), CentralFrequency(xc.ochSignal))
  }

  /** The connection object the driver builds for a rule. */
  function ConnectionFor(xc: OpenRoadmFlowRule, ports: seq<Port>): ConnectionData
    requires PortsKnown(xc, ports)
  {
    BuildConnection(NameFor(xc, ports), xc, LookupPort(ports, xc.inPort).value, LookupPort(ports, xc.outPort).value)
  }

  /** The NMC name of the source side: client (ADD) sides carry no prefix. */
  function SrcNmcName(t: LinkType, lcp: string, center: int): string {
    if t == ADD_LINK then ClientNmcName(lcp, center) else NmcName(lcp, center)
  }

  /** The NMC name of the destination side: client (DROP) sides carry no prefix. */
  function DstNmcName(t: LinkType, lcp: string, center: int): string {
    if t == DROP_LINK then ClientNmcName(lcp, center) else NmcName(lcp, center)
  }

  /** The NMC as written on creation: the supporting-interface element is left out on the client side. */
  function NmcPayload(nmc: NetworkMediaChannel, clientSide: bool): NetworkMediaChannel {
    if clientSide then nmc.(supportingInterface := None) else nmc
  }

  /**
   * The three edit-configs that create a connection, in the order they are
   * sent: the MCs of the degree sides, both NMCs, then the roadm-connection.
   */
  function CreatePlan(c: ConnectionData): (plan: seq<Edit>)
    requires WellFormed(c)
    ensures |plan| == 3
  {
    var mcs := match c.linkType
      case EXPRESS_LINK => [c.srcMc.value, c.dstMc.value]
      case ADD_LINK => [c.dstMc.value]
      case DROP_LINK => [c.srcMc.value];
    [CreateMediaChannels(mcs),
     CreateNetworkMediaChannels([NmcPayload(c.srcNmc, c.linkType == ADD_LINK),
                                 NmcPayload(c.dstNmc, c.linkType == DROP_LINK)]),
     CreateRoadmConnection(c.connectionName, c.srcConnInterface, c.dstConnInterface)]
  }

  /**
   * The three edit-configs that delete a connection of the given link type, in
   * the order they are sent: the roadm-connection, both NMCs, then the MCs of
   * the degree sides (an MC the connection lacks prints as "null").
   */
  function ReleasePlan(t: LinkType, c: ConnectionData): (plan: seq<Edit>)
    ensures |plan| == 3
  {
    var mcNames := match t
      case EXPRESS_LINK => [Text(McNameOrNull(c.srcMc)), Text(McNameOrNull(c.dstMc))]
      case ADD_LINK => [Text(McNameOrNull(c.dstMc))]
      case DROP_LINK => [Text(McNameOrNull(c.srcMc))];
    [DeleteRoadmConnection(c.connectionName),
     DeleteInterfaces([c.srcNmc.name, c.dstNmc.name]),
     DeleteInterfaces(mcNames)]
  }

  /** Names of the objects an edit creates. */
  function Creates(e: Edit): seq<string> {
    match e
    case CreateMediaChannels(mcs) => seq(|mcs|, i requires 0 <= i < |mcs| => mcs[i].name)
    case CreateNetworkMediaChannels(nmcs) => seq(|nmcs|, i requires 0 <= i < |nmcs| => nmcs[i].name)
    case CreateRoadmConnection(name, _, _) => [name]
    case _ => []
  }

  /** Names of the objects an edit deletes. */
  function Deletes(e: Edit): seq<string> {
    match e
    case DeleteRoadmConnection(name) => [name]
    case DeleteInterfaces(names) => names
    case _ => []
  }

  /** Teardown mirrors setup: step `i` of the release deletes what step `2 - i` of the creation created. */
  lemma ReleaseUndoesCreate(c: ConnectionData)
    requires WellFormed(c)
    ensures forall i :: 0 <= i < 3 ==> Deletes(ReleasePlan(c.linkType, c)[i]) == Creates(CreatePlan(c)[2 - i])
    ensures forall e :: e in CreatePlan(c) ==> !IsDelete(e)
    ensures forall e :: e in ReleasePlan(c.linkType, c) ==> IsDelete(e)
  {
    var create := CreatePlan(c);
    var release := ReleasePlan(c.linkType, c);
    assert Creates(create[1]) == [c.srcNmc.name, c.dstNmc.name];
    match c.linkType
    case EXPRESS_LINK =>
      assert Creates(create[0]) == [c.srcMc.value.name, c.dstMc.value.name];
    case ADD_LINK =>
      assert Creates(create[0]) == [c.dstMc.value.name];
    case DROP_LINK =>
      assert Creates(create[0]) == [c.srcMc.value.name];
  }

  // ---------------------------------------------------------------------
  // Deleting a connection known only by name

  /** Why a bare connection name cannot be taken apart (the driver throws). */
  datatype NameError =
    | NoSecondNmc       // no second piece around "-to-"
    | NmcNameTooShort   // a piece shorter than the 7 characters `substring(7)` needs

  /** The MC name recovered from an NMC name: "MC-TTP" followed by all but its first 7 characters. */
  function McFromNmc(nmc: string): string
    requires |nmc| >= 7
  {
    "MC-TTP" + nmc[7..]
  }

  /**
   * `editConfigDeleteConnection(String)`: split the name around "-to-" into
   * the two NMC names, derive the MC names, and delete the connection, both
   * NMCs and every MC whose NMC name does not contain "SRG" (one document,
   * sent even when it is empty).
   */
  function DeleteByNamePlan(name: string): (r: Result<seq<Edit>, NameError>)
    ensures r.Success? ==> |r.value| == 3 && r.value[0] == DeleteRoadmConnection(name)
    ensures r.Success? ==> forall e :: e in r.value ==> IsDelete(e)
  {
    var parts := JavaSplit(name, "-to-");
    if |parts| < 2 then Failure(NoSecondNmc)
    else
      var rx := parts[0];
      var tx := parts[1];
      if |rx| < 7 || |tx| < 7 then Failure(NmcNameTooShort)
      else
        var mcs := (if !Contains(rx, "SRG") then [McFromNmc(rx)] else []) +
                   (if !Contains(tx, "SRG") then [McFromNmc(tx)] else []);
        Success([DeleteRoadmConnection(name), DeleteInterfaces([rx, tx]), DeleteInterfaces(mcs)])
  }

  /** A name without "-to-" is refused before anything is sent. */
  lemma DeleteByNameNeedsSeparator(name: string)
    requires !Contains(name, "-to-")
    ensures DeleteByNamePlan(name) == Failure(NoSecondNmc)
  {
    SplitWithout(name, "-to-");
  }

  lemma NumericLacks(s: string, ch: char)
    requires NumericText(s) && !NumericChar(ch)
    ensures ch !in s
  {
    forall i | 0 <= i < |s| ensures s[i] != ch {
      assert NumericChar(s[i]);
    }
  }

  /** Whether a logical connection point fits how the driver tells sides apart. */
  predicate LcpFitsNaming(lcp: string, degree: bool) {
    't' !in lcp && (if degree then !Contains(lcp, "SRG") else Contains(lcp, "SRG"))
  }

  lemma DegreeNmcFacts(lcp: string, center: int)
    requires LcpFitsNaming(lcp, true)
    ensures var n := NmcName(lcp, center);
      't' !in n && |n| >= 7 && McFromNmc(n) == McName(lcp, center) && !Contains(n, "SRG")
  {
    DegreeNmcNamesMc(lcp, center);
    DegreeNmcLacksSrg(lcp, center);
  }

  lemma DegreeNmcNamesMc(lcp: string, center: int)
    requires 't' !in lcp
    ensures var n := NmcName(lcp, center);
      't' !in n && |n| >= 7 && McFromNmc(n) == McName(lcp, center)
  {
    var f := FormatTHz(center);
    NumericLacks(f, 't');
    var n := NmcName(lcp, center);
    assert n[7..] == "-" + lcp + "-" + f;
  }

  lemma DegreeNmcLacksSrg(lcp: string, center: int)
    requires !Contains(lcp, "SRG")
    ensures !Contains(NmcName(lcp, center), "SRG")
  {
    var f := FormatTHz(center);
    NumericLacks(f, 'G');
    assert NmcName(lcp, center) == "NMC-CTP-" + lcp + ("-" + f);
    ContainsOnlyInMiddle("NMC-CTP-", lcp, "-" + f, "SRG");
  }

  lemma ClientNmcFacts(lcp: string, center: int)
    requires LcpFitsNaming(lcp, false)
    ensures var n := ClientNmcName(lcp, center);
      't' !in n && |n| >= 7 && Contains(n, "SRG")
  {
    var f := FormatTHz(center);
    NumericLacks(f, 't');
    var n := ClientNmcName(lcp, center);
    assert n == "" + lcp + ("-" + f);
    ContainsMiddle("", lcp, "-" + f, "SRG");
  }

  /** The MC delete list of one side, as `editConfigDeleteConnection(String)` builds it. */
  function SideMcs(nmc: string): seq<string>
    requires |nmc| >= 7
  {
    if !Contains(nmc, "SRG") then [McFromNmc(nmc)] else []
  }

  /** A name made of two 't'-free NMC names joined by "-to-" splits back into them. */
  lemma DeleteByNameOfPair(a: string, b: string)
    requires 't' !in a && 't' !in b && |a| >= 7 && |b| >= 7
    ensures DeleteByNamePlan(a + "-to-" + b) ==
      Success([DeleteRoadmConnection(a + "-to-" + b), DeleteInterfaces([a, b]), DeleteInterfaces(SideMcs(a) + SideMcs(b))])
  {
    SplitTwo(a, "-to-", b, 't', 1);
  }

  /** The MC names of a connection's degree sides, source first. */
  function DegreeMcNames(t: LinkType, s: string, d: string, center: int): seq<string> {
    (if t != ADD_LINK then [McName(s, center)] else []) + (if t != DROP_LINK then [McName(d, center)] else [])
  }

  /** What the release of a built connection deletes, in terms of the ports' connection points. */
  lemma ReleaseOfBuilt(name: string, xc: OpenRoadmFlowRule, srcPort: Port, dstPort: Port)
    ensures var center := CentralFrequency(xc.ochSignal);
      var s, d := LcpText(srcPort), LcpText(dstPort);
      ReleasePlan(xc.linkType, BuildConnection(name, xc, srcPort, dstPort)) ==
        [DeleteRoadmConnection(name),
         DeleteInterfaces([SrcNmcName(xc.linkType, s, center), DstNmcName(xc.linkType, d, center)]),
         DeleteInterfaces(DegreeMcNames(xc.linkType, s, d, center))]
  {
    var center := CentralFrequency(xc.ochSignal);
    var s, d := LcpText(srcPort), LcpText(dstPort);
    var c := BuildConnection(name, xc, srcPort, dstPort);
    var t := xc.linkType;
    assert c.srcNmc.name == SrcNmcName(t, s, center);
    assert c.dstNmc.name == DstNmcName(t, d, center);
    var mcs := match t
      case EXPRESS_LINK => [Text(McNameOrNull(c.srcMc)), Text(McNameOrNull(c.dstMc))]
      case ADD_LINK => [Text(McNameOrNull(c.dstMc))]
      case DROP_LINK => [Text(McNameOrNull(c.srcMc))];
    assert ReleasePlan(t, c)[2] == DeleteInterfaces(mcs);
    match t
    case EXPRESS_LINK =>
      assert mcs == [McName(s, center), McName(d, center)];
      assert DegreeMcNames(t, s, d, center) == [McName(s, center)] + [McName(d, center)] == mcs;
    case ADD_LINK =>
      assert mcs == [McName(d, center)];
      assert DegreeMcNames(t, s, d, center) == [] + [McName(d, center)] == [McName(d, center)];
    case DROP_LINK =>
      assert mcs == [McName(s, center)];
      assert DegreeMcNames(t, s, d, center) == [McName(s, center)] + [] == [McName(s, center)];
  }

  /** Taking the NMC names apart finds the MCs of exactly the degree sides. */
  lemma SideMcsAreDegreeMcs(t: LinkType, s: string, d: string, center: int)
    requires LcpFitsNaming(s, t != ADD_LINK) && LcpFitsNaming(d, t != DROP_LINK)
    ensures var a, b := SrcNmcName(t, s, center), DstNmcName(t, d, center);
      't' !in a && 't' !in b && |a| >= 7 && |b| >= 7 &&
      SideMcs(a) + SideMcs(b) == DegreeMcNames(t, s, d, center)
  {
    if t == ADD_LINK { ClientNmcFacts(s, center); } else { DegreeNmcFacts(s, center); }
    if t == DROP_LINK { ClientNmcFacts(d, center); } else { DegreeNmcFacts(d, center); }
  }

  /**
   * Deleting by name does what deleting by rule does: for a connection whose
   * degree ports' logical connection points lack "SRG" and whose client ports'
   * contain it (and none contains a 't'), splitting its name recovers both NMC
   * names and exactly the MCs the connection has.
   */
  lemma DeleteByNameMatchesRelease(xc: OpenRoadmFlowRule, srcPort: Port, dstPort: Port)
    requires LcpFitsNaming(LcpText(srcPort), xc.linkType != ADD_LINK)
    requires LcpFitsNaming(LcpText(dstPort), xc.linkType != DROP_LINK)
    ensures var name := ConnectionName(xc.linkType, LcpText(srcPort), LcpText(dstPort), CentralFrequency(xc.ochSignal));
      DeleteByNamePlan(name) == Success(ReleasePlan(xc.linkType, BuildConnection(name, xc, srcPort, dstPort)))
  {
    var center := CentralFrequency(xc.ochSignal);
    var s, d := LcpText(srcPort), LcpText(dstPort);
    var name := ConnectionName(xc.linkType, s, d, center);
    SideMcsAreDegreeMcs(xc.linkType, s, d, center);
    DeleteByNameOfPair(SrcNmcName(xc.linkType, s, center), DstNmcName(xc.linkType, d, center));
    ReleaseOfBuilt(name, xc, srcPort, dstPort);
  }

  // ---------------------------------------------------------------------
  // Reading connections back as flow rules

  /** Why reading the device's connections back fails (the driver throws). */
  datatype ReadError =
    | UnsupportedWidth(name: string)   // the cached channel is neither 50 nor 100 GHz wide
    | MalformedName(name: string)      // an unknown connection whose name cannot be taken apart

  /**
   * `buildFlowrule` for a cached connection: a permanent rule on the device
   * matching the input port, fixed grid and the channel recovered from the
   * source NMC's frequency and width, sending it to the output port, with the
   * connection's priority and flow id.
   */
  function BuildFlowrule(did: DeviceId, c: ConnectionData): Result<FlowRule, ReadError> {
    match ToOchSignalCenterWidth(c.srcNmc.frequency, c.srcNmc.width)
    case None => Failure(UnsupportedWidth(c.connectionName))
    case Some(sig) =>
      Success(FlowRule(did, c.flowId, c.priority, true,
                       [InPort(c.inPort), OchSigType(FIXED_GRID), OchSigId(sig)],
                       [ModLambda(sig), Output(c.outPort)]))
  }

  /**
   * The rule rebuilt from a cached connection exists exactly when its source
   * NMC's frequency window converts, and is a permanent rule on the device
   * matching the input port, fixed grid and the converted channel, sending it
   * to the output port, with the connection's priority and flow id.
   */
  lemma BuiltRule(did: DeviceId, c: ConnectionData)
    ensures BuildFlowrule(did, c).Success? <==> ToOchSignalCenterWidth(c.srcNmc.frequency, c.srcNmc.width).Some?
    ensures BuildFlowrule(did, c).Success? ==>
      var r := BuildFlowrule(did, c).value;
      var sig := ToOchSignalCenterWidth(c.srcNmc.frequency, c.srcNmc.width).value;
      r.deviceId == did && r.permanent && r.id == c.flowId && r.priority == c.priority &&
      GetCriterion(r.selector, IN_PORT) == Some(InPort(c.inPort)) &&
      GetCriterion(r.selector, OCH_SIGTYPE) == Some(OchSigType(FIXED_GRID)) &&
      GetCriterion(r.selector, OCH_SIGID) == Some(OchSigId(sig)) &&
      FirstOutput(r.treatment) == Some(c.outPort) &&
      ModLambda(sig) in r.treatment
  {
    if BuildFlowrule(did, c).Success? {
      var r := BuildFlowrule(did, c).value;
      assert GetCriterion(r.selector, OCH_SIGID) == GetCriterion(r.selector[1..], OCH_SIGID)
          == GetCriterion(r.selector[1..][1..], OCH_SIGID);
      assert r.treatment[1..] == [r.treatment[1]];
    }
  }

  /**
   * Reading back a connection the driver created from a 50 or 100 GHz
   * fixed-grid DWDM rule gives a rule that the constructor turns into the same
   * cross-connect, with the same flow id and priority.
   */
  lemma ReadBackReproducesRule(did: DeviceId, xc: OpenRoadmFlowRule, ports: seq<Port>, linePorts: seq<PortNumber>)
    requires PortsKnown(xc, ports)
    requires xc.ochSignal == NewDwdmSlot(xc.ochSignal.channelSpacing, xc.ochSignal.spacingMultiplier)
    requires ConvertibleSpacing(xc.ochSignal.channelSpacing)
    requires -0x8000_0000 <= xc.ochSignal.spacingMultiplier <= 0x7fff_ffff
    requires xc.ochSignalType == FIXED_GRID
    requires Classify(xc.inPort in linePorts, xc.outPort in linePorts) == Some(xc.linkType)
    ensures var c := ConnectionFor(xc, ports);
      BuildFlowrule(did, c).Success? &&
      var back := FromFlowRule(BuildFlowrule(did, c).value, linePorts);
      back.Success? && SameCrossConnect(back.value, xc) &&
      back.value.rule.id == xc.rule.id && back.value.rule.priority == xc.rule.priority
  {
    var c := ConnectionFor(xc, ports);
    CenterWidthRoundTrip(xc.ochSignal);
    assert ToOchSignalCenterWidth(c.srcNmc.frequency, c.srcNmc.width) == Some(xc.ochSignal);
    BuiltRule(did, c);
  }

  // ---------------------------------------------------------------------
  // The driver's operations on the device

  /**
   * The `NullPointerException`s of adding and deleting a connection: a port
   * the device service does not know (`getPort` gives `null`), and an express
   * link whose connection is not cached.
   */
  datatype EditError = UnknownPort(port: PortNumber) | UncachedExpress(name: string)

  /**
   * `editConfigAddConnection` with the per-type creation that follows it:
   * refused when more than 100 connections are cached; otherwise a rule
   * port the device does not know throws before anything is sent, and else
   * the MC, NMC and connection edit-configs are sent in that order, stopping
   * at the first refusal, and the new connection is cached only when all
   * three were accepted.
   */
  method EditConfigAddConnection(cache: OpenRoadmConnectionCache, device: NetconfDevice,
                                 xc: OpenRoadmFlowRule, ports: seq<Port>)
    returns (r: Result<bool, EditError>, ghost created: OpenRoadmConnection?)
    modifies cache, device
    ensures old(cache.Size()) > MaxCachedConnections ==>
      r == Success(false) && device.log == old(device.log) && device.replies == old(device.replies)
    ensures old(cache.Size()) <= MaxCachedConnections && !PortsKnown(xc, ports) ==>
      r == Failure(UnknownPort(UnknownPortOf(xc, ports).value))
    ensures r.Failure? ==> device.log == old(device.log) && device.replies == old(device.replies)
    ensures old(cache.Size()) <= MaxCachedConnections && PortsKnown(xc, ports) ==>
      var k := Issued(3, old(device.replies));
      device.log == old(device.log) + CreatePlan(ConnectionFor(xc, ports))[..k] &&
      device.replies == Consume(old(device.replies), k) &&
      r == Success(AllAccepted(3, old(device.replies)))
    ensures r == Success(true) ==>
      PortsKnown(xc, ports) && created != null && fresh(created) &&
      created.data == ConnectionFor(xc, ports) && cache.connections == old(cache.connections) + {created}
    ensures r != Success(true) ==> cache.connections == old(cache.connections)
  {
    created := null;
    if cache.Size() > MaxCachedConnections {
      return Success(false), null;
    }
    var missing := UnknownPortOf(xc, ports);
    if missing.Some? {
      return Failure(UnknownPort(missing.value)), null;
    }
    var srcPort := LookupPort(ports, xc.inPort).value;
    var dstPort := LookupPort(ports, xc.outPort).value;
    var name := ConnectionName(xc.linkType, LcpText(srcPort), LcpText(dstPort), CentralFrequency(xc.ochSignal));
    var connection := new OpenRoadmConnection(name, xc, srcPort, dstPort);
    var ok := SendInOrder(device, CreatePlan(connection.data));
    if ok {
      cache.Add(connection);
      created := connection;
    }
    r := Success(ok);
  }


  /**
   * The deletes of one cached connection, in order, stopping at the first
   * refusal; ADD and DROP connections leave the cache once the connection
   * delete is accepted, EXPRESS ones once all three are.
   */
  method Release(cache: OpenRoadmConnectionCache, device: NetconfDevice, conn: OpenRoadmConnection, t: LinkType)
    returns (ok: bool)
    modifies cache, device
    ensures var k := Issued(3, old(device.replies));
      device.log == old(device.log) + ReleasePlan(t, conn.data)[..k] &&
      device.replies == Consume(old(device.replies), k) &&
      ok == AllAccepted(3, old(device.replies))
    ensures var dropped := if t == EXPRESS_LINK then ok else Answer(old(device.replies));
      cache.connections ==
        if dropped then set x | x in old(cache.connections) && x.data.connectionName != conn.data.connectionName
        else old(cache.connections)
  {
    var plan := ReleasePlan(t, conn.data);
    ghost var r0 := device.replies;
    ok := device.EditConfig(plan[0]);
    if !ok {
      assert plan[..1] == [plan[0]];
      return;
    }
    if t != EXPRESS_LINK {
      cache.Remove(conn);
    }
    ghost var r1 := device.replies;
    ok := device.EditConfig(plan[1]);
    if !ok {
      assert Issued(3, r0) == 1 + Issued(2, r1) == 2;
      assert plan[..2] == [plan[0], plan[1]];
      return;
    }
    ghost var r2 := device.replies;
    ok := device.EditConfig(plan[2]);
    assert Issued(3, r0) == 1 + Issued(2, r1) == 2 + Issued(1, r2) == 3;
    assert plan[..3] == [plan[0], plan[1], plan[2]];
    if ok {
      assert AllAccepted(3, r0) by {
        assert r0[0] && r0[1] == r1[0] && r0[2] == r2[0];
      }
      if t == EXPRESS_LINK {
        cache.Remove(conn);
      }
    } else {
      assert !AllAccepted(3, r0) by {
        assert |r0| < 3 || !r0[2];
      }
    }
  }

  /**
   * `editConfigDeleteConnection(xc)`: a rule port the device does not know
   * throws before anything is sent; otherwise the connection is looked up by
   * the rule's name and the connection, NMC and MC deletes are sent in that
   * order, stopping at the first refusal.  An ADD or DROP connection missing
   * from the cache is refused without sending anything; a missing EXPRESS
   * one throws, also before anything is sent.  ADD and DROP drop the cache
   * entry as soon as the connection delete is accepted, EXPRESS only after
   * all three deletes.
   */
  method EditConfigDeleteConnection(cache: OpenRoadmConnectionCache, device: NetconfDevice,
                                    xc: OpenRoadmFlowRule, ports: seq<Port>)
    returns (r: Result<bool, EditError>, ghost retrieved: OpenRoadmConnection?)
    modifies cache, device
    ensures !PortsKnown(xc, ports) ==> r == Failure(UnknownPort(UnknownPortOf(xc, ports).value)) && retrieved == null
    ensures PortsKnown(xc, ports) ==>
      (retrieved == null <==> !old(cache.HasName(NameFor(xc, ports))))
    ensures PortsKnown(xc, ports) && retrieved == null ==>
      r == if xc.linkType == EXPRESS_LINK then Failure(UncachedExpress(NameFor(xc, ports))) else Success(false)
    ensures retrieved == null ==>
      device.log == old(device.log) && device.replies == old(device.replies) &&
      cache.connections == old(cache.connections)
    ensures retrieved != null ==>
      PortsKnown(xc, ports) && retrieved in old(cache.connections) &&
      retrieved.data.connectionName == NameFor(xc, ports)
    ensures retrieved != null ==>
      var k := Issued(3, old(device.replies));
      device.log == old(device.log) + ReleasePlan(xc.linkType, retrieved.data)[..k] &&
      device.replies == Consume(old(device.replies), k) &&
      r == Success(AllAccepted(3, old(device.replies)))
    ensures retrieved != null ==>
      var dropped := if xc.linkType == EXPRESS_LINK then r == Success(true) else Answer(old(device.replies));
      cache.connections ==
        if dropped then set x | x in old(cache.connections) && x.data.connectionName != NameFor(xc, ports)
        else old(cache.connections)
  {
    var missing := UnknownPortOf(xc, ports);
    if missing.Some? {
      return Failure(UnknownPort(missing.value)), null;
    }
    var srcPort := LookupPort(ports, xc.inPort).value;
    var dstPort := LookupPort(ports, xc.outPort).value;
    var name := ConnectionName(xc.linkType, LcpText(srcPort), LcpText(dstPort), CentralFrequency(xc.ochSignal));
    var conn := cache.Get(name);
    retrieved := conn;
    if conn == null {
      if xc.linkType == EXPRESS_LINK {
        return Failure(UncachedExpress(name)), null;
      }
      return Success(false), null;
    }
    var ok := Release(cache, device, conn, xc.linkType);
    r := Success(ok);
  }


  /**
   * `editConfigDeleteConnection(String)`: deletes a connection found on the
   * device by its name alone; a name that cannot be taken apart is an error
   * and nothing is sent.
   */
  method EditConfigDeleteConnectionByName(device: NetconfDevice, name: string)
    returns (r: Result<bool, NameError>)
    modifies device
    ensures DeleteByNamePlan(name).Failure? ==>
      r == Failure(DeleteByNamePlan(name).error) &&
      device.log == old(device.log) && device.replies == old(device.replies)
    ensures DeleteByNamePlan(name).Success? ==>
      var k := Issued(3, old(device.replies));
      device.log == old(device.log) + DeleteByNamePlan(name).value[..k] &&
      device.replies == Consume(old(device.replies), k) &&
      r == Success(AllAccepted(3, old(device.replies)))
  {
    var plan := DeleteByNamePlan(name);
    if plan.Failure? {
      return Failure(plan.error);
    }
    var ok := SendInOrder(device, plan.value);
    r := Success(ok);
  }

  /** The names among the first `n` fetched connections that the cache knows, in order. */
  function Known(fetched: seq<Option<string>>, n: nat, names: set<string>): seq<string>
    requires n <= |fetched|
  {
    if n == 0 then []
    else Known(fetched, n - 1, names) + (if fetched[n - 1].Some? && fetched[n - 1].value in names then [fetched[n - 1].value] else [])
  }

  ghost function CachedNames(conns: set<OpenRoadmConnection>): set<string> {
    set c | c in conns :: c.data.connectionName
  }


  /** `rule` is what `buildFlowrule` makes of the cached connection called `name`. */
  predicate Rebuilt(did: DeviceId, conns: set<OpenRoadmConnection>, name: string, rule: FlowRule) {
    exists c :: c in conns && c.data.connectionName == name && BuildFlowrule(did, c.data) == Success(rule)
  }

  /** The rules rebuilt, one per name, in order. */
  predicate RebuiltAll(did: DeviceId, conns: set<OpenRoadmConnection>, names: seq<string>, rules: seq<FlowRule>) {
    |names| == |rules| && forall k :: 0 <= k < |names| ==> Rebuilt(did, conns, names[k], rules[k])
  }

  lemma {:induction false} RebuiltAllSnoc(did: DeviceId, conns: set<OpenRoadmConnection>, names: seq<string>, rules: seq<FlowRule>,
                       name: string, rule: FlowRule)
    requires RebuiltAll(did, conns, names, rules) && Rebuilt(did, conns, name, rule)
    ensures RebuiltAll(did, conns, names + [name], rules + [rule])
  {
    forall k | 0 <= k < |names| + 1
      ensures Rebuilt(did, conns, (names + [name])[k], (rules + [rule])[k])
    {
      if k < |names| {
        assert (names + [name])[k] == names[k];
        assert (rules + [rule])[k] == rules[k];
      }
    }
  }

  /** A cached connection called `name` rebuilds into a flow rule. */
  predicate SomeBuilds(did: DeviceId, conns: set<OpenRoadmConnection>, name: string) {
    exists c :: c in conns && c.data.connectionName == name && BuildFlowrule(did, c.data).Success?
  }

  /** Every cached connection called `name` rebuilds into a flow rule. */
  predicate AllBuild(did: DeviceId, conns: set<OpenRoadmConnection>, name: string) {
    forall c :: c in conns && c.data.connectionName == name ==> BuildFlowrule(did, c.data).Success?
  }

  /**
   * Reading this connection can go through: it has no name, or it is cached
   * under a name some cached connection rebuilds from, or it is unknown and
   * its name splits into two NMC names.
   */
  predicate MayPass(did: DeviceId, conns: set<OpenRoadmConnection>, names: set<string>, name: Option<string>) {
    name.None? ||
    (name.value in names && SomeBuilds(did, conns, name.value)) ||
    (name.value !in names && DeleteByNamePlan(name.value).Success?)
  }

  /** Reading this connection goes through whichever cached connection of its name is picked. */
  predicate SurePass(did: DeviceId, conns: set<OpenRoadmConnection>, names: set<string>, name: Option<string>) {
    name.None? ||
    (name.value in names && AllBuild(did, conns, name.value)) ||
    (name.value !in names && DeleteByNamePlan(name.value).Success?)
  }

  /** What `buildFlowrule` returns for a cached connection: its rule, or the frequency conversion's failure. */
  function RuleOutcome(did: DeviceId, c: ConnectionData): Result<Option<FlowRule>, ReadError> {
    match BuildFlowrule(did, c)
    case Failure(e) => Failure(e)
    case Success(rule) => Success(Some(rule))
  }

  /**
   * What reading one connection would delete were every edit accepted: nothing
   * for a nameless or a cached one, nothing for an unknown one whose name
   * cannot be split, and otherwise its delete-by-name plan.
   */
  function ReadPlan(name: Option<string>, names: set<string>): (plan: seq<Edit>)
    ensures plan != [] ==> name.Some? && name.value !in names && DeleteByNamePlan(name.value) == Success(plan)
    ensures name.Some? && name.value !in names && DeleteByNamePlan(name.value).Success? ==>
      plan != [] && plan[0] == DeleteRoadmConnection(name.value)
    ensures forall e :: e in plan ==> IsDelete(e)
  {
    if name.None? || name.value in names then []
    else
      match DeleteByNamePlan(name.value)
      case Failure(_) => []
      case Success(plan) => plan
  }

  /** The plans of the fetched connections, in order. */
  function ReadPlans(fetched: seq<Option<string>>, names: set<string>): (plans: seq<seq<Edit>>)
    ensures |plans| == |fetched|
  {
    seq(|fetched|, k requires 0 <= k < |fetched| => ReadPlan(fetched[k], names))
  }


  /** Sending `plan` edit by edit until the device refuses one (or the plan ends). */
  function Send(s: ReadState, plan: seq<Edit>): ReadState
    decreases |plan|
  {
    if plan == [] then s
    else
      var next := ReadState(s.log + [plan[0]], Consume(s.replies, 1));
      if Answer(s.replies) then Send(next, plan[1..]) else next
  }

  /** Sending a plan issues its edits up to and including the first refused one, each using up one answer. */
  lemma {:induction false} SendIssues(s: ReadState, plan: seq<Edit>)
    ensures var k := Issued(|plan|, s.replies);
      Send(s, plan) == ReadState(s.log + plan[..k], Consume(s.replies, k))
    decreases |plan|
  {
    if plan != [] {
      var next := ReadState(s.log + [plan[0]], Consume(s.replies, 1));
      if Answer(s.replies) {
        SendIssues(next, plan[1..]);
        var k := Issued(|plan| - 1, next.replies);
        ConsumeTwice(s.replies, 1, k);
        assert next.log + plan[1..][..k] == s.log + plan[..k + 1];
      } else {
        assert plan[..1] == [plan[0]];
      }
    }
  }

  /** The session after sending the first `n` plans from `start`, in order. */
  function ReadRun(plans: seq<seq<Edit>>, n: nat, start: ReadState): ReadState
    requires n <= |plans|
  {
    if n == 0 then start else Send(ReadRun(plans, n - 1, start), plans[n - 1])
  }

  /** Answers consumed in two steps are consumed at once. */
  lemma {:induction false} ConsumeTwice(replies: seq<bool>, a: nat, b: nat)
    ensures Consume(Consume(replies, a), b) == Consume(replies, a + b)
  {
    if a > 0 && replies != [] {
      ConsumeTwice(replies[1..], a - 1, b);
    }
  }

  /** Sending only appends to the log, and every edit appended uses up one answer of the device. */
  lemma {:induction false} ReadRunConsumes(plans: seq<seq<Edit>>, n: nat, start: ReadState)
    requires n <= |plans|
    ensures var run := ReadRun(plans, n, start);
      start.log <= run.log && run.replies == Consume(start.replies, |run.log| - |start.log|)
  {
    if n > 0 {
      ReadRunConsumes(plans, n - 1, start);
      var s := ReadRun(plans, n - 1, start);
      SendIssues(s, plans[n - 1]);
      ConsumeTwice(start.replies, |s.log| - |start.log|, |Send(s, plans[n - 1]).log| - |s.log|);
    }
  }

  /** Plans made only of deletes only ever append deletes. */
  lemma {:induction false} ReadSendsOnlyDeletes(plans: seq<seq<Edit>>, n: nat, start: ReadState)
    requires n <= |plans|
    requires forall k, e :: 0 <= k < n && e in plans[k] ==> IsDelete(e)
    ensures forall e :: e in ReadRun(plans, n, start).log ==> e in start.log || IsDelete(e)
  {
    if n > 0 {
      ReadSendsOnlyDeletes(plans, n - 1, start);
      var s := ReadRun(plans, n - 1, start);
      SendIssues(s, plans[n - 1]);
      var sent := plans[n - 1][..Issued(|plans[n - 1]|, s.replies)];
      assert forall e :: e in sent ==> e in plans[n - 1];
    }
  }

  /** Empty plans (cached or nameless connections) leave the session as it was. */
  lemma {:induction false} CachedReadsSendNothing(plans: seq<seq<Edit>>, n: nat, start: ReadState)
    requires n <= |plans|
    requires forall k :: 0 <= k < n ==> plans[k] == []
    ensures ReadRun(plans, n, start) == start
  {
    if n > 0 {
      CachedReadsSendNothing(plans, n - 1, start);
    }
  }

  /** An edit sent with the first `m` plans is still in the log after more plans are sent. */
  lemma {:induction false} ReadRunKeeps(plans: seq<seq<Edit>>, m: nat, n: nat, start: ReadState, e: Edit)
    requires m <= n <= |plans| && e in ReadRun(plans, m, start).log
    ensures e in ReadRun(plans, n, start).log
  {
    if m < n {
      ReadRunKeeps(plans, m, n - 1, start, e);
      SendIssues(ReadRun(plans, n - 1, start), plans[n - 1]);
    }
  }

  /** The first edit of every non-empty plan reaches the device, whatever it answers. */
  lemma PlanHeadsSent(plans: seq<seq<Edit>>, n: nat, start: ReadState, j: nat)
    requires j < n <= |plans| && plans[j] != []
    ensures plans[j][0] in ReadRun(plans, n, start).log
  {
    var s := ReadRun(plans, j, start);
    SendIssues(s, plans[j]);
    var sent := plans[j][..Issued(|plans[j]|, s.replies)];
    assert sent[0] == plans[j][0];
    ReadRunKeeps(plans, j + 1, n, start, plans[j][0]);
  }

  /**
   * What reading one connection yields (`buildFlowrule`): nothing for a
   * nameless one, the rule of a cached connection of that name, nothing for
   * an unknown one whose name splits, and a failure for an unknown one whose
   * name does not.
   */
  predicate ReadOutcome(did: DeviceId, conns: set<OpenRoadmConnection>, names: set<string>,
                        name: Option<string>, r: Result<Option<FlowRule>, ReadError>) {
    if name.None? then r == Success(None)
    else if name.value !in names then
      r == if DeleteByNamePlan(name.value).Success? then Success(None) else Failure(MalformedName(name.value))
    else
      exists c :: c in conns && c.data.connectionName == name.value && r == RuleOutcome(did, c.data)
  }

  /** A read that fails names a connection that need not go through, and sends nothing. */
  lemma ReadOutcomeFails(did: DeviceId, conns: set<OpenRoadmConnection>, names: set<string>,
                         name: Option<string>, r: Result<Option<FlowRule>, ReadError>)
    requires ReadOutcome(did, conns, names, name, r) && r.Failure?
    ensures name.Some? && !SurePass(did, conns, names, name)
    ensures name.value !in names ==> r.error == MalformedName(name.value)
    ensures ReadPlan(name, names) == []
  {
    if name.Some? && name.value in names {
      var c :| c in conns && c.data.connectionName == name.value && r == RuleOutcome(did, c.data);
      assert BuildFlowrule(did, c.data).Failure?;
    }
  }

  /** A rule only for a cached name, rebuilt from a cached connection of that name; nothing for any other. */
  predicate Yielded(did: DeviceId, conns: set<OpenRoadmConnection>, names: set<string>,
                    name: Option<string>, one: Option<FlowRule>) {
    (one.Some? ==> name.Some? && name.value in names && Rebuilt(did, conns, name.value, one.value)) &&
    (one.None? ==> name.None? || name.value !in names)
  }

  /** A read that goes through names a connection that may, and yields a rule only for a cached one. */
  lemma ReadOutcomePasses(did: DeviceId, conns: set<OpenRoadmConnection>, names: set<string>,
                          name: Option<string>, r: Result<Option<FlowRule>, ReadError>)
    requires ReadOutcome(did, conns, names, name, r) && r.Success?
    ensures MayPass(did, conns, names, name) && Yielded(did, conns, names, name, r.value)
  {
    if name.Some? && name.value in names {
      var c :| c in conns && c.data.connectionName == name.value && r == RuleOutcome(did, c.data);
      assert BuildFlowrule(did, c.data).Success?;
    }
  }

  /**
   * One connection read from the device: a cached one becomes the rule of a
   * cached connection of that name and sends nothing, an unknown one is
   * deleted from the device by name (an unsplittable name throws before
   * anything is sent), a nameless one is skipped.
   */
  method ReadConnection(did: DeviceId, cache: OpenRoadmConnectionCache, device: NetconfDevice,
                        name: Option<string>)
    returns (r: Result<Option<FlowRule>, ReadError>)
    modifies device
    ensures device.State() ==
      Send(old(device.State()), ReadPlan(name, CachedNames(cache.connections)))
    ensures ReadOutcome(did, cache.connections, CachedNames(cache.connections), name, r)
  {
    if name.None? {
      return Success(None);
    }
    var conn := cache.Get(name.value);
    if conn == null {
      assert name.value !in CachedNames(cache.connections);
      SendIssues(device.State(), ReadPlan(name, CachedNames(cache.connections)));
      var deleted := EditConfigDeleteConnectionByName(device, name.value);
      if deleted.Failure? {
        return Failure(MalformedName(name.value));
      }
      return Success(None);
    }
    assert name.value in CachedNames(cache.connections);
    var rule := BuildFlowrule(did, conn.data);
    if rule.Failure? {
      return Failure(rule.error);
    }
    return Success(Some(rule.value));
  }

  /**
   * `outs[..n]` are what reading the first `n` fetched connections yielded,
   * in order, each read having gone through.
   */
  predicate ReadsAs(did: DeviceId, conns: set<OpenRoadmConnection>, names: set<string>,
                    fetched: seq<Option<string>>, outs: seq<Option<FlowRule>>, n: nat)
    requires n <= |outs| && n <= |fetched|
  {
    n == 0 ||
    (ReadsAs(did, conns, names, fetched, outs, n - 1) &&
     ReadOutcome(did, conns, names, fetched[n - 1], Success(outs[n - 1])))
  }

  /** The rule a successful read adds to the entries, if any. */
  function RuleOf(one: Option<FlowRule>): seq<FlowRule> {
    if one.Some? then [one.value] else []
  }

  /** The entries the first `n` reads collect: the rules they yielded, in order. */
  function Rules(outs: seq<Option<FlowRule>>, n: nat): (rules: seq<FlowRule>)
    requires n <= |outs|
    ensures |rules| <= n
  {
    if n == 0 then [] else Rules(outs, n - 1) + RuleOf(outs[n - 1])
  }

  /** A later read does not change what the earlier reads yielded. */
  lemma {:induction false} ReadsAsSnoc(did: DeviceId, conns: set<OpenRoadmConnection>, names: set<string>,
                                       fetched: seq<Option<string>>, outs: seq<Option<FlowRule>>, one: Option<FlowRule>, n: nat)
    requires n <= |outs| < |fetched|
    ensures ReadsAs(did, conns, names, fetched, outs + [one], n) == ReadsAs(did, conns, names, fetched, outs, n)
  {
    if n > 0 {
      ReadsAsSnoc(did, conns, names, fetched, outs, one, n - 1);
      assert (outs + [one])[n - 1] == outs[n - 1];
    }
  }

  /** A later read does not change what the earlier ones collected. */
  lemma {:induction false} RulesSnoc(outs: seq<Option<FlowRule>>, one: Option<FlowRule>, n: nat)
    requires n <= |outs|
    ensures Rules(outs + [one], n) == Rules(outs, n)
  {
    if n > 0 {
      RulesSnoc(outs, one, n - 1);
      assert (outs + [one])[n - 1] == outs[n - 1];
    }
  }

  /** Every connection read without failing is one that may go through, and yielded what it should. */
  lemma {:induction false} ReadsAsPass(did: DeviceId, conns: set<OpenRoadmConnection>, names: set<string>,
                                       fetched: seq<Option<string>>, outs: seq<Option<FlowRule>>, n: nat)
    requires n <= |outs| && n <= |fetched| && ReadsAs(did, conns, names, fetched, outs, n)
    ensures forall j :: 0 <= j < n ==>
      MayPass(did, conns, names, fetched[j]) && Yielded(did, conns, names, fetched[j], outs[j])
  {
    if n > 0 {
      ReadsAsPass(did, conns, names, fetched, outs, n - 1);
      ReadOutcomePasses(did, conns, names, fetched[n - 1], Success(outs[n - 1]));
    }
  }

  /**
   * The entries collected from reads that yielded what they should are the
   * cached connections' rules, one per cached name, in the order read.
   */
  lemma {:induction false} YieldedRebuilt(did: DeviceId, conns: set<OpenRoadmConnection>, names: set<string>,
                                          fetched: seq<Option<string>>, outs: seq<Option<FlowRule>>, n: nat)
    requires n <= |outs| && n <= |fetched|
    requires forall k :: 0 <= k < n ==> Yielded(did, conns, names, fetched[k], outs[k])
    ensures RebuiltAll(did, conns, Known(fetched, n, names), Rules(outs, n))
  {
    if n > 0 {
      YieldedRebuilt(did, conns, names, fetched, outs, n - 1);
      assert Yielded(did, conns, names, fetched[n - 1], outs[n - 1]);
      if outs[n - 1].Some? {
        RebuiltAllSnoc(did, conns, Known(fetched, n - 1, names), Rules(outs, n - 1), fetched[n - 1].value, outs[n - 1].value);
      }
    }
  }

  /**
   * One turn of `getFlowEntries`' loop: reads the next fetched connection and,
   * when it goes through, extends the account of the session, the reads and the
   * entries by it; when it fails, the session is as before.
   */
  method ReadNext(did: DeviceId, cache: OpenRoadmConnectionCache, device: NetconfDevice,
                  fetched: seq<Option<string>>, i: nat, ghost start: ReadState, ghost outs: seq<Option<FlowRule>>,
                  entries: seq<FlowRule>)
    returns (one: Result<Option<FlowRule>, ReadError>, next: seq<FlowRule>)
    requires i == |outs| < |fetched|
    requires device.State() == ReadRun(ReadPlans(fetched, CachedNames(cache.connections)), |outs|, start)
    requires ReadsAs(did, cache.connections, CachedNames(cache.connections), fetched, outs, |outs|)
    requires entries == Rules(outs, |outs|)
    modifies device
    ensures one.Failure? ==> device.State() == old(device.State())
    ensures one.Failure? ==> ReadOutcome(did, cache.connections, CachedNames(cache.connections), fetched[|outs|], one)
    ensures one.Success? ==>
      device.State() == ReadRun(ReadPlans(fetched, CachedNames(cache.connections)), |outs| + 1, start) &&
      ReadsAs(did, cache.connections, CachedNames(cache.connections), fetched, outs + [one.value], |outs| + 1) &&
      next == Rules(outs + [one.value], |outs| + 1)
  {
    ghost var names := CachedNames(cache.connections);
    one := ReadConnection(did, cache, device, fetched[i]);
    if one.Failure? {
      ReadOutcomeFails(did, cache.connections, names, fetched[|outs|], one);
      return one, entries;
    }
    ReadsAsSnoc(did, cache.connections, names, fetched, outs, one.value, |outs|);
    RulesSnoc(outs, one.value, |outs|);
    next := entries + RuleOf(one.value);
  }

  /**
   * `getFlowEntries`: the connections read from the device, in order, the
   * first `|outs|` of them handled, `outs` being what each yielded: each
   * cached one rebuilt as a flow rule, each unknown one deleted by name, each
   * nameless one skipped.  It stops with the error of the first connection
   * that fails; ReadsAsPass, YieldedRebuilt and ReadOutcomeFails spell out
   * what that means.
   */
  method GetFlowEntries(did: DeviceId, cache: OpenRoadmConnectionCache, device: NetconfDevice,
                        fetched: seq<Option<string>>)
    returns (r: Result<seq<FlowRule>, ReadError>, ghost outs: seq<Option<FlowRule>>)
    modifies device
    ensures |outs| <= |fetched| && (r.Success? <==> |outs| == |fetched|)
    ensures device.State() ==
      ReadRun(ReadPlans(fetched, CachedNames(cache.connections)), |outs|, old(device.State()))
    ensures ReadsAs(did, cache.connections, CachedNames(cache.connections), fetched, outs, |outs|)
    ensures r.Failure? ==> ReadOutcome(did, cache.connections, CachedNames(cache.connections), fetched[|outs|], Failure(r.error))
    ensures r.Success? ==> r.value == Rules(outs, |outs|)
  {
    ghost var conns := cache.connections;
    ghost var names := CachedNames(conns);
    ghost var start := device.State();
    outs := [];
    var entries: seq<FlowRule> := [];
    var i := 0;
    while i < |fetched|
      invariant i == |outs| <= |fetched|
      invariant cache.connections == conns
      invariant device.State() == ReadRun(ReadPlans(fetched, names), i, start)
      invariant ReadsAs(did, conns, names, fetched, outs, i) && entries == Rules(outs, i)
    {
      var one;
      one, entries := ReadNext(did, cache, device, fetched, i, start, outs, entries);
      if one.Failure? {
        return Failure(one.error), outs;
      }
      outs := outs + [one.value];
      i := i + 1;
    }
    return Success(entries), outs;
  }
}
