/**
 * The optical-device behaviour of the OpenROADM driver: which optical port
 * classes a port is recognised as.  Only OMS and OCh ports are recognised;
 * no port is ever converted.
 */
module RoadmOpticalDevice {
  import opened Wrappers
  import opened Net
  import opened Descriptions

  /** The optical port classes a caller can ask about. */
  datatype PortClass = OmsPortClass | OchPortClass | OduCltPortClass | OtuPortClass

  /** A device port together with the type ONOS records for it. */
  datatype TypedPort = TypedPort(portType: PortType, port: Port)

  /** The class a port of each type belongs to, if it is an optical one. */
  function ClassOfType(t: PortType): Option<PortClass> {
    match t
    case OMS => Some(OmsPortClass)
    case OCH => Some(OchPortClass)
    case ODUCLT => Some(OduCltPortClass)
    case OTU => Some(OtuPortClass)
    case _ => None
  }

  /**
   * `portIs`: a port is recognised as a class only when that is its own
   * class, and only for the OMS and OCh classes.
   */
  function PortIs(p: TypedPort, c: PortClass): (b: bool)
    ensures b ==> ClassOfType(p.portType) == Some(c)
    ensures b <==> ClassOfType(p.portType) == Some(c) && (c == OmsPortClass || c == OchPortClass)
  {
    if p.portType == OMS && c == OmsPortClass then true
    else if p.portType == OCH && c == OchPortClass then true
    else false
  }

  /** `portAs`: no port is ever converted, not even to a class it is recognised as. */
  function PortAs(p: TypedPort, c: PortClass): (r: Option<TypedPort>)
    ensures r.None?
  {
    None
  }

  /** `port`: the port itself, its type and its description unchanged. */
  function ThePort(p: TypedPort): (r: TypedPort)
    ensures r.portType == p.portType && r.port == p.port
  {
    p
  }

  /** The port ONOS keeps for a discovered description, with its type. */
  function TypedPortOf(d: PortDescription): (p: TypedPort)
    ensures p.portType == PortTypeOf(d) && p.port == AsPort(d)
  {
    TypedPort(PortTypeOf(d), AsPort(d))
  }

  /**
   * Every port discovery reports, OCh or OMS, is recognised as exactly its
   * own class and as no other.
   */
  lemma DiscoveredPortsRecognised(d: PortDescription, c: PortClass)
    ensures PortIs(TypedPortOf(d), c) <==> ClassOfType(PortTypeOf(d)) == Some(c)
    ensures PortIs(TypedPortOf(d), if d.OchPortDescription? then OchPortClass else OmsPortClass)
  {
  }

  /** Client and OTU ports are never recognised. */
  lemma ElectricalNeverRecognised(p: TypedPort, c: PortClass)
    requires p.portType == ODUCLT || p.portType == OTU
    ensures !PortIs(p, c)
  {
  }
}
