/**
 * An OpenROADM cross-connect rule: an ONOS flow rule read as input port,
 * output port, optical channel and signal type, and classified by which of
 * its ports are line (degree) ports.
 */
module RoadmFlowRule {
  import opened Wrappers
  import opened Net

  /** EXPRESS joins two degrees, ADD goes from a client port to a degree, DROP the other way. */
  datatype LinkType = EXPRESS_LINK | ADD_LINK | DROP_LINK

  datatype OpenRoadmFlowRule = OpenRoadmFlowRule(
    rule: FlowRule,
    linkType: LinkType,
    inPort: PortNumber,
    outPort: PortNumber,
    ochSignal: OchSignal,
    ochSignalType: OchSignalType)

  /** The argument checks of the constructor, in the order it makes them. */
  datatype RuleError =
    | MissingInPort
    | MissingOchSignalType
    | MissingOchSignalId
    | MissingOutput
    | WrongCrossConnectType

  /**
   * The three independent tests of the constructor: each one that matches
   * overwrites the type, and none matches when neither port is a line port.
   */
  function Classify(inIsLine: bool, outIsLine: bool): (r: Option<LinkType>)
    ensures r == Some(EXPRESS_LINK) <==> inIsLine && outIsLine
    ensures r == Some(ADD_LINK) <==> !inIsLine && outIsLine
    ensures r == Some(DROP_LINK) <==> inIsLine && !outIsLine
    ensures r == None <==> !inIsLine && !outIsLine
  {
    var none: Option<LinkType> := None;
    var afterExpress := if inIsLine && outIsLine then Some(EXPRESS_LINK) else none;
    var afterAdd := if !inIsLine && outIsLine then Some(ADD_LINK) else afterExpress;
    if inIsLine && !outIsLine then Some(DROP_LINK) else afterAdd
  }

  /** Whether the rule carries everything the constructor requires. */
  predicate Complete(rule: FlowRule) {
    GetCriterion(rule.selector, IN_PORT).Some? &&
    GetCriterion(rule.selector, OCH_SIGTYPE).Some? &&
    GetCriterion(rule.selector, OCH_SIGID).Some? &&
    FirstOutput(rule.treatment).Some?
  }

  /**
   * The constructor: reads the in-port, signal type and signal criteria and
   * the first OUTPUT instruction, failing on the first one missing, then
   * classifies the rule; a rule touching no line port is refused.
   */
  function FromFlowRule(rule: FlowRule, linePorts: seq<PortNumber>): (r: Result<OpenRoadmFlowRule, RuleError>)
    ensures r.Success? <==>
      (Complete(rule) &&
       (GetCriterion(rule.selector, IN_PORT).value.port in linePorts ||
        FirstOutput(rule.treatment).value in linePorts))
    ensures r.Success? ==>
      var xc := r.value;
      xc.rule == rule &&
      InPort(xc.inPort) in rule.selector &&
      OchSigType(xc.ochSignalType) in rule.selector &&
      OchSigId(xc.ochSignal) in rule.selector &&
      Output(xc.outPort) in rule.treatment &&
      Classify(xc.inPort in linePorts, xc.outPort in linePorts) == Some(xc.linkType)
    ensures r == Failure(MissingInPort) <==> GetCriterion(rule.selector, IN_PORT).None?
    ensures r == Failure(MissingOchSignalType) <==>
      GetCriterion(rule.selector, IN_PORT).Some? && GetCriterion(rule.selector, OCH_SIGTYPE).None?
    ensures r == Failure(MissingOchSignalId) <==>
      GetCriterion(rule.selector, IN_PORT).Some? && GetCriterion(rule.selector, OCH_SIGTYPE).Some? &&
      GetCriterion(rule.selector, OCH_SIGID).None?
    ensures r == Failure(MissingOutput) <==>
      GetCriterion(rule.selector, IN_PORT).Some? && GetCriterion(rule.selector, OCH_SIGTYPE).Some? &&
      GetCriterion(rule.selector, OCH_SIGID).Some? && FirstOutput(rule.treatment).None?
    ensures r == Failure(WrongCrossConnectType) <==>
      (Complete(rule) &&
       GetCriterion(rule.selector, IN_PORT).value.port !in linePorts &&
       FirstOutput(rule.treatment).value !in linePorts)
  {
    match GetCriterion(rule.selector, IN_PORT)
    case None => Failure(MissingInPort)
    case Some(pc) =>
      match GetCriterion(rule.selector, OCH_SIGTYPE)
      case None => Failure(MissingOchSignalType)
      case Some(ostc) =>
        match GetCriterion(rule.selector, OCH_SIGID)
        case None => Failure(MissingOchSignalId)
        case Some(osc) =>
          match FirstOutput(rule.treatment)
          case None => Failure(MissingOutput)
          case Some(out) =>
            match Classify(pc.port in linePorts, out in linePorts)
            case None => Failure(WrongCrossConnectType)
            case Some(t) => Success(OpenRoadmFlowRule(rule, t, pc.port, out, osc.lambda, ostc.signalType))
  }

  /** `equals`: two cross-connects are equal when ports, signal, signal type and link type agree. */
  predicate SameCrossConnect(a: OpenRoadmFlowRule, b: OpenRoadmFlowRule)
    ensures SameCrossConnect(a, b) <==> HashKey(a) == HashKey(b)
  {
    a.inPort == b.inPort && a.outPort == b.outPort && a.ochSignal == b.ochSignal &&
    a.ochSignalType == b.ochSignalType && a.linkType == b.linkType
  }

  /** The fields `hashCode` combines; any hash computed from them alone agrees with `equals`. */
  function HashKey(x: OpenRoadmFlowRule): (PortNumber, PortNumber, OchSignal, OchSignalType, LinkType) {
    (x.inPort, x.outPort, x.ochSignal, x.ochSignalType, x.linkType)
  }

  /** The classification of a built rule depends only on which of its ports are line ports. */
  lemma ClassificationByLinePorts(rule: FlowRule, lines1: seq<PortNumber>, lines2: seq<PortNumber>)
    requires FromFlowRule(rule, lines1).Success?
    requires var xc := FromFlowRule(rule, lines1).value;
      (xc.inPort in lines1 <==> xc.inPort in lines2) && (xc.outPort in lines1 <==> xc.outPort in lines2)
    ensures FromFlowRule(rule, lines2).Success?
    ensures SameCrossConnect(FromFlowRule(rule, lines1).value, FromFlowRule(rule, lines2).value)
  {
  }
}
