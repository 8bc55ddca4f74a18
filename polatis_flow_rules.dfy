/**
 * Flow programming of the HPN Polatis fibre switch over REST.  The device
 * holds a map from input port to output port ("/connections/"); each
 * entry is read back as a permanent one-to-one rule, rules are written as
 * one PATCH each, and a read re-applies through the flow-rule service the
 * device entries the controller does not know.
 */
module PolatisFlowRules {
  import opened Wrappers
  import opened Strings
  import opened Net
  import opened Outcomes
  import opened PolatisDiscovery

  const DefaultPriority := 88

  const IntModulus := 0x1_0000_0000

  /** Java's `(int)` cast of a `long`: the low 32 bits, read as signed. */
  function Wrap32(x: int): (r: Int32)
    ensures (x - r) % IntModulus == 0
    ensures -0x8000_0000 <= x < 0x8000_0000 ==> r == x
  {
    var m := x % IntModulus;
    if m < 0x8000_0000 then m else m - IntModulus
  }

  /** One field of the "/connections/" document: the input port's text and the output port. */
  datatype Connection = Connection(field: string, value: Int32)

  /**
   * What stops a loop: a field that is not a port number, or a rule
   * without an input port or an output (its port is `null`).
   */
  datatype RuleError = BadPortName(name: string) | MissingPort

  /** The rule a connection from `inPort` to `outPort` is read back as. */
  function DeviceRule(did: DeviceId, flowId: int, inPort: PortNumber, outPort: Int32): (rule: FlowRule)
    ensures rule.deviceId == did && rule.priority == DefaultPriority && rule.permanent
    ensures GetCriterion(rule.selector, IN_PORT) == Some(InPort(inPort))
    ensures FirstOutput(rule.treatment) == Some(outPort as int)
  {
    FlowRule(did, flowId, DefaultPriority, true, [InPort(inPort)], [Output(outPort)])
  }

  /**
   * One field read as a rule; `flowIdOf` stands for the flow id ONOS gives
   * the rule it builds.
   */
  function ConnectionRule(did: DeviceId, flowIdOf: (PortNumber, Int32) -> int, c: Connection): (r: Result<Option<FlowRule>, RuleError>)
    ensures r.Failure? <==> ParseLong(c.field).None?
    ensures r.Failure? ==> r.error == BadPortName(c.field)
    ensures r.Success? ==> r.value.Some?
    ensures r.Success? ==>
      var rule := r.value.value;
      && rule.deviceId == did && rule.priority == DefaultPriority && rule.permanent
      && GetCriterion(rule.selector, IN_PORT) == Some(InPort(ParseLong(c.field).value))
      && FirstOutput(rule.treatment) == Some(c.value as int)
  {
    match ParseLong(c.field)
    case None => Failure(BadPortName(c.field))
    case Some(n) => Success(Some(DeviceRule(did, flowIdOf(n, c.value), n, c.value)))
  }

  function ConnectionRules(did: DeviceId, flowIdOf: (PortNumber, Int32) -> int, conns: seq<Connection>): (r: seq<Result<Option<FlowRule>, RuleError>>)
    ensures |r| == |conns|
    ensures forall i :: 0 <= i < |conns| ==> r[i] == ConnectionRule(did, flowIdOf, conns[i])
  {
    seq(|conns|, i requires 0 <= i < |conns| => ConnectionRule(did, flowIdOf, conns[i]))
  }

  /**
   * `getFlowEntriesFromDevice`: one rule per field of the document, in
   * document order; `reply` is `None` when the document cannot be read,
   * which gives no rules.
   */
  method FlowEntriesFromDevice(did: DeviceId, flowIdOf: (PortNumber, Int32) -> int, reply: Option<seq<Connection>>)
    returns (r: Result<seq<FlowRule>, RuleError>)
    ensures reply.None? ==> r == Success([])
    ensures reply.Some? ==> r == Collect(ConnectionRules(did, flowIdOf, reply.value))
  {
    if reply.None? {
      return Success([]);
    }
    var conns := reply.value;
    ghost var outs := ConnectionRules(did, flowIdOf, conns);
    var entries: seq<FlowRule> := [];
    var i := 0;
    while i < |conns|
      invariant 0 <= i <= |conns|
      invariant Collect(outs[..i]) == Success(entries)
    {
      var rule := ConnectionRule(did, flowIdOf, conns[i]);
      CollectStep(outs, i);
      if rule.Failure? {
        return Failure(rule.error);
      }
      entries := entries + [rule.value.value];
      i := i + 1;
    }
    assert outs[..i] == outs;
    return Success(entries);
  }

  /**
   * Reading the device fails exactly on a field that is not a number; then
   * rule `i` connects the number of field `i` to its value, at priority 88.
   */
  lemma DeviceRulesMeaning(did: DeviceId, flowIdOf: (PortNumber, Int32) -> int, conns: seq<Connection>)
    ensures Collect(ConnectionRules(did, flowIdOf, conns)).Success? <==>
      forall i :: 0 <= i < |conns| ==> ParseLong(conns[i].field).Some?
    ensures Collect(ConnectionRules(did, flowIdOf, conns)).Success? ==>
      var rules := Collect(ConnectionRules(did, flowIdOf, conns)).value;
      && |rules| == |conns|
      && forall i :: 0 <= i < |conns| ==>
        var n := ParseLong(conns[i].field).value;
        rules[i] == DeviceRule(did, flowIdOf(n, conns[i].value), n, conns[i].value)
  {
    var outs := ConnectionRules(did, flowIdOf, conns);
    CollectMeaning(outs);
    if forall i :: 0 <= i < |conns| ==> ParseLong(conns[i].field).Some? {
      CollectAllPresent(outs);
    }
  }

  /** The flow-rule service of the controller: the rules it was asked to apply, in order. */
  class FlowRuleService {
    var applied: seq<FlowRule>

    constructor ()
      ensures applied == []
    {
      applied := [];
    }

    /** `applyFlowRules` of the service. */
    method ApplyFlowRules(rule: FlowRule)
      modifies this
      ensures applied == old(applied) + [rule]
    {
      applied := applied + [rule];
    }
  }

  /**
   * What ONOS compares when it tests two rules for equality
   * (`DefaultFlowRule.equals`, and the hash a `HashMap` keys them by): the
   * device, the priority and the selector's set of criteria.  The treatment,
   * the flow id and permanence are not compared; the table id and payload,
   * which are also compared, are the same for every rule here.
   */
  datatype RuleIdentity = RuleIdentity(deviceId: DeviceId, priority: int, criteria: set<Criterion>)

  function IdentityOf(rule: FlowRule): (id: RuleIdentity)
    ensures id.deviceId == rule.deviceId && id.priority == rule.priority
    ensures forall c :: c in id.criteria <==> c in rule.selector
  {
    RuleIdentity(rule.deviceId, rule.priority, set c | c in rule.selector)
  }

  /** Some rule the controller holds equals a rule of this identity. */
  predicate Held(known: seq<FlowRule>, id: RuleIdentity) {
    exists j :: 0 <= j < |known| && IdentityOf(known[j]) == id
  }

  /** Entry `i` is the first of the entries equal to it. */
  predicate FirstOfItsRule(entries: seq<FlowRule>, i: int)
    requires 0 <= i < |entries|
  {
    forall j :: 0 <= j < i ==> IdentityOf(entries[j]) != IdentityOf(entries[i])
  }

  /** No two rules are equal. */
  predicate DistinctRules(rules: seq<FlowRule>) {
    forall i, j :: 0 <= i < j < |rules| ==> IdentityOf(rules[i]) != IdentityOf(rules[j])
  }

  /**
   * One key of `flowDiscrepancy`: the entry the map keeps for it (the first
   * one put, since a later equal key only replaces the value) and whether
   * the controller knows it.
   */
  datatype Tally = Tally(entry: FlowRule, known: bool)

  /** The identities of the first `n` entries. */
  function IdentitiesOf(entries: seq<FlowRule>, n: int): set<RuleIdentity>
    requires 0 <= n <= |entries|
  {
    set k | 0 <= k < n :: IdentityOf(entries[k])
  }

  /** Every key's entry is of that key, and the first of the first `n` entries equal to it. */
  predicate KeptFirst(entries: seq<FlowRule>, n: int, discrepancy: map<RuleIdentity, Tally>)
    requires 0 <= n <= |entries|
  {
    forall id :: id in discrepancy ==>
      IdentityOf(discrepancy[id].entry) == id &&
      exists i :: 0 <= i < n && entries[i] == discrepancy[id].entry && FirstOfItsRule(entries, i)
  }

  /**
   * The map after the first `n` device entries: one key per entry up to
   * equality, keeping the first entry of each, marked true iff the
   * controller holds an equal rule.
   */
  predicate Tallied(entries: seq<FlowRule>, known: seq<FlowRule>, n: int, discrepancy: map<RuleIdentity, Tally>)
    requires 0 <= n <= |entries|
  {
    && discrepancy.Keys == IdentitiesOf(entries, n)
    && KeptFirst(entries, n, discrepancy)
    && forall id :: id in discrepancy ==> (discrepancy[id].known <==> Held(known, id))
  }

  /** `flowDiscrepancy` over all the device entries. */
  method FindDiscrepancies(entries: seq<FlowRule>, known: seq<FlowRule>) returns (discrepancy: map<RuleIdentity, Tally>)
    ensures discrepancy.Keys == IdentitiesOf(entries, |entries|)
    ensures KeptFirst(entries, |entries|, discrepancy)
    ensures forall id :: id in discrepancy ==> (discrepancy[id].known <==> Held(known, id))
  {
    discrepancy := map[];
    var i := 0;
    while i < |entries|
      invariant 0 <= i <= |entries|
      invariant Tallied(entries, known, i, discrepancy)
    {
      var entry := entries[i];
      var id := IdentityOf(entry);
      ghost var before := discrepancy;
      var kept := if id in discrepancy then discrepancy[id].entry else entry;
      discrepancy := MarkHeld(known, id, kept, discrepancy);
      TalliedGrows(entries, known, i, before);
      i := i + 1;
    }
  }

  /**
   * One pass of `flowDiscrepancy`'s outer loop: the key `id` is put with
   * value false, and becomes true once a rule the controller holds equals it.
   */
  method MarkHeld(known: seq<FlowRule>, id: RuleIdentity, kept: FlowRule, discrepancy: map<RuleIdentity, Tally>)
    returns (marked: map<RuleIdentity, Tally>)
    ensures marked == discrepancy[id := Tally(kept, Held(known, id))]
  {
    marked := discrepancy[id := Tally(kept, false)];
    var j := 0;
    while j < |known|
      invariant 0 <= j <= |known|
      invariant marked == discrepancy[id := Tally(kept, exists k :: 0 <= k < j && IdentityOf(known[k]) == id)]
    {
      if IdentityOf(known[j]) == id {
        marked := marked[id := Tally(kept, true)];
      }
      j := j + 1;
    }
  }

  /** Every entry that is the first of its identity is the one its key keeps. */
  lemma FirstsKept(entries: seq<FlowRule>, discrepancy: map<RuleIdentity, Tally>)
    requires discrepancy.Keys == IdentitiesOf(entries, |entries|) && KeptFirst(entries, |entries|, discrepancy)
    ensures forall i :: 0 <= i < |entries| && FirstOfItsRule(entries, i) ==>
      IdentityOf(entries[i]) in discrepancy && discrepancy[IdentityOf(entries[i])].entry == entries[i]
  {
    forall i | 0 <= i < |entries| && FirstOfItsRule(entries, i)
      ensures IdentityOf(entries[i]) in discrepancy && discrepancy[IdentityOf(entries[i])].entry == entries[i]
    {
      var id := IdentityOf(entries[i]);
      assert id in IdentitiesOf(entries, |entries|);
      var k :| 0 <= k < |entries| && entries[k] == discrepancy[id].entry && FirstOfItsRule(entries, k);
      assert IdentityOf(entries[k]) == id;
    }
  }

  /** Tallying one more entry: its key is put with the first entry of its identity, marked as `MarkHeld` marks it. */
  lemma TalliedGrows(entries: seq<FlowRule>, known: seq<FlowRule>, i: int, before: map<RuleIdentity, Tally>)
    requires 0 <= i < |entries| && Tallied(entries, known, i, before)
    ensures var id := IdentityOf(entries[i]);
      var kept := if id in before then before[id].entry else entries[i];
      Tallied(entries, known, i + 1, before[id := Tally(kept, Held(known, id))])
  {
    var id := IdentityOf(entries[i]);
    var kept := if id in before then before[id].entry else entries[i];
    KeptFirstGrows(entries, i, before, before[id := Tally(kept, Held(known, id))]);
  }

  /** Reading one more entry keeps every key's first entry, and a new key gets the new entry, which is first. */
  lemma KeptFirstGrows(entries: seq<FlowRule>, i: int, before: map<RuleIdentity, Tally>, after: map<RuleIdentity, Tally>)
    requires 0 <= i < |entries|
    requires before.Keys == IdentitiesOf(entries, i) && KeptFirst(entries, i, before)
    requires after.Keys == before.Keys + {IdentityOf(entries[i])}
    requires forall x :: x in after && x != IdentityOf(entries[i]) ==> after[x] == before[x]
    requires after[IdentityOf(entries[i])].entry ==
      (if IdentityOf(entries[i]) in before then before[IdentityOf(entries[i])].entry else entries[i])
    ensures after.Keys == IdentitiesOf(entries, i + 1)
    ensures KeptFirst(entries, i + 1, after)
  {
    var id := IdentityOf(entries[i]);
    if id !in before {
      forall j | 0 <= j < i
        ensures IdentityOf(entries[j]) != id
      {
        assert IdentityOf(entries[j]) in IdentitiesOf(entries, i);
      }
      assert FirstOfItsRule(entries, i);
    }
    assert IdentitiesOf(entries, i + 1) == IdentitiesOf(entries, i) + {id};
  }

  /**
   * `getFlowEntries`: the device's entries, unchanged; the first of every
   * group of equal device entries the controller holds no equal rule of is
   * handed once to the flow-rule service (in the map's own order), and
   * nothing when the device has no entries or the read fails.
   */
  method GetFlowEntries(service: FlowRuleService, known: seq<FlowRule>, did: DeviceId,
                        flowIdOf: (PortNumber, Int32) -> int, reply: Option<seq<Connection>>)
    returns (r: Result<seq<FlowRule>, RuleError>)
    modifies service
    ensures reply.None? ==> r == Success([])
    ensures reply.Some? ==> r == Collect(ConnectionRules(did, flowIdOf, reply.value))
    ensures r.Failure? ==> service.applied == old(service.applied)
    ensures r.Success? ==>
      && |old(service.applied)| <= |service.applied|
      && service.applied[..|old(service.applied)|] == old(service.applied)
      && DistinctRules(service.applied[|old(service.applied)|..])
      && forall e :: e in service.applied[|old(service.applied)|..] <==>
           (exists i :: 0 <= i < |r.value| && r.value[i] == e && FirstOfItsRule(r.value, i)) &&
           !Held(known, IdentityOf(e))
  {
    r := FlowEntriesFromDevice(did, flowIdOf, reply);
    if r.Failure? || |r.value| == 0 {
      return;
    }
    var discrepancy := FindDiscrepancies(r.value, known);
    ApplyUnknown(service, discrepancy);
    FirstsKept(r.value, discrepancy);
  }

  /**
   * The second loop of `getFlowEntries`: the entry of every key marked
   * unknown is handed once to the service, in the map's own order.
   */
  method ApplyUnknown(service: FlowRuleService, discrepancy: map<RuleIdentity, Tally>)
    requires forall id :: id in discrepancy ==> IdentityOf(discrepancy[id].entry) == id
    modifies service
    ensures |old(service.applied)| <= |service.applied|
    ensures service.applied[..|old(service.applied)|] == old(service.applied)
    ensures DistinctRules(service.applied[|old(service.applied)|..])
    ensures forall e :: e in service.applied[|old(service.applied)|..] <==>
      IdentityOf(e) in discrepancy && discrepancy[IdentityOf(e)].entry == e && !discrepancy[IdentityOf(e)].known
  {
    ghost var before := service.applied;
    var pending := discrepancy.Keys;
    while pending != {}
      invariant pending <= discrepancy.Keys
      invariant |before| <= |service.applied| && service.applied[..|before|] == before
      invariant DistinctRules(service.applied[|before|..])
      invariant forall e :: e in service.applied[|before|..] <==>
        IdentityOf(e) in discrepancy && IdentityOf(e) !in pending &&
        discrepancy[IdentityOf(e)].entry == e && !discrepancy[IdentityOf(e)].known
      decreases |pending|
    {
      var id :| id in pending;
      ghost var done := service.applied[|before|..];
      if !discrepancy[id].known {
        service.ApplyFlowRules(discrepancy[id].entry);
        assert service.applied[|before|..] == done + [discrepancy[id].entry];
      }
      pending := pending - {id};
    }
  }

  /** The body of a PATCH on "/connections/": `{"<in>": out}`, or that map under "remove". */
  datatype Body = Connect(field: string, value: Int32) | Remove(inner: Body)

  /** The REST endpoint of the switch: the PATCH bodies sent so far, in order. */
  class RestDevice {
    var patches: seq<Body>

    constructor ()
      ensures patches == []
    {
      patches := [];
    }

    /** `patch(device, "/connections/", body)`; the response is not used. */
    method Patch(body: Body)
      modifies this
      ensures patches == old(patches) + [body]
    {
      patches := patches + [body];
    }
  }

  /** The rule matches an optical channel. */
  predicate HasOchSignal(rule: FlowRule) {
    GetCriterion(rule.selector, OCH_SIGID).Some?
  }

  /**
   * The connection a rule asks for: its input port's number as text and its
   * first output port cast to `int`; a missing port throws.
   */
  function RuleBody(rule: FlowRule): (r: Result<Body, RuleError>)
    ensures r.Success? <==> GetCriterion(rule.selector, IN_PORT).Some? && FirstOutput(rule.treatment).Some?
    ensures r.Failure? ==> r.error == MissingPort
    ensures r.Success? ==>
      && r.value.Connect?
      && r.value.field == IntToString(GetCriterion(rule.selector, IN_PORT).value.port)
      && r.value.value == Wrap32(FirstOutput(rule.treatment).value)
  {
    match GetCriterion(rule.selector, IN_PORT)
    case None => Failure(MissingPort)
    case Some(c) =>
      match FirstOutput(rule.treatment)
      case None => Failure(MissingPort)
      case Some(out) => Success(Connect(IntToString(c.port), Wrap32(out)))
  }

  /** The field of a rule's body reads back as the rule's input port. */
  lemma RuleBodyReadsBack(rule: FlowRule)
    requires RuleBody(rule).Success?
    requires MinLong <= GetCriterion(rule.selector, IN_PORT).value.port <= MaxLong
    ensures ParseLong(RuleBody(rule).value.field) == Some(GetCriterion(rule.selector, IN_PORT).value.port)
  {
    ParseLongIntToString(GetCriterion(rule.selector, IN_PORT).value.port);
  }

  /** What `applyFlowRules` does with one rule: skip it when it matches an optical channel. */
  function ApplyStep(rule: FlowRule): (r: Result<Option<Body>, RuleError>)
    ensures HasOchSignal(rule) ==> r == Success(None)
    ensures !HasOchSignal(rule) ==> (r.Success? <==> RuleBody(rule).Success?)
    ensures !HasOchSignal(rule) && r.Success? ==> r.value == Some(RuleBody(rule).value)
    ensures r.Failure? ==> r.error == MissingPort
  {
    if HasOchSignal(rule) then Success(None)
    else
      match RuleBody(rule)
      case Failure(e) => Failure(e)
      case Success(b) => Success(Some(b))
  }

  /** What `removeFlowRules` does with one rule: no rule is skipped. */
  function RemoveStep(rule: FlowRule): (r: Result<Option<Body>, RuleError>)
    ensures r.Success? <==> RuleBody(rule).Success?
    ensures r.Success? ==> r.value == Some(Remove(RuleBody(rule).value))
    ensures r.Failure? ==> r.error == MissingPort
  {
    match RuleBody(rule)
    case Failure(e) => Failure(e)
    case Success(b) => Success(Some(Remove(b)))
  }

  /** What a batch does with each of its rules, in order. */
  function Steps(rules: seq<FlowRule>, step: FlowRule -> Result<Option<Body>, RuleError>): (r: seq<Result<Option<Body>, RuleError>>)
    ensures |r| == |rules| && forall i :: 0 <= i < |rules| ==> r[i] == step(rules[i])
  {
    seq(|rules|, i requires 0 <= i < |rules| => step(rules[i]))
  }

  function ApplySteps(rules: seq<FlowRule>): seq<Result<Option<Body>, RuleError>> {
    Steps(rules, ApplyStep)
  }

  function RemoveSteps(rules: seq<FlowRule>): seq<Result<Option<Body>, RuleError>> {
    Steps(rules, RemoveStep)
  }

  /**
   * The loop both writes share: one PATCH per rule whose step has a body,
   * in order, until a step throws; the rules themselves are the answer
   * when none does.
   */
  method SendSteps(device: RestDevice, rules: seq<FlowRule>, step: FlowRule -> Result<Option<Body>, RuleError>)
    returns (r: Result<seq<FlowRule>, RuleError>)
    modifies device
    ensures device.patches == old(device.patches) + Sent(Steps(rules, step))
    ensures r == (if Collect(Steps(rules, step)).Success? then Success(rules) else Failure(Collect(Steps(rules, step)).error))
  {
    ghost var steps := Steps(rules, step);
    var i := 0;
    while i < |rules|
      invariant 0 <= i <= |rules|
      invariant Collect(steps[..i]).Success?
      invariant device.patches == old(device.patches) + Sent(steps[..i])
    {
      var outcome := step(rules[i]);
      CollectStep(steps, i);
      if outcome.Failure? {
        return Failure(outcome.error);
      }
      if outcome.value.Some? {
        device.Patch(outcome.value.value);
      }
      i := i + 1;
    }
    assert steps[..i] == steps;
    return Success(rules);
  }

  /** `applyFlowRules`: one connect PATCH per rule that does not match an optical channel. */
  method ApplyFlowRules(device: RestDevice, rules: seq<FlowRule>) returns (r: Result<seq<FlowRule>, RuleError>)
    modifies device
    ensures device.patches == old(device.patches) + Sent(ApplySteps(rules))
    ensures r == (if Collect(ApplySteps(rules)).Success? then Success(rules) else Failure(Collect(ApplySteps(rules)).error))
  {
    r := SendSteps(device, rules, ApplyStep);
  }

  /** `removeFlowRules`: one remove PATCH per rule. */
  method RemoveFlowRules(device: RestDevice, rules: seq<FlowRule>) returns (r: Result<seq<FlowRule>, RuleError>)
    modifies device
    ensures device.patches == old(device.patches) + Sent(RemoveSteps(rules))
    ensures r == (if Collect(RemoveSteps(rules)).Success? then Success(rules) else Failure(Collect(RemoveSteps(rules)).error))
  {
    r := SendSteps(device, rules, RemoveStep);
  }

  /**
   * No PATCH sent by `applyFlowRules` comes from a rule matching an optical
   * channel: each is the body of some other rule of the batch.
   */
  lemma ApplySkipsOpticalRules(rules: seq<FlowRule>, b: Body)
    requires b in Sent(ApplySteps(rules))
    ensures exists i :: 0 <= i < |rules| && !HasOchSignal(rules[i]) && RuleBody(rules[i]) == Success(b)
  {
    SentFrom(ApplySteps(rules), b);
  }

  /** A batch whose rules all match optical channels sends nothing and succeeds. */
  lemma OpticalBatchSendsNothing(rules: seq<FlowRule>)
    requires forall i :: 0 <= i < |rules| ==> HasOchSignal(rules[i])
    ensures Sent(ApplySteps(rules)) == [] && Collect(ApplySteps(rules)) == Success([])
  {
    var outs := ApplySteps(rules);
    CollectMeaning(outs);
    if Collect(outs).value != [] {
      SentFrom(outs, Collect(outs).value[0]);
    }
  }

  /** A field written the way `Long.toString` writes a number. */
  predicate CanonicalField(c: Connection) {
    ParseLong(c.field).Some? && IntToString(ParseLong(c.field).value) == c.field
  }

  /** A rule read from the device is applied as its own connection, or removed as it. */
  lemma DeviceRuleSteps(did: DeviceId, flowId: int, inPort: PortNumber, outPort: Int32)
    ensures ApplyStep(DeviceRule(did, flowId, inPort, outPort)) == Success(Some(Connect(IntToString(inPort), outPort)))
    ensures RemoveStep(DeviceRule(did, flowId, inPort, outPort)) == Success(Some(Remove(Connect(IntToString(inPort), outPort))))
  {
    var rule := DeviceRule(did, flowId, inPort, outPort);
    assert !HasOchSignal(rule);
    assert RuleBody(rule) == Success(Connect(IntToString(inPort), outPort));
  }

  /** When every step has a body, all of them are sent, in order. */
  lemma SentBodies(steps: seq<Result<Option<Body>, RuleError>>, bodies: seq<Body>)
    requires |steps| == |bodies| && forall i :: 0 <= i < |steps| ==> steps[i] == Success(Some(bodies[i]))
    ensures Collect(steps).Success? && Sent(steps) == bodies
  {
    CollectAllPresent(steps);
    assert Sent(steps) == bodies;
  }

  /** The connect bodies of a list of connections, in order. */
  function Connects(conns: seq<Connection>): (bodies: seq<Body>)
    ensures |bodies| == |conns| && forall i :: 0 <= i < |conns| ==> bodies[i] == Connect(conns[i].field, conns[i].value)
  {
    seq(|conns|, i requires 0 <= i < |conns| => Connect(conns[i].field, conns[i].value))
  }

  /** The remove bodies of a list of connections, in order. */
  function Removes(conns: seq<Connection>): (bodies: seq<Body>)
    ensures |bodies| == |conns| && forall i :: 0 <= i < |conns| ==> bodies[i] == Remove(Connect(conns[i].field, conns[i].value))
  {
    seq(|conns|, i requires 0 <= i < |conns| => Remove(Connect(conns[i].field, conns[i].value)))
  }

  /** The rules read from the device, when every field is a number written the usual way. */
  lemma ReadRules(did: DeviceId, flowIdOf: (PortNumber, Int32) -> int, conns: seq<Connection>) returns (rules: seq<FlowRule>)
    requires forall i :: 0 <= i < |conns| ==> CanonicalField(conns[i])
    ensures Collect(ConnectionRules(did, flowIdOf, conns)) == Success(rules)
    ensures |rules| == |conns|
    ensures forall i :: 0 <= i < |conns| ==>
      ApplyStep(rules[i]) == Success(Some(Connect(conns[i].field, conns[i].value))) &&
      RemoveStep(rules[i]) == Success(Some(Remove(Connect(conns[i].field, conns[i].value))))
  {
    DeviceRulesMeaning(did, flowIdOf, conns);
    rules := Collect(ConnectionRules(did, flowIdOf, conns)).value;
    forall i | 0 <= i < |conns|
      ensures ApplyStep(rules[i]) == Success(Some(Connect(conns[i].field, conns[i].value)))
      ensures RemoveStep(rules[i]) == Success(Some(Remove(Connect(conns[i].field, conns[i].value))))
    {
      var n := ParseLong(conns[i].field).value;
      DeviceRuleSteps(did, flowIdOf(n, conns[i].value), n, conns[i].value);
    }
  }

  /**
   * Round trip: the rules read from the device, applied again, write back
   * exactly the device's connections, in order; removed, they remove
   * exactly those connections.
   */
  lemma ReadBackRoundTrip(did: DeviceId, flowIdOf: (PortNumber, Int32) -> int, conns: seq<Connection>)
    requires forall i :: 0 <= i < |conns| ==> CanonicalField(conns[i])
    ensures Collect(ConnectionRules(did, flowIdOf, conns)).Success?
    ensures var rules := Collect(ConnectionRules(did, flowIdOf, conns)).value;
      && Collect(ApplySteps(rules)).Success? && Sent(ApplySteps(rules)) == Connects(conns)
      && Collect(RemoveSteps(rules)).Success? && Sent(RemoveSteps(rules)) == Removes(conns)
  {
    var rules := ReadRules(did, flowIdOf, conns);
    SentBodies(ApplySteps(rules), Connects(conns));
    SentBodies(RemoveSteps(rules), Removes(conns));
  }
}
