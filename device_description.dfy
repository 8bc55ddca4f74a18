/**
 * The OpenROADM device and port discovery.  Every `ports` element of every
 * circuit pack in the device's reply yields a port description when its
 * qualifier is "roadm-external"; its number is synthesised from its name,
 * and a name the rule cannot number makes the whole port discovery empty.
 */
module RoadmDeviceDescription {
  import opened Wrappers
  import opened Strings
  import opened Net
  import opened Descriptions
  import opened Outcomes

  const LongModulus: int := 0x1_0000_0000_0000_0000

  /** Java `long` arithmetic: the exact result reduced to 64-bit two's complement. */
  function WrapLong(x: int): (r: int)
    ensures MinLong <= r <= MaxLong
    ensures (x - r) % LongModulus == 0
    ensures MinLong <= x <= MaxLong ==> r == x
  {
    var q := (x - MinLong) / LongModulus;
    var r := (x - MinLong) % LongModulus + MinLong;
    assert x - r == q * LongModulus;
    r
  }

  /** The four named port families, tested in this order. */
  datatype Family = ExtTx | ExtRx | IntTx | IntRx

  function Prefix(f: Family): string {
    match f
    case ExtTx => "ext-tx"
    case ExtRx => "ext-rx"
    case IntTx => "int-tx"
    case IntRx => "int-rx"
  }

  /** The hundred each family's numbers start at. */
  function Base(f: Family): int {
    match f
    case ExtTx => 300
    case ExtRx => 400
    case IntTx => 500
    case IntRx => 600
  }

  /** The first family whose prefix starts the name. */
  function FamilyOf(name: string): (r: Option<Family>)
    ensures r.Some? ==> StartsWith(name, Prefix(r.value))
    ensures r.None? ==> forall f :: !StartsWith(name, Prefix(f))
  {
    if StartsWith(name, "ext-tx") then Some(ExtTx)
    else if StartsWith(name, "ext-rx") then Some(ExtRx)
    else if StartsWith(name, "int-tx") then Some(IntTx)
    else if StartsWith(name, "int-rx") then Some(IntRx)
    else None
  }

  /** The exception computing a port number raises. */
  datatype PortError = NumberFormat(name: string) | IndexOutOfBounds(name: string)

  /** A family name's number: the family's base plus all the name's digits read as one `long`. */
  function FamilyNumber(f: Family, name: string): (r: Result<int, PortError>)
    ensures r.Success? ==> MinLong <= r.value <= MaxLong
  {
    match ParseLong(KeepDigits(name))
    case None => Failure(NumberFormat(name))
    case Some(n) => Success(WrapLong(Base(f) + n))
  }

  /** Any other name: split on "-", the first two pieces read as shelf and slot, shelf * 100 + slot. */
  function DashedNumber(name: string): (r: Result<int, PortError>)
    ensures r.Success? ==> MinLong <= r.value <= MaxLong
  {
    var parts := JavaSplit(name, "-");
    if |parts| == 0 then Failure(IndexOutOfBounds(name))
    else match ParseLong(parts[0])
      case None => Failure(NumberFormat(name))
      case Some(shelf) =>
        if |parts| == 1 then Failure(IndexOutOfBounds(name))
        else match ParseLong(parts[1])
          case None => Failure(NumberFormat(name))
          case Some(slot) => Success(WrapLong(shelf * 100 + slot))
  }

  /** The port number of a name, computed with Java's `long` arithmetic, or the exception it raises. */
  function PortNumberOf(name: string): (r: Result<int, PortError>)
    ensures r.Success? ==> MinLong <= r.value <= MaxLong
  {
    match FamilyOf(name)
    case Some(f) => FamilyNumber(f, name)
    case None => DashedNumber(name)
  }

  /** The name shapes the numbering rule is written for: "ext-tx7", "int-rx12", "1-3". */
  datatype PortName = Named(family: Family, index: nat) | Dashed(shelf: nat, slot: nat)

  function Render(p: PortName): string {
    match p
    case Named(f, n) => Prefix(f) + NatToString(n)
    case Dashed(a, b) => NatToString(a) + "-" + NatToString(b)
  }

  /** The number the rule gives a name shape, before 64-bit wrap-around. */
  function RuleNumber(p: PortName): int {
    match p
    case Named(f, n) => Base(f) + n
    case Dashed(a, b) => a * 100 + b
  }

  /** Every number written in the name fits a `long`. */
  predicate Parsable(p: PortName) {
    match p
    case Named(_, n) => n <= MaxLong
    case Dashed(a, b) => a <= MaxLong && b <= MaxLong
  }

  lemma ParseRendered(n: nat)
    requires n <= MaxLong
    ensures ParseLong(NatToString(n)) == Some(n)
  {
    DigitsValueNatToString(n);
    assert IsDigit(NatToString(n)[0]);
  }

  lemma DashFree(n: nat)
    ensures '-' !in NatToString(n) && 'e' !in NatToString(n) && 'i' !in NatToString(n)
  {
    var s := NatToString(n);
    forall i | 0 <= i < |s|
      ensures s[i] != '-' && s[i] != 'e' && s[i] != 'i'
    {
      assert IsDigit(s[i]);
    }
  }

  lemma {:induction false} KeepNoDigits(s: string)
    requires forall i :: 0 <= i < |s| ==> !IsDigit(s[i])
    ensures KeepDigits(s) == []
    decreases |s|
  {
    if s != [] {
      KeepNoDigits(s[1..]);
    }
  }

  /** A family name is recognised as its own family. */
  lemma NamedFamily(f: Family, n: nat)
    ensures FamilyOf(Prefix(f) + NatToString(n)) == Some(f)
  {
    var name := Prefix(f) + NatToString(n);
    assert name[..6] == Prefix(f);
    match f {
      case ExtTx =>
      case ExtRx => assert name[..6][4] == 'r';
      case IntTx => assert name[..6][0] == 'i';
      case IntRx => assert name[..6][0] == 'i' && name[..6][4] == 'r';
    }
  }

  /** Only the index of a family name is digits. */
  lemma NamedDigits(f: Family, n: nat)
    ensures KeepDigits(Prefix(f) + NatToString(n)) == NatToString(n)
  {
    KeepDigitsAppend(Prefix(f), NatToString(n));
    KeepNoDigits(Prefix(f));
  }

  lemma RenderedNamedNumber(p: PortName)
    requires p.Named? && Parsable(p)
    ensures PortNumberOf(Render(p)) == Success(WrapLong(RuleNumber(p)))
  {
    var f, n := p.family, p.index;
    var name := Prefix(f) + NatToString(n);
    assert PortNumberOf(name) == Success(WrapLong(Base(f) + n)) by {
      NamedFamily(f, n);
      assert PortNumberOf(name) == FamilyNumber(f, name);
      NamedDigits(f, n);
      ParseRendered(n);
      FamilyDigits(f, name, n);
    }
    assert Render(p) == name;
    assert RuleNumber(p) == Base(f) + n;
  }

  /** A family name whose digits read as `n` is numbered the family's base plus `n`. */
  lemma FamilyDigits(f: Family, name: string, n: int)
    requires ParseLong(KeepDigits(name)) == Some(n)
    ensures FamilyNumber(f, name) == Success(WrapLong(Base(f) + n))
  {
  }

  /** A name starting with a digit belongs to no family. */
  lemma DigitLeadsNoFamily(name: string)
    requires |name| > 0 && IsDigit(name[0])
    ensures FamilyOf(name).None?
  {
    forall f: Family
      ensures !StartsWith(name, Prefix(f))
    {
      if |Prefix(f)| <= |name| {
        assert name[..|Prefix(f)|][0] == name[0];
      }
    }
  }

  /** A name splitting into two numbers is numbered shelf * 100 + slot. */
  lemma DashedPieces(name: string, a: nat, b: nat)
    requires JavaSplit(name, "-") == [NatToString(a), NatToString(b)]
    requires a <= MaxLong && b <= MaxLong
    ensures DashedNumber(name) == Success(WrapLong(a * 100 + b))
  {
    ParseRendered(a);
    ParseRendered(b);
  }

  lemma RenderedDashedNumber(p: PortName)
    requires p.Dashed? && Parsable(p)
    ensures PortNumberOf(Render(p)) == Success(WrapLong(RuleNumber(p)))
  {
    var a, b := p.shelf, p.slot;
    var name := NatToString(a) + "-" + NatToString(b);
    assert IsDigit(NatToString(a)[0]);
    assert name[0] == NatToString(a)[0];
    DigitLeadsNoFamily(name);
    DashFree(a);
    DashFree(b);
    SplitTwo(NatToString(a), "-", NatToString(b), '-', 0);
    DashedPieces(name, a, b);
  }

  /** A rendered name gets the number of its rule, wrapped to 64 bits. */
  lemma RenderedNumber(p: PortName)
    requires Parsable(p)
    ensures PortNumberOf(Render(p)) == Success(WrapLong(RuleNumber(p)))
  {
    if p.Named? {
      RenderedNamedNumber(p);
    } else {
      RenderedDashedNumber(p);
    }
  }

  /** Names the rule numbers apart: indices and slots below 100, shelves outside 3 to 6, no wrap-around. */
  predicate Canonical(p: PortName) {
    match p
    case Named(_, n) => n < 100
    case Dashed(a, b) => b < 100 && (a < 3 || 6 < a) && a * 100 + b <= MaxLong
  }

  lemma HundredsUnique(h: int, l: int, h2: int, l2: int)
    requires 0 <= l < 100 && 0 <= l2 < 100 && h * 100 + l == h2 * 100 + l2
    ensures h == h2 && l == l2
  {
    assert (h - h2) * 100 == l2 - l;
  }

  lemma RuleNumbersApart(p: PortName, q: PortName)
    requires Canonical(p) && Canonical(q) && p != q
    ensures RuleNumber(p) != RuleNumber(q)
  {
    var hp := if p.Named? then Base(p.family) / 100 else p.shelf;
    var lp := if p.Named? then p.index else p.slot;
    var hq := if q.Named? then Base(q.family) / 100 else q.shelf;
    var lq := if q.Named? then q.index else q.slot;
    assert RuleNumber(p) == hp * 100 + lp;
    assert RuleNumber(q) == hq * 100 + lq;
    if RuleNumber(p) == RuleNumber(q) {
      HundredsUnique(hp, lp, hq, lq);
      assert false;
    }
  }

  lemma CanonicalInRange(p: PortName)
    requires Canonical(p)
    ensures Parsable(p) && WrapLong(RuleNumber(p)) == RuleNumber(p)
  {
    assert 0 <= RuleNumber(p) <= MaxLong;
  }

  /** Distinct well-formed names get distinct port numbers. */
  lemma CanonicalNamesNumberApart(p: PortName, q: PortName)
    requires Canonical(p) && Canonical(q) && p != q
    ensures PortNumberOf(Render(p)).Success? && PortNumberOf(Render(q)).Success?
    ensures PortNumberOf(Render(p)).value != PortNumberOf(Render(q)).value
  {
    CanonicalInRange(p);
    CanonicalInRange(q);
    RenderedNumber(p);
    RenderedNumber(q);
    RuleNumbersApart(p, q);
  }

  /** Shelves 3 to 6 collide with the families: "3-1" and "ext-tx1" are both port 301. */
  lemma DashedShelfMeetsFamily()
    ensures PortNumberOf(Render(Dashed(3, 1))) == Success(301)
    ensures PortNumberOf(Render(Named(ExtTx, 1))) == Success(301)
  {
    RenderedNumber(Dashed(3, 1));
    RenderedNumber(Named(ExtTx, 1));
  }

  /** A name of no family and without a dash cannot be numbered. */
  lemma UndashedStrangerFails(name: string)
    requires FamilyOf(name).None? && !Contains(name, "-")
    ensures PortNumberOf(name).Failure?
  {
    SplitWithout(name, "-");
  }

  /** One `ports` element of a circuit pack; a leaf the reply leaves out is `None`. */
  datatype PortElement = PortElement(portName: Option<string>, lcp: Option<string>,
                                     portQual: Option<string>, wavelengthType: Option<string>)

  datatype CircuitPack = CircuitPack(name: Option<string>, ports: seq<PortElement>)

  /** `getString(key, default)`: the leaf's text, or the default when it is missing. */
  function Leaf(v: Option<string>, default: string): string {
    if v.Some? then v.value else default
  }

  function NameOf(port: PortElement): string {
    Leaf(port.portName, "unnamed")
  }

  function QualOf(port: PortElement): string {
    Leaf(port.portQual, "unnamed")
  }

  const RoadmExternal := "roadm-external"

  /** The annotations of a port: its circuit pack, its name and its logical connection point. */
  function PortAnnotations(port: PortElement, cpname: string): (m: map<string, string>)
    ensures m.Keys == {CircuitPackKey, PortNameKey, LcpKey}
    ensures m[CircuitPackKey] == cpname && m[PortNameKey] == NameOf(port) && m[LcpKey] == Leaf(port.lcp, "")
  {
    map[CircuitPackKey := cpname, PortNameKey := NameOf(port), LcpKey := Leaf(port.lcp, "")]
  }

  /**
   * `parsePortComponent`: the port number is computed first, so an
   * unnumbered name fails whatever the qualifier; an external port of
   * wavelength type "wavelength" (the default) is a tunable ODU4 OCh port,
   * any other external port an OMS port over the band; other ports give none.
   * Every description is numbered by the port's name, enabled and annotated.
   */
  function ParsePortComponent(port: PortElement, cpname: string): (r: Result<Option<PortDescription>, PortError>)
    ensures r.Failure? <==> PortNumberOf(NameOf(port)).Failure?
    ensures r.Success? ==> (r.value.Some? <==> QualOf(port) == RoadmExternal)
    ensures r.Success? && r.value.Some? ==>
      var d := r.value.value;
      && d.number == PortNumberOf(NameOf(port)).value
      && d.enabled
      && d.annotations == PortAnnotations(port, cpname)
      && (d.OchPortDescription? <==> Leaf(port.wavelengthType, "wavelength") == "wavelength")
      && (d.OchPortDescription? ==> d.signalType == ODU4 && d.tunable && d.lambda == NewDwdmSlot(CHL_50GHZ, 1))
      && (d.OmsPortDescription? ==> d == BandOmsPort(d.number, d.annotations))
  {
    match PortNumberOf(NameOf(port))
    case Failure(e) => Failure(e)
    case Success(n) =>
      if QualOf(port) == RoadmExternal then
        var annotations := PortAnnotations(port, cpname);
        if Leaf(port.wavelengthType, "wavelength") == "wavelength" then
          Success(Some(OchPortDescription(n, true, ODU4, true, NewDwdmSlot(CHL_50GHZ, 1), annotations)))
        else
          Success(Some(BandOmsPort(n, annotations)))
      else Success(None)
  }

  /** What `parsePortComponent` gives for each port of a circuit pack, in document order. */
  function PortOutcomes(ports: seq<PortElement>, cpname: string): (r: seq<Result<Option<PortDescription>, PortError>>)
    ensures |r| == |ports|
    ensures forall i :: 0 <= i < |ports| ==> r[i] == ParsePortComponent(ports[i], cpname)
  {
    seq(|ports|, i requires 0 <= i < |ports| => ParsePortComponent(ports[i], cpname))
  }

  /**
   * `parsePorts`: the descriptions of the pack's ports in document order,
   * skipping the ports that give none; the first exception ends the loop.
   */
  method ParsePorts(ports: seq<PortElement>, cpname: string) returns (r: Result<seq<PortDescription>, PortError>)
    ensures r == Collect(PortOutcomes(ports, cpname))
  {
    ghost var outs := PortOutcomes(ports, cpname);
    var list: seq<PortDescription> := [];
    var i := 0;
    while i < |ports|
      invariant 0 <= i <= |ports|
      invariant Collect(outs[..i]) == Success(list)
    {
      var pd := ParsePortComponent(ports[i], cpname);
      CollectStep(outs, i);
      if pd.Failure? {
        return Failure(pd.error);
      }
      if pd.value.Some? {
        list := list + [pd.value.value];
      }
      i := i + 1;
    }
    assert outs[..i] == outs;
    return Success(list);
  }

  function PackName(pack: CircuitPack): string {
    Leaf(pack.name, "")
  }

  /** What `parsePorts` gives for each circuit pack, in document order. */
  function PackOutcomes(packs: seq<CircuitPack>): (r: seq<Result<seq<PortDescription>, PortError>>)
    ensures |r| == |packs|
    ensures forall k :: 0 <= k < |packs| ==> r[k] == Collect(PortOutcomes(packs[k].ports, PackName(packs[k])))
  {
    seq(|packs|, k requires 0 <= k < |packs| => Collect(PortOutcomes(packs[k].ports, PackName(packs[k]))))
  }

  /** `parseCircuitPacks`: each pack's port list appended in document order; the first exception ends the loop. */
  method ParseCircuitPacks(packs: seq<CircuitPack>) returns (r: Result<seq<PortDescription>, PortError>)
    ensures r == Concat(PackOutcomes(packs))
  {
    ghost var outs := PackOutcomes(packs);
    var list: seq<PortDescription> := [];
    var k := 0;
    while k < |packs|
      invariant 0 <= k <= |packs|
      invariant Concat(outs[..k]) == Success(list)
    {
      var cplist := ParsePorts(packs[k].ports, PackName(packs[k]));
      ConcatStep(outs, k);
      if cplist.Failure? {
        return cplist;
      }
      list := list + cplist.value;
      k := k + 1;
    }
    assert outs[..k] == outs;
    return Success(list);
  }

  /** The port's name has a number. */
  predicate Numbered(port: PortElement) {
    PortNumberOf(NameOf(port)).Success?
  }

  /** `d` is the description the port gives in the pack named `cpname`. */
  predicate Describes(port: PortElement, cpname: string, d: PortDescription) {
    ParsePortComponent(port, cpname) == Success(Some(d))
  }

  /** `d` is the description port `i` of pack `k` gives. */
  predicate DescribedAt(packs: seq<CircuitPack>, k: int, i: int, d: PortDescription)
    requires 0 <= k < |packs| && 0 <= i < |packs[k].ports|
  {
    Describes(packs[k].ports[i], PackName(packs[k]), d)
  }

  /** One pack's ports parse exactly when all are numbered, and then give exactly their descriptions. */
  lemma PackMeaning(ports: seq<PortElement>, cpname: string)
    ensures Collect(PortOutcomes(ports, cpname)).Success? <==> forall i :: 0 <= i < |ports| ==> Numbered(ports[i])
    ensures Collect(PortOutcomes(ports, cpname)).Success? ==>
      forall d :: d in Collect(PortOutcomes(ports, cpname)).value <==>
        exists i :: 0 <= i < |ports| && Describes(ports[i], cpname, d)
  {
    var outs := PortOutcomes(ports, cpname);
    CollectMeaning(outs);
    forall i | 0 <= i < |ports|
      ensures outs[i].Success? <==> Numbered(ports[i])
    {
    }
  }

  /**
   * Port discovery succeeds exactly when every port of every pack can be
   * numbered, and then lists exactly the descriptions of the external ports.
   */
  lemma DiscoveryMeaning(packs: seq<CircuitPack>)
    ensures Concat(PackOutcomes(packs)).Success? <==>
      forall k, i :: 0 <= k < |packs| && 0 <= i < |packs[k].ports| ==> Numbered(packs[k].ports[i])
    ensures Concat(PackOutcomes(packs)).Success? ==>
      forall d :: d in Concat(PackOutcomes(packs)).value <==>
        exists k, i :: 0 <= k < |packs| && 0 <= i < |packs[k].ports| && DescribedAt(packs, k, i, d)
  {
    var outs := PackOutcomes(packs);
    ConcatMeaning(outs);
    forall k | 0 <= k < |packs|
      ensures outs[k].Success? <==> forall i :: 0 <= i < |packs[k].ports| ==> Numbered(packs[k].ports[i])
      ensures outs[k].Success? ==> forall d :: d in outs[k].value <==>
        exists i :: 0 <= i < |packs[k].ports| && DescribedAt(packs, k, i, d)
    {
      var ports, cpname := packs[k].ports, PackName(packs[k]);
      PackMeaning(ports, cpname);
      if outs[k].Success? {
        forall d
          ensures d in outs[k].value <==> exists i :: 0 <= i < |ports| && DescribedAt(packs, k, i, d)
        {
          if d in outs[k].value {
            var i :| 0 <= i < |ports| && Describes(ports[i], cpname, d);
            assert DescribedAt(packs, k, i, d);
          }
        }
      }
    }
    if Concat(outs).Success? {
      forall d | d in Concat(outs).value
        ensures exists k, i :: 0 <= k < |packs| && 0 <= i < |packs[k].ports| && DescribedAt(packs, k, i, d)
      {
        var k :| 0 <= k < |outs| && outs[k].Success? && d in outs[k].value;
        var i :| 0 <= i < |packs[k].ports| && DescribedAt(packs, k, i, d);
      }
      forall d, k, i | 0 <= k < |packs| && 0 <= i < |packs[k].ports| && DescribedAt(packs, k, i, d)
        ensures d in Concat(outs).value
      {
        assert outs[k].Success? && d in outs[k].value;
      }
    }
  }

  /**
   * `discoverPortDetails`: the circuit packs of the reply (`None` when there
   * is no session) parsed into port descriptions; any exception gives none.
   */
  method DiscoverPortDetails(reply: Option<seq<CircuitPack>>) returns (ports: seq<PortDescription>)
    ensures reply.None? ==> ports == []
    ensures reply.Some? ==>
      ports == (if Concat(PackOutcomes(reply.value)).Success? then Concat(PackOutcomes(reply.value)).value else [])
    ensures forall d :: d in ports ==> Annotated(AsPort(d))
  {
    if reply.None? {
      return [];
    }
    var r := ParseCircuitPacks(reply.value);
    if r.Failure? {
      return [];
    }
    DiscoveryMeaning(reply.value);
    forall d | d in r.value
      ensures Annotated(AsPort(d))
    {
      var k, i :| 0 <= k < |reply.value| && 0 <= i < |reply.value[k].ports| && DescribedAt(reply.value, k, i, d);
    }
    return r.value;
  }

  /** The `info` container of the device's reply; a leaf it leaves out is `None`. */
  datatype DeviceInfo = DeviceInfo(
    vendor: Option<string>,
    model: Option<string>,
    softwareVersion: Option<string>,
    serialId: Option<string>,
    nodeNumber: Option<string>,
    longitude: Option<string>,
    latitude: Option<string>)

  const NotLoaded := "not loaded"

  /** The exception `Long.valueOf` raises on a chassis id that is not a number. */
  datatype DetailsError = ChassisIdNotANumber(text: string)

  /** The position annotations: both coordinates, or neither when one is missing. */
  function Location(info: DeviceInfo): (m: map<string, string>)
    ensures info.longitude.Some? && info.latitude.Some? ==>
      m == map["longitude" := info.longitude.value, "latitude" := info.latitude.value]
    ensures info.longitude.None? || info.latitude.None? ==> m == map[]
  {
    if info.longitude.Some? && info.latitude.Some? then
      map["longitude" := info.longitude.value, "latitude" := info.latitude.value]
    else map[]
  }

  /**
   * `discoverDeviceDetails`: no description for a device missing from the
   * NETCONF device map; otherwise a ROADM whose fields come from the `info`
   * container (`None` when there is no session), each defaulting to
   * "not loaded", and whose chassis id is the node number read as a `long`.
   */
  function DiscoverDeviceDetails(registered: bool, info: Option<DeviceInfo>): (r: Result<Option<DeviceDetails>, DetailsError>)
    ensures !registered ==> r == Success(None)
    ensures registered && info.None? ==> r == Failure(ChassisIdNotANumber(NotLoaded))
    ensures registered && info.Some? ==>
      (r.Success? <==> ParseLong(Leaf(info.value.nodeNumber, NotLoaded)).Some?)
    ensures r.Success? && r.value.Some? ==>
      info.Some? &&
      r.value.value == DeviceDetails(ROADM, Leaf(info.value.vendor, NotLoaded), Leaf(info.value.model, NotLoaded),
                                     Leaf(info.value.softwareVersion, NotLoaded), Leaf(info.value.serialId, NotLoaded),
                                     ChassisNumber(ParseLong(Leaf(info.value.nodeNumber, NotLoaded)).value),
                                     Location(info.value))
  {
    if !registered then Success(None)
    else
      var fields := if info.Some? then info.value else DeviceInfo(None, None, None, None, None, None, None);
      var chassis := Leaf(fields.nodeNumber, NotLoaded);
      assert NotLoaded[0] == 'n';
      match ParseLong(chassis)
      case None => Failure(ChassisIdNotANumber(chassis))
      case Some(id) =>
        Success(Some(DeviceDetails(ROADM, Leaf(fields.vendor, NotLoaded), Leaf(fields.model, NotLoaded),
                                   Leaf(fields.softwareVersion, NotLoaded), Leaf(fields.serialId, NotLoaded),
                                   ChassisNumber(id), Location(fields))))
  }

  /** A node number written in decimal becomes the chassis id. */
  lemma ChassisFromNodeNumber(info: DeviceInfo, n: nat)
    requires info.nodeNumber == Some(NatToString(n)) && n <= MaxLong
    ensures DiscoverDeviceDetails(true, Some(info)).Success?
    ensures DiscoverDeviceDetails(true, Some(info)).value.Some?
    ensures DiscoverDeviceDetails(true, Some(info)).value.value.chassisId == ChassisNumber(n)
  {
    ParseRendered(n);
  }
}
