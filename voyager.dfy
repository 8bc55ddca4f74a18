/**
 * The Voyager driver of the OpenConfig agent: decoding a logical channel id
 * (voyager, side, port) into the switch's interface and transponder names,
 * validating a frequency, and building the NCLU commands that set a
 * channel's admin state, a transponder's frequency and a bridge VLAN.  C's
 * truncating division, `uint32_t` to `int` conversion and the sizes of the
 * buffers the commands are printed into are modelled.
 */
module Voyager {
  import opened Wrappers
  import opened Strings

  const ClientSide := 1
  const LineSide := 2
  /** The reply (and the command text) the driver uses for every error. */
  const Error := "-1"
  const Commit := "commit"

  /** C's `/` on `int`: the quotient rounded toward zero. */
  function CDiv(a: int, b: int): (q: int)
    requires b > 0
    ensures a >= 0 ==> 0 <= a - q * b < b
    ensures a < 0 ==> -b < a - q * b <= 0
  {
    if a >= 0 then a / b else -((-a) / b)
  }

  /** C's `%` on `int`: the remainder takes the sign of the dividend. */
  function CMod(a: int, b: int): (r: int)
    requires b > 0
    ensures a >= 0 ==> r == a % b
    ensures a < 0 ==> -b < r <= 0
  {
    a - b * CDiv(a, b)
  }

  const TwoTo31: int := 0x8000_0000
  const TwoTo32: int := 0x1_0000_0000

  /** A `uint32_t` passed where C expects an `int`: values from 2^31 up wrap to negatives. */
  function ToInt32(u: nat): (i: int)
    requires u < TwoTo32
    ensures -TwoTo31 <= i < TwoTo31
    ensures (u - i) % TwoTo32 == 0
  {
    if u < TwoTo31 then u else u - TwoTo32
  }

  // ---------------------------------------------------------------------
  // Logical channel ids: voyager * 1000 + side * 100 + port

  /**
   * `getVoyagerFromId`: everything above the last three digits; a negative id
   * is truncated toward zero, so it never gives a positive voyager.
   */
  function GetVoyagerFromId(id: int): (v: int)
    ensures id >= 0 ==> v >= 0 && id == v * 1000 + id % 1000
    ensures id < 0 ==> v <= 0 && v == -((-id) / 1000)
  {
    CDiv(id, 1000)
  }

  /** `getSideFromId`: the hundreds digit when it is 1 (client) or 2 (line), otherwise -1. */
  function GetSideFromId(id: int): (side: int)
    ensures side == -1 || side == ClientSide || side == LineSide
    ensures side != -1 <==> id >= 0 && 100 <= id % 1000 < 300
    ensures side != -1 ==> side == (id % 1000) / 100
  {
    var side := CDiv(CMod(id, 1000), 100);
    if side < 1 || side > 2 then -1 else side
  }

  /** The highest port number of a side: 12 client ports, 4 line ports. */
  function MaxPort(side: int): int {
    if side == ClientSide then 12 else 4
  }

  /**
   * `getPortFromId`: the last two digits, checked against the side's port
   * range; -1 for a bad port or side -1.  Any other side is not checked.
   */
  function GetPortFromId(id: int, side: int): (port: int)
    ensures side == -1 ==> port == -1
    ensures side == ClientSide || side == LineSide ==>
      (port != -1 <==> id >= 0 && 1 <= id % 100 <= MaxPort(side))
    ensures port != -1 && (side == ClientSide || side == LineSide) ==> port == id % 100
    ensures side != -1 && side != ClientSide && side != LineSide ==> port == CMod(CMod(id, 1000), 100)
  {
    var port := CMod(CMod(id, 1000), 100);
    LastTwoDigits(id);
    if side == -1 then -1
    else if side == ClientSide && (port < 1 || port > 12) then -1
    else if side == LineSide && (port < 1 || port > 4) then -1
    else port
  }

  /** An id naming an existing port: a side of 1 or 2 and a port in that side's range. */
  predicate ValidChannel(id: int) {
    GetPortFromId(id, GetSideFromId(id)) != -1
  }

  /** An id naming one of the line-side (transponder) ports. */
  predicate LineChannel(id: int) {
    ValidChannel(id) && GetSideFromId(id) == LineSide
  }

  lemma Mod100Unique(a: int, q: int, r: int)
    requires a == 100 * q + r && 0 <= r < 100
    ensures a % 100 == r
  {
  }

  lemma Mod1000Unique(a: int, q: int, r: int)
    requires a == 1000 * q + r && 0 <= r < 1000
    ensures a % 1000 == r && a / 1000 == q
  {
  }

  lemma ModOfMod(id: int)
    requires id >= 0
    ensures (id % 1000) % 100 == id % 100
  {
    var q, r := id / 1000, id % 1000;
    Mod100Unique(id, 10 * q + r / 100, r % 100);
  }

  /** Two C remainders leave the last two digits of a non-negative id, and a non-positive value otherwise. */
  lemma LastTwoDigits(id: int)
    ensures id >= 0 ==> CMod(CMod(id, 1000), 100) == id % 100
    ensures id < 0 ==> CMod(CMod(id, 1000), 100) <= 0
  {
    if id >= 0 {
      ModOfMod(id);
    }
  }

  /** The numbering plan: a voyager, a side and a port in range make an id that decodes to them. */
  lemma ChannelIdRoundTrip(voyager: nat, side: int, port: int)
    requires side == ClientSide || side == LineSide
    requires 1 <= port <= MaxPort(side)
    ensures var id := voyager * 1000 + side * 100 + port;
      GetVoyagerFromId(id) == voyager && GetSideFromId(id) == side &&
      GetPortFromId(id, side) == port && ValidChannel(id)
  {
    var id := voyager * 1000 + side * 100 + port;
    Mod1000Unique(id, voyager, side * 100 + port);
    Mod100Unique(id, voyager * 10 + side, port);
  }

  /** Conversely, every valid id is voyager * 1000 + side * 100 + port of what it decodes to. */
  lemma ValidChannelDecomposes(id: int)
    requires ValidChannel(id)
    ensures var side := GetSideFromId(id);
      id == GetVoyagerFromId(id) * 1000 + side * 100 + GetPortFromId(id, side)
  {
    ModOfMod(id);
    var r := id % 1000;
    assert r == (r / 100) * 100 + r % 100;
  }

  // ---------------------------------------------------------------------
  // Interface and transponder names

  /**
   * `mapIndexToInterface`: client ports are "swp<port>", line ports
   * "swpL<port>", anything else "-1"; the name fits the 6-byte buffer.
   */
  function MapIndexToInterface(id: int): (r: string)
    ensures |r| < 6
    ensures r == Error <==> !ValidChannel(id)
    ensures ValidChannel(id) && GetSideFromId(id) == ClientSide ==> r == "swp" + NatToString(id % 100)
    ensures ValidChannel(id) && GetSideFromId(id) == LineSide ==> r == "swpL" + NatToString(id % 100)
  {
    var side := GetSideFromId(id);
    var port := GetPortFromId(id, side);
    if port == -1 then Error
    else
      NatToStringLength(port, 2);
      if side == ClientSide then "swp" + NatToString(port)
      else if side == LineSide then "swpL" + NatToString(port)
      else Error
  }

  /** `mapIndexToTransponder`: line ports are "L<port>", anything else "-1"; fits the 3-byte buffer. */
  function MapIndexToTransponder(id: int): (r: string)
    ensures |r| < 3
    ensures r == Error <==> !LineChannel(id)
    ensures LineChannel(id) ==> r == "L" + NatToString(id % 100)
  {
    var side := GetSideFromId(id);
    var port := GetPortFromId(id, side);
    if port == -1 then Error
    else if side != LineSide then Error
    else
      assert port < 10;
      var r := "L" + NatToString(port);
      assert r[0] == 'L';
      r
  }

  /** Interface names identify the port: two ids with the same interface name differ only in the voyager digit. */
  lemma InterfaceNameIdentifiesPort(a: int, b: int)
    requires MapIndexToInterface(a) != Error
    ensures MapIndexToInterface(a) == MapIndexToInterface(b) <==> ValidChannel(b) && a % 1000 == b % 1000
  {
    var ra, rb := MapIndexToInterface(a), MapIndexToInterface(b);
    ValidChannelDecomposes(a);
    if ValidChannel(b) {
      ValidChannelDecomposes(b);
      ModOfMod(a);
      ModOfMod(b);
      NatToStringInjective(a % 100, b % 100);
      var sa, sb := GetSideFromId(a), GetSideFromId(b);
      if sa != sb {
        var client := if sa == ClientSide then ra else rb;
        var line := if sa == ClientSide then rb else ra;
        assert client[3..] == NatToString((if sa == ClientSide then a else b) % 100);
        assert IsDigit(client[3]) && line[3] == 'L';
      }
      if ra == rb {
        assert sa == sb;
        var n := if sa == ClientSide then 3 else 4;
        assert ra[n..] == NatToString(a % 100) && rb[n..] == NatToString(b % 100);
        assert a % 1000 == sa * 100 + a % 100 && b % 1000 == sb * 100 + b % 100;
      }
    }
  }

  // ---------------------------------------------------------------------
  // Frequencies

  /**
   * `convertFrequencyStrToDouble` as an integer test: the text, read with
   * `atol` as MHz, is a frequency only strictly between 191 and 197 THz
   * (`None` stands for the -1.0 error value); it must fit the 15-byte copy.
   */
  function ConvertFrequency(s: string): (r: Option<int>)
    requires |s| < 15
    ensures r.Some? <==> 191_000_000 < CAtol(s) < 197_000_000
    ensures r.Some? ==> r.value == CAtol(s)
  {
    var mhz := CAtol(s);
    if 191_000_000 < mhz < 197_000_000 then Some(mhz) else None
  }

  /** A frequency printed in MHz converts back to itself exactly when it is in range. */
  lemma ConvertFrequencyRoundTrip(mhz: nat)
    requires mhz < Pow10(14)
    ensures |NatToString(mhz)| < 15
    ensures ConvertFrequency(NatToString(mhz)) == if 191_000_000 < mhz < 197_000_000 then Some(mhz) else None
  {
    NatToStringLength(mhz, 14);
    CAtolNatToString(mhz);
  }

  /** `n` printed with exactly `k` digits, zero-padded on the left. */
  function ZeroPad(n: nat, k: nat): (r: string)
    requires n < Pow10(k)
    ensures |r| == k && AllDigits(r) && DigitsValue(r) == n
    decreases k
  {
    if k == 0 then ""
    else
      var r := ZeroPad(n / 10, k - 1) + [DigitChar(n % 10)];
      assert r[..|r| - 1] == ZeroPad(n / 10, k - 1);
      r
  }

  /** `%f` of a frequency of `mhz` MHz printed in THz: the integral THz, a point, six decimals. */
  function FixedTHz(mhz: nat): (r: string)
    ensures |r| >= 8 && r[|r| - 7] == '.'
    ensures AllDigits(r[..|r| - 7]) && AllDigits(r[|r| - 6..])
    ensures DigitsValue(r[..|r| - 7]) == mhz / 1_000_000 && DigitsValue(r[|r| - 6..]) == mhz % 1_000_000
  {
    assert Pow10(6) == 1_000_000;
    var whole := NatToString(mhz / 1_000_000);
    var frac := ZeroPad(mhz % 1_000_000, 6);
    DigitsValueNatToString(mhz / 1_000_000);
    PointSplits(whole, frac);
    whole + "." + frac
  }

  /** A number printed as whole part, point, six decimals splits back into its parts. */
  lemma PointSplits(whole: string, frac: string)
    requires |whole| > 0 && |frac| == 6
    ensures var r := whole + "." + frac;
      |r| >= 8 && r[|r| - 7] == '.' && r[..|r| - 7] == whole && r[|r| - 6..] == frac
  {
    var r := whole + "." + frac;
    assert r[..|r| - 7] == whole;
    assert r[|r| - 6..] == frac;
  }

  // ---------------------------------------------------------------------
  // Commands

  /** "add|del interface <ifc> link down": DISABLE adds the link-down state, ENABLE deletes it. */
  function LinkDownCommand(verb: string, ifc: string): string {
    verb + " interface " + ifc + " link down"
  }

  /** "add interface <transponder> power <dBm>", with `%f` of -35.0 (disable) or 0.0 (enable). */
  function PowerCommand(transponder: string, enable: bool): string {
    "add interface " + transponder + " power " + (if enable then "0.000000" else "-35.000000")
  }

  /** What setting a channel's admin state replies and which commands it posts, in order. */
  datatype Outcome = Outcome(reply: string, sent: seq<string>)

  /**
   * `voyagerSetChannelState` as specified: a client port takes one link-down
   * command (DISABLE adds it, ENABLE deletes it, any other value posts "-1"),
   * a line port takes its transponder power command and its link-down
   * command; each posted batch ends with "commit"; a bad id posts nothing.
   */
  function ChannelState(id: int, val: string): (o: Outcome)
    requires LineChannel(id) ==> val == "ENABLE" || val == "DISABLE"
    ensures !ValidChannel(id) ==> o == Outcome(Error, [])
    ensures ValidChannel(id) && GetSideFromId(id) == ClientSide ==>
      o.sent == [o.reply, Commit] &&
      o.reply == (if val == "DISABLE" then LinkDownCommand("add", "swp" + NatToString(id % 100))
                  else if val == "ENABLE" then LinkDownCommand("del", "swp" + NatToString(id % 100))
                  else Error)
    ensures LineChannel(id) ==>
      var ifc := "swpL" + NatToString(id % 100);
      var power := PowerCommand("L" + NatToString(id % 100), val == "ENABLE");
      var link := LinkDownCommand(if val == "ENABLE" then "del" else "add", ifc);
      o == Outcome(power + " && " + link, [power, link, Commit])
    ensures |o.reply| < 100
  {
    var side := GetSideFromId(id);
    if side == ClientSide && ValidChannel(id) then
      var ifc := MapIndexToInterface(id);
      var cmd := if val == "DISABLE" then LinkDownCommand("add", ifc)
                 else if val == "ENABLE" then LinkDownCommand("del", ifc)
                 else Error;
      Outcome(cmd, [cmd, Commit])
    else if side == LineSide && ValidChannel(id) then
      var transponder := MapIndexToTransponder(id);
      var ifc := MapIndexToInterface(id);
      var power := PowerCommand(transponder, val == "ENABLE");
      var link := LinkDownCommand(if val == "ENABLE" then "del" else "add", ifc);
      Outcome(power + " && " + link, [power, link, Commit])
    else Outcome(Error, [])
  }

  /** "add interface <transponder> frequency <THz>". */
  function FrequencyCommand(transponder: string, mhz: nat): string {
    "add interface " + transponder + " frequency " + FixedTHz(mhz)
  }

  /**
   * `getIndexFromName`: the channel index at the end of a name, everything
   * after the first `sep`, read with `atoi`; a name without `sep` is read
   * whole.
   */
  function IndexFromName(name: string, sep: char): (id: int)
    requires IndexFits(name, sep)
    ensures sep !in name ==> id == CAtol(name)
    ensures forall k :: 0 <= k < |name| && name[k] == sep && (forall j :: 0 <= j < k ==> name[j] != sep) ==>
      id == CAtol(name[k + 1..])
  {
    var start := if sep in name then FirstIndex(name, sep) + 1 else 0;
    CAtol(name[start..])
  }

  /** `strchr`: the position of the first `c` in `s`. */
  function FirstIndex(s: string, c: char): (i: nat)
    requires c in s
    ensures i < |s| && s[i] == c && forall k :: 0 <= k < i ==> s[k] != c
  {
    if s[0] == c then 0 else FirstIndex(s[1..], c) + 1
  }

  /** A name "<prefix><sep><n>", its prefix free of `sep` and `n` short enough, gives back `n`. */
  lemma IndexOfNumberedName(prefix: string, sep: char, n: nat)
    requires sep !in prefix && |NatToString(n)| <= 9
    ensures IndexFits(prefix + [sep] + NatToString(n), sep)
    ensures IndexFromName(prefix + [sep] + NatToString(n), sep) == n
  {
    var name := prefix + [sep] + NatToString(n);
    assert name[|prefix|] == sep && name[..|prefix|] == prefix;
    assert name[|prefix| + 1..] == NatToString(n);
    CAtolNatToString(n);
  }

  /** The index buffer holds ten characters: the part after the separator must fit with its terminator. */
  predicate IndexFits(name: string, sep: char) {
    |name| - (if sep in name then FirstIndex(name, sep) + 1 else 0) <= 9
  }

  /**
   * `voyagerSetFrequency` as specified: only a line port with a frequency
   * strictly between 191 and 197 THz gets "add interface L<port> frequency
   * <THz>" and "commit"; everything else replies "-1" and posts nothing.
   */
  function Frequency(channel: string, val: string): (o: Outcome)
    requires IndexFits(channel, '-') && |val| < 15
    ensures var id := IndexFromName(channel, '-');
      o.reply != Error <==> LineChannel(id) && ConvertFrequency(val).Some?
    ensures o.reply == Error ==> o.sent == []
    ensures o.reply != Error ==>
      var id := IndexFromName(channel, '-');
      o.reply == FrequencyCommand("L" + NatToString(id % 100), CAtol(val)) && o.sent == [o.reply, Commit]
    ensures |o.reply| < 50
  {
    var id := IndexFromName(channel, '-');
    if GetSideFromId(id) != LineSide then Outcome(Error, [])
    else
      var transponder := MapIndexToTransponder(id);
      if transponder == Error then Outcome(Error, [])
      else match ConvertFrequency(val)
        case None => Outcome(Error, [])
        case Some(mhz) =>
          NatToStringLength(mhz / 1_000_000, 3);
          var cmd := FrequencyCommand(transponder, mhz);
          assert cmd[0] == 'a';
          Outcome(cmd, [cmd, Commit])
  }

  /** "add|del interface <ifc> bridge vids <vlan>", the VLAN printed with `%d`. */
  function VlanCommand(verb: string, ifc: string, vlan: int): string {
    verb + " interface " + ifc + " bridge vids " + IntToString(vlan)
  }

  lemma IntToStringLength(i: int)
    requires -TwoTo31 <= i < TwoTo31
    ensures |IntToString(i)| <= 11
  {
    if i < 0 {
      NatToStringLength(-i, 10);
    } else {
      NatToStringLength(i, 10);
    }
  }

  /**
   * `voyagerSetVlan` as specified: with two valid channel ids and ADD or
   * DELETE, both interfaces get the bridge-vids command (add or del) and
   * "commit" follows; the reply joins the two commands with " && ".  Any bad
   * id or operation replies "-1" and posts nothing.
   */
  function Vlan(a: int, b: int, vlan: int, operation: string): (o: Outcome)
    requires -TwoTo31 <= vlan < TwoTo31
    ensures o.reply != Error <==> ValidChannel(a) && ValidChannel(b) && (operation == "ADD" || operation == "DELETE")
    ensures o.reply == Error ==> o.sent == []
    ensures o.reply != Error ==>
      var verb := if operation == "ADD" then "add" else "del";
      var first := VlanCommand(verb, MapIndexToInterface(a), vlan);
      var second := VlanCommand(verb, MapIndexToInterface(b), vlan);
      o == Outcome(first + " && " + second, [first, second, Commit])
    ensures forall c :: c in o.sent ==> |c| < 50
    ensures |o.reply| < 100
  {
    var first := MapIndexToInterface(a);
    var second := MapIndexToInterface(b);
    if first == Error || second == Error then Outcome(Error, [])
    else if operation != "ADD" && operation != "DELETE" then Outcome(Error, [])
    else
      var verb := if operation == "ADD" then "add" else "del";
      IntToStringLength(vlan);
      var c1 := VlanCommand(verb, first, vlan);
      var c2 := VlanCommand(verb, second, vlan);
      assert (c1 + " && " + c2)[0] == 'a' || (c1 + " && " + c2)[0] == 'd';
      Outcome(c1 + " && " + c2, [c1, c2, Commit])
  }

  /**
   * The agent's link to one Voyager switch: the NCLU commands posted to it so
   * far, in order (the HTTPS post, `system()` and the one-second pauses are
   * not modelled).
   */
  class VoyagerLink {
    var sent: seq<string>

    constructor ()
      ensures sent == []
    {
      sent := [];
    }

    /** `sendCommandVoyager`: posts one command (a "-1" is posted too). */
    method SendCommand(cmd: string)
      modifies this
      ensures sent == old(sent) + [cmd]
    {
      sent := sent + [cmd];
    }

    /** `voyagerSetChannelState`: decodes the id, posts the commands in order and returns the reply. */
    method SetChannelState(lchId: nat, val: string) returns (cmd: string)
      requires lchId < TwoTo32
      requires LineChannel(ToInt32(lchId)) ==> val == "ENABLE" || val == "DISABLE"
      modifies this
      ensures cmd == ChannelState(ToInt32(lchId), val).reply
      ensures sent == old(sent) + ChannelState(ToInt32(lchId), val).sent
    {
      var id := ToInt32(lchId);
      var side := GetSideFromId(id);
      if side == -1 {
        return Error;
      }
      if side == ClientSide {
        var ifc := MapIndexToInterface(id);
        if ifc == Error {
          return Error;
        }
        if val == "DISABLE" {
          cmd := LinkDownCommand("add", ifc);
        } else if val == "ENABLE" {
          cmd := LinkDownCommand("del", ifc);
        } else {
          cmd := Error;
        }
        SendCommand(cmd);
        SendCommand(Commit);
      } else {
        var transponder := MapIndexToTransponder(id);
        var ifc := MapIndexToInterface(id);
        if transponder == Error || ifc == Error {
          return Error;
        }
        var power := PowerCommand(transponder, val == "ENABLE");
        var link := LinkDownCommand(if val == "ENABLE" then "del" else "add", ifc);
        SendCommand(power);
        SendCommand(link);
        SendCommand(Commit);
        cmd := power + " && " + link;
      }
    }

    /** `voyagerSetFrequency`: posts the frequency command and "commit" for a valid line port and frequency. */
    method SetFrequency(channel: string, val: string) returns (cmd: string)
      requires IndexFits(channel, '-') && |val| < 15
      modifies this
      ensures cmd == Frequency(channel, val).reply
      ensures sent == old(sent) + Frequency(channel, val).sent
    {
      var id := IndexFromName(channel, '-');
      if GetSideFromId(id) != LineSide {
        return Error;
      }
      var transponder := MapIndexToTransponder(id);
      if transponder == Error {
        return Error;
      }
      var frequency := ConvertFrequency(val);
      if frequency.None? {
        return Error;
      }
      cmd := FrequencyCommand(transponder, frequency.value);
      SendCommand(cmd);
      SendCommand(Commit);
    }

    /** `voyagerSetVlan`: posts the two bridge-vids commands and "commit" for valid ids and operation. */
    method SetVlan(lchId: nat, assignmentId: nat, vlanId: nat, operation: string) returns (cmd: string)
      requires lchId < TwoTo32 && assignmentId < TwoTo32 && vlanId < TwoTo32
      modifies this
      ensures cmd == Vlan(ToInt32(lchId), ToInt32(assignmentId), ToInt32(vlanId), operation).reply
      ensures sent == old(sent) + Vlan(ToInt32(lchId), ToInt32(assignmentId), ToInt32(vlanId), operation).sent
    {
      var first := MapIndexToInterface(ToInt32(lchId));
      if first == Error {
        return Error;
      }
      var second := MapIndexToInterface(ToInt32(assignmentId));
      if second == Error {
        return Error;
      }
      var verb;
      if operation == "ADD" {
        verb := "add";
      } else if operation == "DELETE" {
        verb := "del";
      } else {
        return Error;
      }
      var c1 := VlanCommand(verb, first, ToInt32(vlanId));
      var c2 := VlanCommand(verb, second, ToInt32(vlanId));
      SendCommand(c1);
      SendCommand(c2);
      SendCommand(Commit);
      cmd := c1 + " && " + c2;
    }
  }

  /** The interface vectors of the driver's unit-test file. */
  lemma InterfaceTestVectors()
    ensures MapIndexToInterface(1101) == "swp1" && MapIndexToInterface(1112) == "swp12"
    ensures MapIndexToInterface(1201) == "swpL1" && MapIndexToInterface(1204) == "swpL4"
    ensures forall id :: id in [1100, 1113, 1001, 1301, 1200, 1205] ==> MapIndexToInterface(id) == Error
  {
  }

  /** The transponder vectors of the driver's unit-test file. */
  lemma TransponderTestVectors()
    ensures MapIndexToTransponder(1201) == "L1" && MapIndexToTransponder(1204) == "L4"
    ensures forall id :: id in [1101, 1112, 1100, 1113, 1001, 1301, 1200, 1205] ==> MapIndexToTransponder(id) == Error
  {
  }

  /**
   * The bad-id admin-state vectors of the driver's unit-test file (its two
   * line-side vectors expect commands the code does not build).
   */
  lemma ChannelStateErrorVectors()
    ensures forall id :: id in [1100, 1115, 1001, 1301, 1200, 1205] ==>
      ChannelState(id, "ENABLE") == Outcome(Error, []) && ChannelState(id, "DISABLE") == Outcome(Error, [])
  {
    forall id | id in [1100, 1115, 1001, 1301, 1200, 1205]
      ensures !ValidChannel(id)
    {
    }
  }
}
