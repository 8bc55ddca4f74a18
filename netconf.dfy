/**
 * The NETCONF edit-config documents the OpenROADM driver sends, and the
 * device session that receives them.  Each document is one `Edit`; deletes
 * carry the `operation="delete"` attribute of section 7.2 of RFC 6241.
 */
module Netconf {
  import opened RoadmConnection

  datatype Edit =
    | CreateMediaChannels(mcs: seq<MediaChannel>)
      /** An NMC whose `supportingInterface` is `None` is written without that element. */
    | CreateNetworkMediaChannels(nmcs: seq<NetworkMediaChannel>)
    | CreateRoadmConnection(name: string, srcInterface: string, dstInterface: string)
    | DeleteRoadmConnection(name: string)
    | DeleteInterfaces(names: seq<string>)

  predicate IsDelete(e: Edit) {
    e.DeleteRoadmConnection? || e.DeleteInterfaces?
  }

  /** Whether the device accepts the next edit; a device with no answer left refuses. */
  function Answer(replies: seq<bool>): bool {
    |replies| > 0 && replies[0]
  }

  /** The answers left after `k` edits: each edit uses up the next answer, if any is left. */
  function Consume(replies: seq<bool>, k: nat): seq<bool> {
    if k == 0 || replies == [] then replies else Consume(replies[1..], k - 1)
  }

  /**
   * A NETCONF session: the documents sent so far, in order, and the answers
   * the device will give to the coming ones (the device itself is not modelled).
   */
  /** The NETCONF session: the documents sent so far and the answers still to come. */
  datatype ReadState = ReadState(log: seq<Edit>, replies: seq<bool>)

  class NetconfDevice {
    var log: seq<Edit>
    var replies: seq<bool>

    /** The session as a value. */
    ghost function State(): ReadState
      reads this
    {
      ReadState(log, replies)
    }

    constructor (replies: seq<bool>)
      ensures log == [] && this.replies == replies
    {
      log := [];
      this.replies := replies;
    }

    /** `editCrossConnect`: sends one edit-config on the running datastore; true when the device accepts it. */
    method EditConfig(e: Edit) returns (ok: bool)
      modifies this
      ensures log == old(log) + [e]
      ensures ok == Answer(old(replies)) && replies == Consume(old(replies), 1)
    {
      log := log + [e];
      ok := Answer(replies);
      replies := Consume(replies, 1);
    }
  }

  /** How many of `n` edits go out when each is sent only after the previous one was accepted. */
  function Issued(n: nat, replies: seq<bool>): (k: nat)
    ensures n == 0 ==> k == 0
    ensures n > 0 ==> 1 <= k <= n
  {
    if n == 0 then 0
    else if !Answer(replies) then 1
    else 1 + Issued(n - 1, Consume(replies, 1))
  }

  /** The device accepts each of the next `n` edits. */
  predicate AllAccepted(n: nat, replies: seq<bool>) {
    n <= |replies| && forall i :: 0 <= i < n ==> replies[i]
  }

  /** When every edit is accepted, every edit is sent. */
  lemma {:induction false} AcceptedMeansAllIssued(n: nat, replies: seq<bool>)
    requires AllAccepted(n, replies)
    ensures Issued(n, replies) == n
    decreases n
  {
    if n > 0 {
      assert Consume(replies, 1) == replies[1..];
      AcceptedMeansAllIssued(n - 1, Consume(replies, 1));
    }
  }

  /** Sends up to three edits in order, stopping at the first one the device refuses. */
  method SendInOrder(device: NetconfDevice, plan: seq<Edit>) returns (ok: bool)
    requires |plan| == 3
    modifies device
    ensures device.log == old(device.log) + plan[..Issued(3, old(device.replies))]
    ensures device.replies == Consume(old(device.replies), Issued(3, old(device.replies)))
    ensures ok == AllAccepted(3, old(device.replies))
  {
    ghost var r0 := device.replies;
    ok := device.EditConfig(plan[0]);
    if !ok {
      assert plan[..1] == [plan[0]];
      return;
    }
    ghost var r1 := device.replies;
    ok := device.EditConfig(plan[1]);
    if !ok {
      assert Issued(3, r0) == 1 + Issued(2, r1) == 2;
      assert plan[..2] == [plan[0], plan[1]];
      return;
    }
    ghost var r2 := device.replies;
    ok := device.EditConfig(plan[2]);
    assert Issued(3, r0) == 1 + Issued(2, r1) == 2 + Issued(1, r2) == 3;
    assert plan[..3] == [plan[0], plan[1], plan[2]];
    if ok {
      assert AllAccepted(3, r0) by {
        assert r0[0] && r0[1] == r1[0] && r0[2] == r2[0];
      }
    } else {
      assert !AllAccepted(3, r0) by {
        assert |r0| < 3 || !r0[2];
      }
    }
  }
}
