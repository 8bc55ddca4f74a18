/**
 * The per-device cache of the connections the driver has created, and the
 * process-wide registry that hands out one cache per device.
 */
module ConnectionCache {
  import opened Net
  import opened RoadmConnection

  class OpenRoadmConnectionCache {
    const deviceId: DeviceId
    /** A hash set of connection objects: membership is object identity. */
    var connections: set<OpenRoadmConnection>

    constructor (deviceId: DeviceId)
      ensures this.deviceId == deviceId && connections == {}
    {
      this.deviceId := deviceId;
      connections := {};
    }

    /** Whether some cached connection carries this name. */
    ghost predicate HasName(name: string)
      reads this
    {
      exists c :: c in connections && c.data.connectionName == name
    }

    function Size(): (n: nat)
      reads this
      ensures n == |connections|
    {
      |connections|
    }

    /** A cached connection with this name, or null when there is none; which one, among several, is unspecified. */
    method Get(name: string) returns (c: OpenRoadmConnection?)
      ensures c == null <==> !HasName(name)
      ensures c != null ==> c in connections && c.data.connectionName == name
    {
      if x :| x in connections && x.data.connectionName == name {
        c := x;
      } else {
        c := null;
      }
    }

    /** Adds the object; adding an object already present changes nothing. */
    method Add(c: OpenRoadmConnection)
      modifies this
      ensures connections == old(connections) + {c}
    {
      connections := connections + {c};
    }

    /** Removes every cached connection whose name is that of `c`. */
    method Remove(c: OpenRoadmConnection)
      modifies this
      ensures connections == set x | x in old(connections) && x.data.connectionName != c.data.connectionName
      ensures !HasName(c.data.connectionName)
    {
      connections := set x | x in connections && x.data.connectionName != c.data.connectionName;
    }
  }

  /** The registry of caches, keyed by device. */
  class CacheRegistry {
    var instances: map<DeviceId, OpenRoadmConnectionCache>

    constructor ()
      ensures instances == map[]
    {
      instances := map[];
    }

    /** Every cache is registered under its own device, so distinct devices never share a cache. */
    ghost predicate Valid()
      reads this
    {
      forall d :: d in instances ==> instances[d].deviceId == d
    }

    /** The registered cache of the device, created empty and registered on first use. */
    method GetInstance(deviceId: DeviceId) returns (cache: OpenRoadmConnectionCache)
      requires Valid()
      modifies this
      ensures Valid()
      ensures cache.deviceId == deviceId && deviceId in instances && instances[deviceId] == cache
      ensures forall d :: d in instances && d != deviceId ==> instances[d] != cache
      ensures deviceId in old(instances) ==> cache == old(instances)[deviceId] && instances == old(instances)
      ensures deviceId !in old(instances) ==>
        fresh(cache) && cache.connections == {} && instances == old(instances)[deviceId := cache]
    {
      if deviceId in instances {
        cache := instances[deviceId];
      } else {
        cache := new OpenRoadmConnectionCache(deviceId);
        instances := instances[deviceId := cache];
      }
    }
  }
}
