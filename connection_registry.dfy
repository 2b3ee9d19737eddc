/** The registry of open connections (`ConnectionRegistry`): drivers under
    generated `conn_<N>` ids, and the SSH tunnels attached to them. Tunnels
    are represented by the configuration they were opened with; closing one
    is recorded in `closings`, in order with the drivers disconnected. */
module ConnectionRegistries {
  import opened Wrappers
  import opened Strings
  import opened ConnectionUtils
  import opened SqlServerDrivers

  datatype Closing = TunnelClosed(id: seq<char>) | TunnelsCleared | DriverDisconnected(id: seq<char>)

  function ConnId(n: nat): seq<char> {
    "conn_" + NatToString(n)
  }

  /** The ids of generated connections are distinct. */
  lemma ConnIdsDistinct(n: nat, m: nat)
    ensures ConnId(n) == ConnId(m) <==> n == m
  {
    if n != m {
      PrefixedNumberInjective("conn_", n, m);
    }
  }

  class ConnectionRegistry {
    var connections: map<seq<char>, SqlServerDriver?>
    var tunnels: map<seq<char>, SshTunnelConfig>
    var counter: nat
    var closings: seq<Closing>

    /** No id the counter has yet to hand out is registered. */
    ghost predicate Valid()
      reads this
    {
      forall n: nat :: n >= counter ==> ConnId(n) !in connections
    }

    /** The counter starts at 1. */
    constructor()
      ensures Valid() && connections == map[] && tunnels == map[] && counter == 1 && closings == []
    {
      connections := map[];
      tunnels := map[];
      counter := 1;
      closings := [];
    }

    /** `add`: the driver under `conn_<counter>`, an id never handed out
        before. */
    method Add(driver: SqlServerDriver?) returns (id: seq<char>)
      requires Valid()
      modifies this
      ensures Valid()
      ensures id == ConnId(old(counter)) && id !in old(connections)
      ensures connections == old(connections)[id := driver] && counter == old(counter) + 1
      ensures tunnels == old(tunnels) && closings == old(closings)
    {
      id := ConnId(counter);
      connections := connections[id := driver];
      counter := counter + 1;
      forall n: nat | n >= counter ensures ConnId(n) !in connections {
        ConnIdsDistinct(n, old(counter));
      }
    }

    /** `remove`: the tunnel is closed first, then the driver is
        disconnected if it reports connected; both entries go, every other
        id keeps its driver and tunnel, and an unknown id changes nothing. */
    method Remove(id: seq<char>)
      requires Valid()
      modifies this, if id in connections && connections[id] != null then {connections[id]} else {}
      ensures Valid() && counter == old(counter)
      ensures connections == old(connections) - {id} && tunnels == old(tunnels) - {id}
      ensures |connections| == |old(connections)| - (if id in old(connections) then 1 else 0)
      ensures id in old(connections) && old(connections)[id] != null ==> !old(connections)[id].connected
      ensures closings == old(closings) + (if id in old(tunnels) then [TunnelClosed(id)] else [])
        + (if old(id in connections && connections[id] != null && connections[id].connected)
           then [DriverDisconnected(id)] else [])
    {
      CloseTunnel(id);
      DropDriver(id);
    }

    /** The tunnel half of `remove`. */
    method CloseTunnel(id: seq<char>)
      modifies this
      ensures connections == old(connections) && counter == old(counter)
      ensures tunnels == old(tunnels) - {id}
      ensures closings == old(closings) + (if id in old(tunnels) then [TunnelClosed(id)] else [])
    {
      if id in tunnels {
        tunnels := tunnels - {id};
        closings := closings + [TunnelClosed(id)];
      }
    }

    /** The driver half of `remove`. */
    method DropDriver(id: seq<char>)
      requires Valid()
      modifies this, if id in connections && connections[id] != null then {connections[id]} else {}
      ensures Valid() && counter == old(counter) && tunnels == old(tunnels)
      ensures connections == old(connections) - {id}
      ensures |connections| == |old(connections)| - (if id in old(connections) then 1 else 0)
      ensures id in old(connections) && old(connections)[id] != null ==> !old(connections)[id].connected
      ensures closings == old(closings)
        + (if old(id in connections && connections[id] != null && connections[id].connected)
           then [DriverDisconnected(id)] else [])
    {
      if id in connections {
        var driver := connections[id];
        if driver != null && driver.IsConnected() {
          driver.Disconnect();
          closings := closings + [DriverDisconnected(id)];
        }
        connections := connections - {id};
        assert connections.Keys == old(connections).Keys - {id};
      }
    }

    /** `get` */
    method Get(id: seq<char>) returns (r: Result<SqlServerDriver?>)
      ensures id in connections ==> r == Ok(connections[id])
      ensures id !in connections ==> r == Err("Connection '" + id + "' not found")
    {
      if id in connections {
        return Ok(connections[id]);
      }
      return Err("Connection '" + id + "' not found");
    }

    /** `exists` */
    predicate Exists(id: seq<char>)
      reads this
    {
      id in connections
    }

    /** `count` */
    function Count(): nat
      reads this
    {
      |connections|
    }

    /** `attachTunnel`: replaces any tunnel of the id, registered or not. */
    method AttachTunnel(id: seq<char>, tunnel: SshTunnelConfig)
      modifies this
      ensures tunnels == old(tunnels)[id := tunnel]
      ensures connections == old(connections) && counter == old(counter)
      ensures closings == old(closings) + (if id in old(tunnels) then [TunnelClosed(id)] else [])
    {
      if id in tunnels {
        closings := closings + [TunnelClosed(id)];
      }
      tunnels := tunnels[id := tunnel];
    }

    /** `getTunnel` */
    function GetTunnel(id: seq<char>): (t: Option<SshTunnelConfig>)
      reads this
      ensures t.Some? <==> id in tunnels
    {
      if id in tunnels then Some(tunnels[id]) else None
    }

    /** `clear`: every tunnel closed, then every connected driver
        disconnected; both maps are left empty. */
    method Clear()
      requires Valid()
      modifies this, connections.Values
      ensures Valid() && counter == old(counter)
      ensures connections == map[] && tunnels == map[] && Count() == 0
      ensures forall d :: d in old(connections).Values && d != null ==> !d.connected
      ensures |closings| > |old(closings)| && closings[..|old(closings)|] == old(closings)
      ensures closings[|old(closings)|] == TunnelsCleared
      ensures forall k :: |old(closings)| < k < |closings| ==> closings[k].DriverDisconnected?
    {
      tunnels := map[];
      closings := closings + [TunnelsCleared];
      var drivers := connections;
      var remaining := drivers.Keys;
      while remaining != {}
        invariant remaining <= drivers.Keys && connections == drivers && tunnels == map[] && counter == old(counter)
        invariant forall id :: id in drivers && id !in remaining && drivers[id] != null ==> !drivers[id].connected
        invariant |closings| > |old(closings)| && closings[..|old(closings)|] == old(closings)
        invariant closings[|old(closings)|] == TunnelsCleared
        invariant forall k :: |old(closings)| < k < |closings| ==> closings[k].DriverDisconnected?
        decreases remaining
      {
        var id :| id in remaining;
        var driver := drivers[id];
        if driver != null && driver.IsConnected() {
          driver.Disconnect();
          closings := closings + [DriverDisconnected(id)];
        }
        remaining := remaining - {id};
      }
      connections := map[];
    }
  }
}
