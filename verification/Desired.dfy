/** What a run works towards: every port served, every node a member, nothing left over. */
module Desired {
  import opened Text
  import opened Tags
  import opened Names
  import opened Members
  import opened Resources
  import opened BrokerState
  import opened Ownership

  // ---------------------------------------------------------------- the desired state

  predicate MonitorDone(m: Mapping, x: Monitor)
  {
    PortOf(x.tags) == PortValue(m) && x.spec.monitorPort == Format(m.nodePort)
  }

  ghost predicate MonitorsDone(m: Mapping, ids: seq<string>, monitors: seq<Monitor>)
  {
    if m.protocol == TCP then exists x :: x in monitors && MonitorDone(m, x) && ids == [x.id] else ids == []
  }

  predicate PoolDone(m: Mapping, nodes: seq<Node>, ids: seq<string>, p: Pool)
  {
    && PortOf(p.tags) == PortValue(m)
    && Addresses(p.spec.members) == NodeAddresses(nodes)
    && p.spec.activeMonitorIds == ids
  }

  predicate ServerDone(m: Mapping, poolId: string, v: VirtualServer)
  {
    MatchVirtualServer(m, v) && MatchNodePort(m, v) && v.spec.poolId == poolId
  }

  /** A port has its server, the server its pool with the nodes as members, and a TCP pool its monitor. */
  ghost predicate PortDone(m: Mapping, nodes: seq<Node>,
                           servers: seq<VirtualServer>, pools: seq<Pool>, monitors: seq<Monitor>)
  {
    exists v, p :: v in servers && p in pools && ServerDone(m, p.id, v) &&
                   PoolDone(m, nodes, p.spec.activeMonitorIds, p) &&
                   MonitorsDone(m, p.spec.activeMonitorIds, monitors)
  }

  predicate ForSomePort(ports: seq<ServicePort>, v: VirtualServer)
  {
    exists i :: 0 <= i < |ports| && MatchVirtualServer(NewMapping(ports[i]), v)
  }

  predicate HasServer(m: Mapping, servers: seq<VirtualServer>)
  {
    exists v :: v in servers && MatchVirtualServer(m, v)
  }

  /** Every port has a server, if perhaps not yet with the right pool. */
  predicate AllServed(ports: seq<ServicePort>, servers: seq<VirtualServer>)
  {
    forall i :: 0 <= i < |ports| ==> HasServer(NewMapping(ports[i]), servers)
  }

  predicate HasSomePort(ports: seq<ServicePort>, tags: seq<Tag>)
  {
    exists i :: 0 <= i < |ports| && MatchTags(NewMapping(ports[i]), tags)
  }

  ghost predicate UsedByServer(servers: seq<VirtualServer>, poolId: string)
  {
    exists v :: v in servers && v.spec.poolId == poolId
  }

  /** A server that a port needs uses the pool. */
  ghost predicate UsedByNeeded(ports: seq<ServicePort>, servers: seq<VirtualServer>, id: string)
  {
    exists v :: v in servers && ForSomePort(ports, v) && v.spec.poolId == id
  }

  lemma NoServerYet(ports: seq<ServicePort>)
    ensures forall id :: !UsedByNeeded(ports, [], id)
  {
  }

  lemma OneServerMore(ports: seq<ServicePort>, servers: seq<VirtualServer>, v: VirtualServer)
    ensures forall id :: UsedByNeeded(ports, servers + [v], id) <==>
                           UsedByNeeded(ports, servers, id) || (ForSomePort(ports, v) && v.spec.poolId == id)
  {
    hide ForSomePort;
    forall id
      ensures UsedByNeeded(ports, servers + [v], id) <==>
              UsedByNeeded(ports, servers, id) || (ForSomePort(ports, v) && v.spec.poolId == id)
    {
      assert v in servers + [v];
      if w :| w in servers && ForSomePort(ports, w) && w.spec.poolId == id {
        assert w in servers + [v];
      }
    }
  }

  lemma NeededLeft(ports: seq<ServicePort>, servers: seq<VirtualServer>, left: seq<VirtualServer>)
    requires forall v :: v in left <==> v in servers && ForSomePort(ports, v)
    ensures forall id :: UsedByNeeded(ports, servers, id) <==> UsedByServer(left, id)
  {
    hide ForSomePort;
  }

  ghost predicate UsedByPool(pools: seq<Pool>, monitorId: string)
  {
    exists p :: p in pools && monitorId in p.spec.activeMonitorIds
  }

  ghost predicate NoOrphans(ports: seq<ServicePort>,
                            servers: seq<VirtualServer>, pools: seq<Pool>, monitors: seq<Monitor>)
  {
    && (forall v :: v in servers ==> ForSomePort(ports, v))
    && (forall p :: p in pools ==> UsedByServer(servers, p.id))
    && (forall x :: x in monitors ==> UsedByPool(pools, x.id))
  }

  ghost predicate Converged(ports: seq<ServicePort>, nodes: seq<Node>,
                            servers: seq<VirtualServer>, pools: seq<Pool>, monitors: seq<Monitor>)
  {
    && (forall i :: 0 <= i < |ports| ==> PortDone(NewMapping(ports[i]), nodes, servers, pools, monitors))
    && NoOrphans(ports, servers, pools, monitors)
  }

  /** Ports are distinct as Kubernetes validates them: by port number and protocol. */
  predicate DistinctPorts(ports: seq<ServicePort>)
  {
    forall i, j :: 0 <= i < j < |ports| ==> ports[i].port != ports[j].port || ports[i].protocol != ports[j].protocol
  }

  /** Which is so exactly if no two of them have the same text in the port tag. */
  lemma DistinctPortsExact(ports: seq<ServicePort>)
    ensures DistinctPorts(ports) <==>
            forall i, j :: 0 <= i < j < |ports| ==>
                             ports[i].protocol + "/" + Format(ports[i].port) != ports[j].protocol + "/" + Format(ports[j].port)
  {
    hide Format;
    forall i, j | 0 <= i < j < |ports| && PortValue(NewMapping(ports[i])) == PortValue(NewMapping(ports[j]))
      ensures ports[i].protocol == ports[j].protocol && ports[i].port == ports[j].port
    {
      PortValueInjective(NewMapping(ports[i]), NewMapping(ports[j]));
    }
  }

  // ---------------------------------------------------------------- work on one port leaves the others done

  ghost predicate KeepsOtherPorts<T(!new)>(port: string, s: seq<Resource<T>>, s': seq<Resource<T>>)
  {
    forall x :: x in s && PortOf(x.tags) != port ==> x in s'
  }

  ghost predicate KeepsOtherServers(port: string, s: seq<VirtualServer>, s': seq<VirtualServer>)
  {
    forall v :: v in s && ServerPort(v) != port ==> v in s'
  }

  lemma OtherPortStaysDone(m: Mapping, done: Mapping, nodes: seq<Node>,
                           vs: seq<VirtualServer>, ps: seq<Pool>, ms: seq<Monitor>,
                           vs': seq<VirtualServer>, ps': seq<Pool>, ms': seq<Monitor>)
    requires PortDone(done, nodes, vs, ps, ms) && PortValue(done) != PortValue(m)
    requires KeepsOtherServers(PortValue(m), vs, vs')
    requires KeepsOtherPorts(PortValue(m), ps, ps') && KeepsOtherPorts(PortValue(m), ms, ms')
    ensures PortDone(done, nodes, vs', ps', ms')
  {
  }

  /** Work on port `i` leaves the ports before it served. */
  lemma EarlierPortsStayDone(ports: seq<ServicePort>, i: nat, nodes: seq<Node>,
                             vs: seq<VirtualServer>, ps: seq<Pool>, ms: seq<Monitor>,
                             vs': seq<VirtualServer>, ps': seq<Pool>, ms': seq<Monitor>)
    requires i < |ports| && DistinctPorts(ports)
    requires forall j :: 0 <= j < i ==> PortDone(NewMapping(ports[j]), nodes, vs, ps, ms)
    requires var port := PortValue(NewMapping(ports[i]));
             KeepsOtherServers(port, vs, vs') && KeepsOtherPorts(port, ps, ps') && KeepsOtherPorts(port, ms, ms')
    ensures forall j :: 0 <= j < i ==> PortDone(NewMapping(ports[j]), nodes, vs', ps', ms')
  {
    hide PortDone, KeepsOtherServers, KeepsOtherPorts, PortValue;
    forall j | 0 <= j < i ensures PortDone(NewMapping(ports[j]), nodes, vs', ps', ms') {
      var m, done := NewMapping(ports[i]), NewMapping(ports[j]);
      if PortValue(done) == PortValue(m) {
        PortValueInjective(done, m);
      }
      OtherPortStaysDone(m, done, nodes, vs, ps, ms, vs', ps', ms');
    }
  }

  // ---------------------------------------------------------------- what may be deleted

  /** A pool the loop does not keep is used by none of the servers that are left. */
  lemma PoolUnused(ports: seq<ServicePort>, servers: seq<VirtualServer>, pools: seq<Pool>, valid: set<string>, p: Pool)
    requires UniqueIds(pools) && p in pools && !(HasSomePort(ports, p.tags) && p.id in valid)
    requires forall v :: v in servers ==> RefersToPool(v, pools) && ForSomePort(ports, v) && v.spec.poolId in valid
    ensures forall v :: v in servers ==> v.spec.poolId != p.id
  {
  }

  lemma MonitorUnused(ports: seq<ServicePort>, pools: seq<Pool>, monitors: seq<Monitor>, valid: set<string>, x: Monitor)
    requires UniqueIds(monitors) && x in monitors && !(HasSomePort(ports, x.tags) && x.id in valid)
    requires forall p :: p in pools ==> PoolRefersToMonitors(p, monitors) && HasSomePort(ports, p.tags)
    requires forall p, id :: p in pools && id in p.spec.activeMonitorIds ==> id in valid
    ensures forall p :: p in pools ==> x.id !in p.spec.activeMonitorIds
  {
  }

  /** Once every port is served, keeping what the ports need and nothing else is all that is left to do. */
  lemma OrphansGone(ports: seq<ServicePort>, nodes: seq<Node>,
                    vs: seq<VirtualServer>, ps: seq<Pool>, ms: seq<Monitor>,
                    vs': seq<VirtualServer>, ps': seq<Pool>, ms': seq<Monitor>)
    requires forall i :: 0 <= i < |ports| ==> PortDone(NewMapping(ports[i]), nodes, vs, ps, ms)
    requires forall v :: v in vs' <==> v in vs && ForSomePort(ports, v)
    requires forall p :: p in ps' <==> p in ps && HasSomePort(ports, p.tags) && UsedByServer(vs', p.id)
    requires forall x :: x in ms' <==> x in ms && HasSomePort(ports, x.tags) && UsedByPool(ps', x.id)
    ensures Converged(ports, nodes, vs', ps', ms')
  {
    hide HasSomePort, ForSomePort, PortDone, UsedByServer, UsedByPool;
    forall i | 0 <= i < |ports| ensures PortDone(NewMapping(ports[i]), nodes, vs', ps', ms') {
      PortSurvives(ports, i, nodes, vs, ps, ms, vs', ps', ms');
    }
  }

  lemma PortSurvives(ports: seq<ServicePort>, i: nat, nodes: seq<Node>,
                     vs: seq<VirtualServer>, ps: seq<Pool>, ms: seq<Monitor>,
                     vs': seq<VirtualServer>, ps': seq<Pool>, ms': seq<Monitor>)
    requires i < |ports| && PortDone(NewMapping(ports[i]), nodes, vs, ps, ms)
    requires forall v :: v in vs && ForSomePort(ports, v) ==> v in vs'
    requires forall p :: p in ps && HasSomePort(ports, p.tags) && UsedByServer(vs', p.id) ==> p in ps'
    requires forall x :: x in ms && HasSomePort(ports, x.tags) && UsedByPool(ps', x.id) ==> x in ms'
    ensures PortDone(NewMapping(ports[i]), nodes, vs', ps', ms')
  {
  }

  /** In a state without orphans the searches find every pool and every monitor needed. */
  lemma AllNeeded(ports: seq<ServicePort>, vs: seq<VirtualServer>, ps: seq<Pool>, ms: seq<Monitor>)
    requires NoOrphans(ports, vs, ps, ms) && UniqueIds(ps) && UniqueIds(ms)
    requires forall v :: v in vs ==> RefersToPool(v, ps)
    requires forall p :: p in ps ==> PoolRefersToMonitors(p, ms)
    ensures forall p :: p in ps ==> HasSomePort(ports, p.tags)
    ensures forall x :: x in ms ==> HasSomePort(ports, x.tags)
  {
  }

  /** Without ports, converged means that nothing is left. */
  lemma ConvergedEmpty(nodes: seq<Node>, vs: seq<VirtualServer>, ps: seq<Pool>, ms: seq<Monitor>)
    ensures Converged([], nodes, vs, ps, ms) <==> vs == [] && ps == [] && ms == []
  {
    assert vs != [] ==> vs[0] in vs;
    assert ps != [] ==> ps[0] in ps;
    assert ms != [] ==> ms[0] in ms;
  }
}
