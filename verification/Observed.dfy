/** What a served Kubernetes service looks like at the broker, told by texts and tags alone: by its ports and nodes, and not
    by the way the controller matches and searches. */
module Observed {
  import opened Results
  import opened Text
  import opened Tags
  import opened Names
  import opened Members
  import opened Resources
  import opened BrokerState
  import opened Ownership
  import opened Desired

  predicate Carries(tags: seq<Tag>, scope: string, value: string)
  {
    Lookup(tags, scope) == Some(value)
  }

  /** The object is tagged as one of the service, in the cluster and under the owner of the configuration. */
  predicate Belongs(cfg: Config, name: ObjectName, tags: seq<Tag>)
  {
    && Carries(tags, "owner", cfg.standardTags["owner"].value)
    && Carries(tags, "cluster", cfg.cluster)
    && Carries(tags, "service", name.namespace + "/" + name.name)
  }

  predicate ListensOn(port: ServicePort, v: VirtualServer)
  {
    v.spec.port == Format(port.port) && v.spec.ipProtocol == port.protocol
  }

  predicate TaggedWith(port: ServicePort, tags: seq<Tag>)
  {
    Carries(tags, "port", port.protocol + "/" + Format(port.port))
  }

  /** A virtual server listens on the port and sends to the node port, by a pool with the nodes as members; a TCP port
      also has a monitor that checks the node port. */
  ghost predicate PortServed(port: ServicePort, nodes: seq<Node>,
                             vs: seq<VirtualServer>, ps: seq<Pool>, ms: seq<Monitor>)
  {
    exists v, p :: v in vs && p in ps && v.spec.poolId == p.id &&
                   ListensOn(port, v) && v.spec.memberPort == Format(port.nodePort) &&
                   TaggedWith(port, p.tags) && MembersFollow(p.spec.members, nodes) &&
                   PortMonitored(port, p.spec.activeMonitorIds, ms)
  }

  ghost predicate PortMonitored(port: ServicePort, ids: seq<string>, ms: seq<Monitor>)
  {
    if port.protocol == "TCP" then
      exists x :: x in ms && ids == [x.id] && TaggedWith(port, x.tags) && x.spec.monitorPort == Format(port.nodePort)
    else ids == []
  }

  /** All ports are served, every server is for a port, every pool for a server, and every monitor for a pool. */
  ghost predicate PortsServed(ports: seq<ServicePort>, nodes: seq<Node>,
                              vs: seq<VirtualServer>, ps: seq<Pool>, ms: seq<Monitor>)
  {
    && (forall i {:trigger PortServed(ports[i], nodes, vs, ps, ms)} :: 0 <= i < |ports| ==>
          PortServed(ports[i], nodes, vs, ps, ms))
    && (forall v :: v in vs ==> exists i :: 0 <= i < |ports| && ListensOn(ports[i], v))
    && (forall p :: p in ps ==> exists v :: v in vs && v.spec.poolId == p.id)
    && (forall x :: x in ms ==> exists p :: p in ps && x.id in p.spec.activeMonitorIds)
  }

  lemma TaggedExact(port: ServicePort, tags: seq<Tag>)
    ensures PortOf(tags) == PortValue(NewMapping(port)) <==> TaggedWith(port, tags)
    ensures MatchTags(NewMapping(port), tags) <==> TaggedWith(port, tags)
  {
    hide Lookup, Format, CheckTags;
    assert PortValue(NewMapping(port))[|port.protocol|] == '/';
    assert port.protocol + "/" + Format(port.port) == port.protocol + ("/" + Format(port.port));
  }

  lemma ListensExact(port: ServicePort, v: VirtualServer)
    ensures MatchVirtualServer(NewMapping(port), v) <==> ListensOn(port, v)
    ensures MatchNodePort(NewMapping(port), v) <==> v.spec.memberPort == Format(port.nodePort)
  {
  }

  lemma MonitoredExact(port: ServicePort, ids: seq<string>, ms: seq<Monitor>)
    ensures MonitorsDone(NewMapping(port), ids, ms) <==> PortMonitored(port, ids, ms)
  {
    hide TaggedWith, PortValue, PortOf, Format;
    forall x: Monitor ensures PortOf(x.tags) == PortValue(NewMapping(port)) <==> TaggedWith(port, x.tags) {
      TaggedExact(port, x.tags);
    }
  }

  lemma PortExact(port: ServicePort, nodes: seq<Node>, vs: seq<VirtualServer>, ps: seq<Pool>, ms: seq<Monitor>)
    ensures PortDone(NewMapping(port), nodes, vs, ps, ms) <==> PortServed(port, nodes, vs, ps, ms)
  {
    hide TaggedWith, PortValue, PortOf, Format, MonitorsDone, PortMonitored, Addresses, NodeAddresses, MembersFollow,
      MatchVirtualServer, MatchNodePort, ListensOn, NewMapping;
    forall v, p: Pool
      ensures ServerDone(NewMapping(port), p.id, v) <==>
              ListensOn(port, v) && v.spec.memberPort == Format(port.nodePort) && v.spec.poolId == p.id
      ensures PoolDone(NewMapping(port), nodes, p.spec.activeMonitorIds, p) <==>
              TaggedWith(port, p.tags) && MembersFollow(p.spec.members, nodes)
      ensures MonitorsDone(NewMapping(port), p.spec.activeMonitorIds, ms) <==> PortMonitored(port, p.spec.activeMonitorIds, ms)
    {
      ListensExact(port, v);
      TaggedExact(port, p.tags);
      AddressesOfNodes(p.spec.members, nodes);
      MonitoredExact(port, p.spec.activeMonitorIds, ms);
    }
  }

  /** The state that runs work towards is the one in which the ports are served. */
  lemma ConvergedIsServed(ports: seq<ServicePort>, nodes: seq<Node>,
                          vs: seq<VirtualServer>, ps: seq<Pool>, ms: seq<Monitor>)
    ensures Converged(ports, nodes, vs, ps, ms) <==> PortsServed(ports, nodes, vs, ps, ms)
  {
    hide PortDone, PortServed, ListensOn, MatchVirtualServer, NewMapping;
    forall i | 0 <= i < |ports|
      ensures PortDone(NewMapping(ports[i]), nodes, vs, ps, ms) <==> PortServed(ports[i], nodes, vs, ps, ms)
    {
      PortExact(ports[i], nodes, vs, ps, ms);
    }
    forall i, v | 0 <= i < |ports| ensures MatchVirtualServer(NewMapping(ports[i]), v) <==> ListensOn(ports[i], v) {
      ListensExact(ports[i], v);
    }
  }

  /** The broker's objects of the service. */
  ghost predicate IsListOf<T(!new)>(cfg: Config, name: ObjectName, own: seq<Resource<T>>, all: seq<Resource<T>>)
  {
    forall x :: x in own <==> x in all && Belongs(cfg, name, x.tags)
  }

  /** The queries of a service list exactly what belongs to it. */
  lemma OwnLists(cfg: Config, name: ObjectName, st: Store)
    ensures IsListOf(cfg, name, Servers(cfg, Print(name), st), st.servers)
    ensures IsListOf(cfg, name, Pools(cfg, Print(name), st), st.pools)
    ensures IsListOf(cfg, name, Monitors(cfg, Print(name), st), st.monitors)
  {
    hide CheckTags, Lookup;
    forall tags ensures CheckTags(tags, Query(cfg, Print(name))) <==> Belongs(cfg, name, tags) {
      QueryExact(cfg, Print(name), tags);
    }
  }

  /** The service is served by what belongs to it at the broker. */
  ghost predicate ServiceServed(cfg: Config, name: ObjectName, ports: seq<ServicePort>, nodes: seq<Node>, st: Store)
  {
    exists vs, ps, ms ::
      && IsListOf(cfg, name, vs, st.servers) && IsListOf(cfg, name, ps, st.pools) && IsListOf(cfg, name, ms, st.monitors)
      && PortsServed(ports, nodes, vs, ps, ms)
  }

  /** Nothing at the broker belongs to the service. */
  ghost predicate NothingLeft(cfg: Config, name: ObjectName, st: Store)
  {
    && (forall v :: v in st.servers ==> !Belongs(cfg, name, v.tags))
    && (forall p :: p in st.pools ==> !Belongs(cfg, name, p.tags))
    && (forall x :: x in st.monitors ==> !Belongs(cfg, name, x.tags))
  }

  ghost predicate HasServers(cfg: Config, name: ObjectName, st: Store)
  {
    exists v :: v in st.servers && Belongs(cfg, name, v.tags)
  }

  /** All servers of the service listen at the address. */
  ghost predicate ServersAt(cfg: Config, name: ObjectName, st: Store, address: string)
  {
    forall v :: v in st.servers && Belongs(cfg, name, v.tags) ==> v.spec.ipAddress == address
  }

  /** All pools of the service with the tag of one of the ports have the nodes as members. */
  ghost predicate PoolsFollow(cfg: Config, name: ObjectName, ports: seq<ServicePort>, nodes: seq<Node>, st: Store)
  {
    forall p, i :: p in st.pools && Belongs(cfg, name, p.tags) && 0 <= i < |ports| && TaggedWith(ports[i], p.tags) ==>
                     MembersFollow(p.spec.members, nodes)
  }

  lemma MonitoredByMembers(port: ServicePort, ids: seq<string>, ms: seq<Monitor>, ms': seq<Monitor>)
    requires forall x :: x in ms <==> x in ms'
    requires PortMonitored(port, ids, ms)
    ensures PortMonitored(port, ids, ms')
  {
    hide TaggedWith;
  }

  lemma PortServedByMembers(port: ServicePort, nodes: seq<Node>,
                            vs: seq<VirtualServer>, ps: seq<Pool>, ms: seq<Monitor>,
                            vs': seq<VirtualServer>, ps': seq<Pool>, ms': seq<Monitor>)
    requires (forall v :: v in vs <==> v in vs') && (forall p :: p in ps <==> p in ps') && forall x :: x in ms <==> x in ms'
    requires PortServed(port, nodes, vs, ps, ms)
    ensures PortServed(port, nodes, vs', ps', ms')
  {
    hide ListensOn, TaggedWith, MembersFollow, PortMonitored;
    var v, p :| v in vs && p in ps && v.spec.poolId == p.id &&
                ListensOn(port, v) && v.spec.memberPort == Format(port.nodePort) &&
                TaggedWith(port, p.tags) && MembersFollow(p.spec.members, nodes) &&
                PortMonitored(port, p.spec.activeMonitorIds, ms);
    MonitoredByMembers(port, p.spec.activeMonitorIds, ms, ms');
    assert v in vs' && p in ps';
  }

  /** Only what is in the lists matters. */
  lemma ServedByMembers(ports: seq<ServicePort>, nodes: seq<Node>,
                        vs: seq<VirtualServer>, ps: seq<Pool>, ms: seq<Monitor>,
                        vs': seq<VirtualServer>, ps': seq<Pool>, ms': seq<Monitor>)
    requires (forall v :: v in vs <==> v in vs') && (forall p :: p in ps <==> p in ps') && forall x :: x in ms <==> x in ms'
    requires PortsServed(ports, nodes, vs, ps, ms)
    ensures PortsServed(ports, nodes, vs', ps', ms')
  {
    hide ListensOn, PortServed;
    forall i | 0 <= i < |ports| ensures PortServed(ports[i], nodes, vs', ps', ms') {
      PortServedByMembers(ports[i], nodes, vs, ps, ms, vs', ps', ms');
    }
    forall p | p in ps' ensures exists v :: v in vs' && v.spec.poolId == p.id {
      var v :| v in vs && v.spec.poolId == p.id;
      assert v in vs';
    }
    forall x | x in ms' ensures exists p :: p in ps' && x.id in p.spec.activeMonitorIds {
      var p :| p in ps && x.id in p.spec.activeMonitorIds;
      assert p in ps';
    }
  }

  /** A service is converged exactly if it is served. */
  lemma ConvergedMeans(cfg: Config, name: ObjectName, ports: seq<ServicePort>, nodes: seq<Node>, st: Store)
    ensures var key := Print(name);
            Converged(ports, nodes, Servers(cfg, key, st), Pools(cfg, key, st), Monitors(cfg, key, st)) <==>
              ServiceServed(cfg, name, ports, nodes, st)
  {
    hide Converged, Servers, Pools, Monitors, PortsServed, Belongs;
    var key := Print(name);
    OwnLists(cfg, name, st);
    ConvergedIsServed(ports, nodes, Servers(cfg, key, st), Pools(cfg, key, st), Monitors(cfg, key, st));
    if ServiceServed(cfg, name, ports, nodes, st) {
      var vs, ps, ms :|
        && IsListOf(cfg, name, vs, st.servers) && IsListOf(cfg, name, ps, st.pools) && IsListOf(cfg, name, ms, st.monitors)
        && PortsServed(ports, nodes, vs, ps, ms);
      ServedByMembers(ports, nodes, vs, ps, ms, Servers(cfg, key, st), Pools(cfg, key, st), Monitors(cfg, key, st));
    }
  }

  lemma NothingLeftExact(cfg: Config, name: ObjectName, st: Store)
    ensures NothingLeft(cfg, name, st) <==>
            Servers(cfg, Print(name), st) == [] && Pools(cfg, Print(name), st) == [] && Monitors(cfg, Print(name), st) == []
  {
    hide Belongs, Servers, Pools, Monitors;
    OwnLists(cfg, name, st);
    var vs, ps, ms := Servers(cfg, Print(name), st), Pools(cfg, Print(name), st), Monitors(cfg, Print(name), st);
    assert (vs != [] ==> vs[0] in vs) && (ps != [] ==> ps[0] in ps) && (ms != [] ==> ms[0] in ms);
  }

  lemma ServersExact(cfg: Config, name: ObjectName, st: Store, address: string)
    ensures HasServers(cfg, name, st) <==> Servers(cfg, Print(name), st) != []
    ensures ServersAt(cfg, name, st, address) <==>
            forall v :: v in Servers(cfg, Print(name), st) ==> v.spec.ipAddress == address
  {
    hide Belongs, Servers, Pools, Monitors;
    OwnLists(cfg, name, st);
    var vs := Servers(cfg, Print(name), st);
    assert vs != [] ==> vs[0] in vs;
  }

  /** A server of the service listens on the port. */
  ghost predicate HasListener(cfg: Config, name: ObjectName, port: ServicePort, st: Store)
  {
    exists v :: v in st.servers && Belongs(cfg, name, v.tags) && ListensOn(port, v)
  }

  lemma ListenerExact(cfg: Config, name: ObjectName, port: ServicePort, st: Store)
    ensures HasServer(NewMapping(port), Servers(cfg, Print(name), st)) <==> HasListener(cfg, name, port, st)
  {
    hide Belongs, Servers, MatchVirtualServer, ListensOn;
    OwnLists(cfg, name, st);
    forall v ensures MatchVirtualServer(NewMapping(port), v) <==> ListensOn(port, v) {
      ListensExact(port, v);
    }
  }

  lemma AllServedExact(cfg: Config, name: ObjectName, ports: seq<ServicePort>, st: Store)
    ensures AllServed(ports, Servers(cfg, Print(name), st)) <==>
            forall i :: 0 <= i < |ports| ==> HasListener(cfg, name, ports[i], st)
  {
    hide HasServer, HasListener, Servers;
    forall i | 0 <= i < |ports|
      ensures HasServer(NewMapping(ports[i]), Servers(cfg, Print(name), st)) <==> HasListener(cfg, name, ports[i], st)
    {
      ListenerExact(cfg, name, ports[i], st);
    }
  }

  lemma PoolsFollowExact(cfg: Config, name: ObjectName, ports: seq<ServicePort>, nodes: seq<Node>, st: Store)
    ensures PoolsFollow(cfg, name, ports, nodes, st) <==>
            forall p :: p in Pools(cfg, Print(name), st) && HasSomePort(ports, p.tags) ==>
                          Addresses(p.spec.members) == NodeAddresses(nodes)
  {
    hide Belongs, Pools, Addresses, NodeAddresses, MembersFollow, TaggedWith, MatchTags, NewMapping;
    OwnLists(cfg, name, st);
    forall p: Pool ensures Addresses(p.spec.members) == NodeAddresses(nodes) <==> MembersFollow(p.spec.members, nodes) {
      AddressesOfNodes(p.spec.members, nodes);
    }
    forall i, p: Pool | 0 <= i < |ports| ensures MatchTags(NewMapping(ports[i]), p.tags) <==> TaggedWith(ports[i], p.tags) {
      TaggedExact(ports[i], p.tags);
    }
  }
}
