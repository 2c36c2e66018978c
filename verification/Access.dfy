/** The controller's access to the broker: creates stamp tags, listings filter by tags, deletes accept absence. */
module Access {
  import opened Results
  import opened Text
  import opened Tags
  import opened Names
  import opened Members
  import opened Resources
  import opened BrokerState
  import opened Ownership
  import opened Attachment
  import opened Broker

  /** A load balancer class; its tags are set on every server created for it. */
  datatype LbClass = LbClass(className: string, ipPoolId: string)

  function ClassTags(c: LbClass): seq<Tag>
  {
    [Tag(SCOPE_IP_POOL, c.ipPoolId), Tag(SCOPE_LB_CLASS, c.className)]
  }

  function ClassOf(v: VirtualServer): LbClass
  {
    LbClass(GetTag(v.tags, SCOPE_LB_CLASS), GetTag(v.tags, SCOPE_IP_POOL))
  }

  /** The tags that the configuration sets on every object: the owner, unless overridden, and additional ones. */
  function StandardTags(appName: string, additional: map<string, string>): (m: TagMap)
    ensures SCOPE_OWNER in m
    ensures m[SCOPE_OWNER].value == if SCOPE_OWNER in additional then additional[SCOPE_OWNER] else appName
    ensures m.Keys == additional.Keys + {SCOPE_OWNER}
    ensures forall scope :: scope in additional ==> m[scope].value == additional[scope]
  {
    map[SCOPE_OWNER := Tag(SCOPE_OWNER, appName)] + map k | k in additional :: Tag(k, additional[k])
  }

  function ObjectTags(cfg: Config, key: string): seq<Tag>
  {
    [Tag(SCOPE_CLUSTER, cfg.cluster), Tag(SCOPE_SERVICE, key)]
  }

  predicate OwnScope(scope: string)
  {
    scope == SCOPE_OWNER || scope == SCOPE_CLUSTER || scope == SCOPE_SERVICE
  }

  /** `tags` is what a create stamps on an object: standard tags, then cluster and service, then `extra`. */
  ghost predicate Stamped(cfg: Config, key: string, extra: seq<Tag>, tags: seq<Tag>)
  {
    IsNormal(Added(Added(cfg.standardTags, ObjectTags(cfg, key)), extra), tags)
  }

  lemma StampedScope(cfg: Config, key: string, extra: seq<Tag>, tags: seq<Tag>, scope: string)
    requires Stamped(cfg, key, extra, tags)
    requires forall t :: t in extra ==> t.scope != scope
    ensures var inner := Added(cfg.standardTags, ObjectTags(cfg, key));
            Lookup(tags, scope) == if scope in inner then Some(inner[scope].value) else None
  {
    hide Added, IsNormal, Lookup;
    var inner := Added(cfg.standardTags, ObjectTags(cfg, key));
    AddedOther(inner, extra, scope);
    NormalLookup(Added(inner, extra), tags, scope);
  }

  lemma StampedLookup(cfg: Config, key: string, extra: seq<Tag>, tags: seq<Tag>)
    requires Stamped(cfg, key, extra, tags)
    requires forall t :: t in extra ==> !OwnScope(t.scope)
    ensures Lookup(tags, SCOPE_OWNER) == Some(OwnerTag(cfg).value)
    ensures Lookup(tags, SCOPE_CLUSTER) == Some(cfg.cluster)
    ensures Lookup(tags, SCOPE_SERVICE) == Some(key)
  {
    hide Added, IsNormal, Lookup, Stamped;
    AddedAt(cfg.standardTags, ObjectTags(cfg, key), 0);
    AddedAt(cfg.standardTags, ObjectTags(cfg, key), 1);
    AddedOther(cfg.standardTags, ObjectTags(cfg, key), SCOPE_OWNER);
    StampedScope(cfg, key, extra, tags, SCOPE_OWNER);
    StampedScope(cfg, key, extra, tags, SCOPE_CLUSTER);
    StampedScope(cfg, key, extra, tags, SCOPE_SERVICE);
  }

  /** Whatever the configuration, an object is found by exactly the queries with its owner, cluster and service. */
  lemma TagRoundTrip(cfg: Config, key: string, extra: seq<Tag>, tags: seq<Tag>,
                     owner: string, cluster: string, service: string)
    requires Stamped(cfg, key, extra, tags)
    requires forall t :: t in extra ==> !OwnScope(t.scope)
    ensures CheckTags(tags, [Tag(SCOPE_OWNER, owner), Tag(SCOPE_CLUSTER, cluster), Tag(SCOPE_SERVICE, service)]) <==>
            owner == OwnerTag(cfg).value && cluster == cfg.cluster && service == key
  {
    hide Stamped, Lookup;
    StampedLookup(cfg, key, extra, tags);
    var q := [Tag(SCOPE_OWNER, owner), Tag(SCOPE_CLUSTER, cluster), Tag(SCOPE_SERVICE, service)];
    assert q[0] in q && q[1] in q && q[2] in q;
  }

  lemma StampedOwn(cfg: Config, key: string, extra: seq<Tag>, tags: seq<Tag>)
    requires Stamped(cfg, key, extra, tags)
    requires forall t :: t in extra ==> !OwnScope(t.scope)
    ensures CheckTags(tags, Query(cfg, key))
  {
    hide Stamped;
    TagRoundTrip(cfg, key, extra, tags, OwnerTag(cfg).value, cfg.cluster, key);
    assert OwnerTag(cfg) == Tag(SCOPE_OWNER, OwnerTag(cfg).value);
  }

  /** The further tags of a created object keep their values. */
  lemma ExtraTag(cfg: Config, key: string, extra: seq<Tag>, tags: seq<Tag>, i: nat)
    requires Stamped(cfg, key, extra, tags)
    requires i < |extra| && forall j :: i < j < |extra| ==> extra[j].scope != extra[i].scope
    ensures GetTag(tags, extra[i].scope) == extra[i].value
  {
    hide Added, IsNormal, Lookup;
    var inner := Added(cfg.standardTags, ObjectTags(cfg, key));
    AddedAt(inner, extra, i);
    NormalLookup(Added(inner, extra), tags, extra[i].scope);
  }

  /** A pool or monitor matches exactly the mappings with its protocol and source port. */
  lemma PortRoundTrip(cfg: Config, key: string, m: Mapping, tags: seq<Tag>, other: Mapping)
    requires Stamped(cfg, key, [PortTag(m)], tags)
    ensures MatchTags(other, tags) <==> other.protocol == m.protocol && other.sourcePort == m.sourcePort
  {
    ExtraTag(cfg, key, [PortTag(m)], tags, 0);
    if PortValue(other) == PortValue(m) {
      PortValueInjective(other, m);
    }
  }

  /** The tags of a created object, scope by scope: all the configuration sets but those, and the further ones. */
  lemma StampedExact(cfg: Config, key: string, extra: seq<Tag>, tags: seq<Tag>, scope: string)
    requires Stamped(cfg, key, extra, tags)
    requires forall t :: t in extra ==> t.scope != scope
    ensures Lookup(tags, scope) ==
            if scope == "cluster" then Some(cfg.cluster)
            else if scope == "service" then Some(key)
            else if scope in cfg.standardTags then Some(cfg.standardTags[scope].value) else None
  {
    hide Added, IsNormal, Lookup, Stamped;
    var own := ObjectTags(cfg, key);
    StampedScope(cfg, key, extra, tags, scope);
    AddedAt(cfg.standardTags, own, 0);
    AddedAt(cfg.standardTags, own, 1);
    if scope != "cluster" && scope != "service" {
      AddedOther(cfg.standardTags, own, scope);
    }
  }

  /** A created server carries the class and its pool, from which the class is read back. */
  lemma ClassRoundTrip(cfg: Config, key: string, cls: LbClass, v: VirtualServer)
    requires Stamped(cfg, key, ClassTags(cls), v.tags)
    ensures Lookup(v.tags, "lbclass") == Some(cls.className) && Lookup(v.tags, "ippoolid") == Some(cls.ipPoolId)
    ensures ClassOf(v) == cls
  {
    hide Added, IsNormal, Lookup;
    var inner := Added(cfg.standardTags, ObjectTags(cfg, key));
    var m := Added(inner, ClassTags(cls));
    AddedAt(inner, ClassTags(cls), 0);
    AddedAt(inner, ClassTags(cls), 1);
    NormalLookup(m, v.tags, "lbclass");
    NormalLookup(m, v.tags, "ippoolid");
  }

  /** A created pool or monitor carries protocol and source port. */
  lemma PortTagged(cfg: Config, key: string, m: Mapping, tags: seq<Tag>)
    requires Stamped(cfg, key, [PortTag(m)], tags)
    ensures Lookup(tags, "port") == Some(m.protocol + "/" + Format(m.sourcePort))
  {
    hide Added, IsNormal, Lookup;
    var inner := Added(cfg.standardTags, ObjectTags(cfg, key));
    AddedAt(inner, [PortTag(m)], 0);
    NormalLookup(Added(inner, [PortTag(m)]), tags, "port");
  }

  lemma ServiceTagsDiscoverable(cfg: Config, tags: seq<Tag>)
    requires IsNormal(Added(cfg.standardTags, [Tag(SCOPE_CLUSTER, cfg.cluster)]), tags)
    ensures CheckTags(tags, ClusterQuery(cfg))
  {
    var extra := [Tag(SCOPE_CLUSTER, cfg.cluster)];
    var m := Added(cfg.standardTags, extra);
    AddedAt(cfg.standardTags, extra, 0);
    AddedOther(cfg.standardTags, extra, SCOPE_OWNER);
    NormalLookup(m, tags, SCOPE_OWNER);
    NormalLookup(m, tags, SCOPE_CLUSTER);
  }

  /** What a listing of TCP monitors by type and tags finds. */
  function TypedMonitors(monitors: seq<Monitor>): (r: seq<Monitor>)
    ensures forall m :: m in r <==> m in monitors && m.spec.resourceType == "LbTcpMonitor"
  {
    if monitors == [] then []
    else if monitors[0].spec.resourceType == TCP_MONITOR_TYPE then [monitors[0]] + TypedMonitors(monitors[1..])
    else TypedMonitors(monitors[1..])
  }

  lemma {:induction false} TypedAppend(monitors: seq<Monitor>, x: Monitor)
    ensures TypedMonitors(monitors + [x]) ==
            TypedMonitors(monitors) + if x.spec.resourceType == TCP_MONITOR_TYPE then [x] else []
  {
    if monitors == [] {
      assert monitors + [x] == [x] && [x][1..] == [];
    } else {
      TypedAppend(monitors[1..], x);
      assert (monitors + [x])[1..] == monitors[1..] + [x] && (monitors + [x])[0] == monitors[0];
    }
  }

  lemma {:induction false} TypedKeepsAll(monitors: seq<Monitor>)
    requires forall x :: x in monitors ==> x.spec.resourceType == TCP_MONITOR_TYPE
    ensures TypedMonitors(monitors) == monitors
  {
    if monitors != [] {
      TypedKeepsAll(monitors[1..]);
      assert monitors == [monitors[0]] + monitors[1..];
    }
  }

  /** A listing by type is complete exactly when every monitor carries the type; untyped ones are never found. */
  lemma UntypedNeverFound(monitors: seq<Monitor>)
    ensures TypedMonitors(monitors) == monitors <==> forall x :: x in monitors ==> x.spec.resourceType == TCP_MONITOR_TYPE
    ensures (forall x :: x in monitors ==> x.spec.resourceType == "") ==> TypedMonitors(monitors) == []
  {
    if forall x :: x in monitors ==> x.spec.resourceType == TCP_MONITOR_TYPE {
      TypedKeepsAll(monitors);
    }
    var found := TypedMonitors(monitors);
    assert found != [] ==> found[0] in found;
  }

  /** The loop of every listing by tags. */
  method FilterByTags<T(!new)>(q: seq<Tag>, s: seq<Resource<T>>) returns (r: seq<Resource<T>>)
    ensures r == Select(q, s)
  {
    r := [];
    for i := 0 to |s|
      invariant r == Select(q, s[..i])
    {
      SelectAppend(q, s[..i], s[i]);
      assert s[..i + 1] == s[..i] + [s[i]];
      if CheckTags(s[i].tags, q) {
        r := r + [s[i]];
      }
    }
    assert s[..|s|] == s;
  }

  method OnlyTyped(monitors: seq<Monitor>) returns (r: seq<Monitor>)
    ensures r == TypedMonitors(monitors)
  {
    r := [];
    for i := 0 to |monitors|
      invariant r == TypedMonitors(monitors[..i])
    {
      assert monitors[..i + 1] == monitors[..i] + [monitors[i]];
      TypedAppend(monitors[..i], monitors[i]);
      if monitors[i].spec.resourceType == TCP_MONITOR_TYPE {
        r := r + [monitors[i]];
      }
    }
    assert monitors[..|monitors|] == monitors;
  }

  class NsxtAccess {
    const broker: InMemoryBroker
    const cfg: Config

    constructor (broker: InMemoryBroker, cfg: Config)
      ensures this.broker == broker && this.cfg == cfg
    {
      this.broker, this.cfg := broker, cfg;
    }

    /** The broker state is well formed, and the other runs behave. */
    ghost predicate Ready(key: string)
      reads broker
    {
      broker.EnvOk(cfg, key) && Base(cfg, broker.View()) && broker.Chained()
    }

    /** What a listing of all services' objects assumes of the other runs. */
    ghost predicate ListReady()
      reads broker
    {
      broker.KeepsBase(cfg, None) && Base(cfg, broker.View()) && broker.Chained()
    }

    /** A call of the run for `key`: what the other runs did before it is what that run relies on. */
    method Call(key: string, locked: bool, ghost writes: bool) returns (up: bool)
      requires Ready(key)
      modifies broker
      ensures Ready(key) && broker.Turned(cfg, key, locked, old(broker.View()), broker.View()) && broker.Chained()
      ensures broker.log == old(broker.log)
      ensures broker.failures == if up then old(broker.failures) else old(broker.failures) + 1
      ensures broker.attempts == if writes then old(broker.attempts) + 1 else old(broker.attempts)
      ensures old(broker.Down()) ==> !up && broker.Down()
    {
      hide InMemoryBroker.Down, InMemoryBroker.Alone, InMemoryBroker.ChainedAt, Base, Rely;
      up := broker.Turn(cfg, Some(key), locked, writes);
    }

    lemma FoundInOrder(key: string, locked: bool, before: Store)
      requires broker.Turned(cfg, key, locked, before, broker.View())
      ensures UniqueIds(broker.View().monitors) && Monitors(cfg, key, broker.View()) == Monitors(cfg, key, before)
      ensures forall id :: id in broker.View().ipPools ==> InRange(broker.View().ipPools[id])
    {
      hide InMemoryBroker.EnvOk, InMemoryBroker.Alone, CheckTags;
    }

    // -------------------------------------------------------------- load balancer services, under lbLock

    method CreateLoadBalancerService(key: string) returns (r: Result<LbService>, ghost at: Store)
      requires Ready(key)
      modifies broker
      ensures broker.Turned(cfg, key, true, old(broker.View()), at) && broker.Chained()
      ensures r.Err? ==> broker.Idle(at, old(broker.log)) && broker.failures > old(broker.failures)
      ensures r.Ok? ==>
                && CheckTags(r.value.tags, ClusterQuery(cfg))
                && r.value.spec == LbServiceSpec([], Some(cfg.routerId))
                && broker.View() == CreateService(at, r.value.tags, r.value.spec)
                && r.value == broker.View().services[|at.services|]
                && broker.Wrote(key, at, old(broker.log), old(broker.failures))
    {
      hide InMemoryBroker.Down, InMemoryBroker.Turned, InMemoryBroker.ChainedAt, Ready;
      var up := Call(key, true, true);
      at := broker.View();
      if !up {
        return Err(Fault), at;
      }
      var m := Add(cfg.standardTags, [Tag(SCOPE_CLUSTER, cfg.cluster)]);
      var tags := Normalize(m);
      ServiceTagsDiscoverable(cfg, tags);
      var created := broker.CreateLoadBalancerService(key, Resource("", tags, LbServiceSpec([], Some(cfg.routerId))));
      r := Ok(created);
    }

    /** By id when one is given, checked against the configured router; otherwise the first of ours. */
    method FindLoadBalancerService(key: string, id: string) returns (r: Result<Option<LbService>>, ghost at: Store)
      requires Ready(key)
      modifies broker
      ensures old(broker.Down()) ==> r.Err? && broker.Down()
      ensures broker.attempts == old(broker.attempts)
      ensures broker.Turned(cfg, key, true, old(broker.View()), at) && broker.Chained()
      ensures broker.Idle(at, old(broker.log))
      ensures broker.failures == old(broker.failures) ==> r == ServiceFor(cfg, at.services, id)
      ensures broker.failures > old(broker.failures) ==> r == Err(Fault)
      ensures broker.failures >= old(broker.failures)
    {
      hide InMemoryBroker.Down, InMemoryBroker.Turned, InMemoryBroker.ChainedAt, Ready;
      if id != "" {
        var up := Call(key, true, false);
        at := broker.View();
        if !up {
          return Err(Fault), at;
        }
        var found := broker.ReadLoadBalancerService(id);
        if found.Err? {
          return Err(found.error), at;
        }
        if cfg.routerId != "" && found.value.spec.attachment != Some(cfg.routerId) {
          return Err(WrongRouter), at;
        }
        return Ok(Some(found.value)), at;
      }
      r, at := FindService(key, None);
    }

    method FindService(key: string, holding: Option<string>) returns (r: Result<Option<LbService>>, ghost at: Store)
      requires Ready(key)
      modifies broker
      ensures old(broker.Down()) ==> r.Err? && broker.Down()
      ensures broker.attempts == old(broker.attempts)
      ensures broker.Turned(cfg, key, true, old(broker.View()), at) && broker.Chained()
      ensures broker.Idle(at, old(broker.log))
      ensures broker.failures == old(broker.failures) ==> r == Ok(FirstService(cfg, at.services, holding))
      ensures broker.failures > old(broker.failures) ==> r == Err(Fault)
      ensures broker.failures >= old(broker.failures)
    {
      hide InMemoryBroker.Down, InMemoryBroker.Turned, InMemoryBroker.ChainedAt, Ready;
      var up := Call(key, true, false);
      at := broker.View();
      if !up {
        return Err(Fault), at;
      }
      var services := broker.lbServices;
      for i := 0 to |services|
        invariant FirstService(cfg, services, holding) == FirstService(cfg, services[i..], holding)
      {
        var item := services[i];
        if cfg.routerId != "" && item.spec.attachment == Some(cfg.routerId) {
          if holding.None? || holding.value in item.spec.virtualServerIds {
            return Ok(Some(item)), at;
          }
        }
        if CheckTags(item.tags, ClusterQuery(cfg)) {
          if holding.None? || holding.value in item.spec.virtualServerIds {
            return Ok(Some(item)), at;
          }
        }
      }
      r := Ok(None);
    }

    method UpdateLoadBalancerService(key: string, service: LbService) returns (r: Outcome, ghost at: Store)
      requires Ready(key)
      modifies broker
      ensures broker.Turned(cfg, key, true, old(broker.View()), at) && broker.Chained()
      ensures r.Done? ==>
                && HasId(at.services, service.id)
                && broker.View() == at.(services := Replace(at.services, service))
                && broker.Wrote(key, at, old(broker.log), old(broker.failures))
      ensures !r.Done? ==> broker.Idle(at, old(broker.log)) && broker.failures >= old(broker.failures)
      ensures !r.Done? && broker.failures == old(broker.failures) ==> !HasId(at.services, service.id)
    {
      hide InMemoryBroker.Down, InMemoryBroker.Turned, InMemoryBroker.ChainedAt, Ready;
      var up := Call(key, true, true);
      at := broker.View();
      if !up {
        return Failed(Fault), at;
      }
      r := broker.UpdateLoadBalancerService(key, service);
    }

    method DeleteLoadBalancerService(key: string, id: string) returns (r: Outcome, ghost at: Store)
      requires Ready(key)
      modifies broker
      ensures broker.Turned(cfg, key, true, old(broker.View()), at) && broker.Chained()
      ensures r.Done? ==> broker.failures == old(broker.failures)
      ensures r.Done? && HasId(at.services, id) ==>
                && broker.View() == at.(services := Remove(at.services, id))
                && broker.Wrote(key, at, old(broker.log), old(broker.failures))
      ensures !r.Done? ==> broker.failures > old(broker.failures)
      ensures !r.Done? || !HasId(at.services, id) ==> broker.Idle(at, old(broker.log))
    {
      hide InMemoryBroker.Down, InMemoryBroker.Turned, InMemoryBroker.ChainedAt, Ready;
      var up := Call(key, true, true);
      at := broker.View();
      if !up {
        return Failed(Fault), at;
      }
      r := broker.DeleteLoadBalancerService(key, id);
      if r == Failed(NotFound) {
        r := Done;
      }
    }

    // -------------------------------------------------------------- virtual servers

    method CreateVirtualServer(key: string, cls: LbClass, ipAddress: string, m: Mapping, poolId: string)
      returns (r: Result<VirtualServer>, ghost at: Store)
      requires Ready(key)
      modifies broker
      ensures broker.Turned(cfg, key, false, old(broker.View()), at) && broker.Chained()
      ensures r.Err? ==> broker.Idle(at, old(broker.log)) && broker.failures > old(broker.failures)
      ensures r.Ok? ==>
                && CheckTags(r.value.tags, Query(cfg, key)) && ClassOf(r.value) == cls
                && r.value.spec == ServerSpec(Format(m.sourcePort), m.protocol, ipAddress, Format(m.nodePort), poolId)
                && broker.View() == CreateServer(at, r.value.tags, r.value.spec)
                && r.value == broker.View().servers[|at.servers|]
                && broker.Wrote(key, at, old(broker.log), old(broker.failures))
    {
      hide InMemoryBroker.Down, InMemoryBroker.Turned, InMemoryBroker.ChainedAt, Ready;
      var tags := ServerTags(key, cls);
      var up := Call(key, false, true);
      at := broker.View();
      if !up {
        return Err(Fault), at;
      }
      var spec := ServerSpec(Format(m.sourcePort), m.protocol, ipAddress, Format(m.nodePort), poolId);
      var created := broker.CreateLoadBalancerVirtualServer(key, Resource("", tags, spec));
      r := Ok(created);
    }

    /** The tags of a virtual server. */
    method ServerTags(key: string, cls: LbClass) returns (tags: seq<Tag>)
      ensures Stamped(cfg, key, ClassTags(cls), tags)
      ensures CheckTags(tags, Query(cfg, key))
      ensures GetTag(tags, SCOPE_IP_POOL) == cls.ipPoolId && GetTag(tags, SCOPE_LB_CLASS) == cls.className
    {
      hide Added, IsNormal, Lookup, CheckTags;
      var inner := Add(cfg.standardTags, ObjectTags(cfg, key));
      var outer := Add(inner, ClassTags(cls));
      tags := Normalize(outer);
      assert Stamped(cfg, key, ClassTags(cls), tags);
      StampedOwn(cfg, key, ClassTags(cls), tags);
      ExtraTag(cfg, key, ClassTags(cls), tags, 0);
      ExtraTag(cfg, key, ClassTags(cls), tags, 1);
    }

    method FindVirtualServers(key: string) returns (r: Result<seq<VirtualServer>>, ghost at: Store)
      requires Ready(key)
      modifies broker
      ensures broker.attempts == old(broker.attempts)
      ensures broker.Turned(cfg, key, false, old(broker.View()), at) && broker.Chained()
      ensures broker.Idle(at, old(broker.log))
      ensures r.Ok? ==> r.value == Servers(cfg, key, at) && broker.failures == old(broker.failures)
      ensures r.Err? ==> broker.failures > old(broker.failures)
    {
      hide InMemoryBroker.Down, InMemoryBroker.Turned, InMemoryBroker.ChainedAt, Ready;
      var up := Call(key, false, false);
      at := broker.View();
      if !up {
        return Err(Fault), at;
      }
      var found := FilterByTags(Query(cfg, key), broker.lbVirtualServers);
      r := Ok(found);
    }

    /** All servers of the cluster that are ours, of whatever service. */
    method ListVirtualServers() returns (r: Result<seq<VirtualServer>>, ghost at: Store)
      requires ListReady()
      modifies broker
      ensures broker.attempts == old(broker.attempts)
      ensures broker.Moved(cfg, None, false, old(broker.View()), at) && broker.Chained()
      ensures broker.Idle(at, old(broker.log))
      ensures r.Ok? ==> r.value == Select(ClusterQuery(cfg), at.servers) && broker.failures == old(broker.failures)
      ensures r.Err? ==> broker.failures > old(broker.failures)
    {
      var up := broker.Turn(cfg, None, false, false);
      at := broker.View();
      if !up {
        return Err(Fault), at;
      }
      var found := FilterByTags(ClusterQuery(cfg), broker.lbVirtualServers);
      r := Ok(found);
    }

    method UpdateVirtualServer(key: string, server: VirtualServer) returns (r: Outcome, ghost at: Store)
      requires Ready(key)
      modifies broker
      ensures broker.Turned(cfg, key, false, old(broker.View()), at) && broker.Chained()
      ensures r.Done? ==>
                && HasId(at.servers, server.id)
                && broker.View() == at.(servers := Replace(at.servers, server))
                && broker.Wrote(key, at, old(broker.log), old(broker.failures))
      ensures !r.Done? ==> broker.Idle(at, old(broker.log)) && broker.failures >= old(broker.failures)
      ensures !r.Done? && broker.failures == old(broker.failures) ==> !HasId(at.servers, server.id)
    {
      hide InMemoryBroker.Down, InMemoryBroker.Turned, InMemoryBroker.ChainedAt, Ready;
      var up := Call(key, false, true);
      at := broker.View();
      if !up {
        return Failed(Fault), at;
      }
      r := broker.UpdateLoadBalancerVirtualServer(key, server);
    }

    method DeleteVirtualServer(key: string, id: string) returns (r: Outcome, ghost at: Store)
      requires Ready(key)
      modifies broker
      ensures old(broker.Down()) ==> !r.Done? && broker.Down()
      ensures broker.Turned(cfg, key, false, old(broker.View()), at) && broker.Chained()
      ensures r.Done? ==> broker.failures == old(broker.failures)
      ensures r.Done? && HasId(at.servers, id) ==>
                && broker.View() == at.(servers := Remove(at.servers, id))
                && broker.Wrote(key, at, old(broker.log), old(broker.failures))
      ensures !r.Done? ==> broker.failures > old(broker.failures)
      ensures !r.Done? || !HasId(at.servers, id) ==> broker.Idle(at, old(broker.log))
    {
      hide InMemoryBroker.Down, InMemoryBroker.Turned, InMemoryBroker.ChainedAt, Ready;
      var up := Call(key, false, true);
      at := broker.View();
      if !up {
        return Failed(Fault), at;
      }
      r := broker.DeleteLoadBalancerVirtualServer(key, id);
      if r == Failed(NotFound) {
        r := Done;
      }
    }

    // -------------------------------------------------------------- pools

    method CreatePool(key: string, m: Mapping, members: seq<PoolMember>, activeMonitorIds: seq<string>)
      returns (r: Result<Pool>, ghost at: Store)
      requires Ready(key)
      modifies broker
      ensures broker.Turned(cfg, key, false, old(broker.View()), at) && broker.Chained()
      ensures r.Err? ==> broker.Idle(at, old(broker.log)) && broker.failures > old(broker.failures)
      ensures r.Ok? ==>
                && CheckTags(r.value.tags, Query(cfg, key)) && PortOf(r.value.tags) == PortValue(m)
                && r.value.spec == PoolSpec(members, activeMonitorIds)
                && broker.View() == BrokerState.CreatePool(at, r.value.tags, r.value.spec)
                && r.value == broker.View().pools[|at.pools|]
                && broker.Wrote(key, at, old(broker.log), old(broker.failures))
    {
      hide InMemoryBroker.Down, InMemoryBroker.Turned, InMemoryBroker.ChainedAt, Ready;
      var tags := PortTags(key, m);
      var up := Call(key, false, true);
      at := broker.View();
      if !up {
        return Err(Fault), at;
      }
      var created := broker.CreateLoadBalancerPool(key, Resource("", tags, PoolSpec(members, activeMonitorIds)));
      r := Ok(created);
    }

    /** The tags of a pool or monitor. */
    method PortTags(key: string, m: Mapping) returns (tags: seq<Tag>)
      ensures Stamped(cfg, key, [PortTag(m)], tags)
      ensures CheckTags(tags, Query(cfg, key)) && PortOf(tags) == PortValue(m)
    {
      var inner := Add(cfg.standardTags, ObjectTags(cfg, key));
      var outer := Add(inner, [PortTag(m)]);
      tags := Normalize(outer);
      assert Stamped(cfg, key, [PortTag(m)], tags);
      StampedOwn(cfg, key, [PortTag(m)], tags);
      ExtraTag(cfg, key, [PortTag(m)], tags, 0);
    }

    method FindPools(key: string) returns (r: Result<seq<Pool>>, ghost at: Store)
      requires Ready(key)
      modifies broker
      ensures broker.attempts == old(broker.attempts)
      ensures broker.Turned(cfg, key, false, old(broker.View()), at) && broker.Chained()
      ensures broker.Idle(at, old(broker.log))
      ensures r.Ok? ==> r.value == Pools(cfg, key, at) && broker.failures == old(broker.failures)
      ensures r.Err? ==> broker.failures > old(broker.failures)
    {
      hide InMemoryBroker.Down, InMemoryBroker.Turned, InMemoryBroker.ChainedAt, Ready;
      var up := Call(key, false, false);
      at := broker.View();
      if !up {
        return Err(Fault), at;
      }
      var found := FilterByTags(Query(cfg, key), broker.lbPools);
      r := Ok(found);
    }

    /** All pools of the cluster that are ours, of whatever service. */
    method ListPools() returns (r: Result<seq<Pool>>, ghost at: Store)
      requires ListReady()
      modifies broker
      ensures broker.attempts == old(broker.attempts)
      ensures broker.Moved(cfg, None, false, old(broker.View()), at) && broker.Chained()
      ensures broker.Idle(at, old(broker.log))
      ensures r.Ok? ==> r.value == Select(ClusterQuery(cfg), at.pools) && broker.failures == old(broker.failures)
      ensures r.Err? ==> broker.failures > old(broker.failures)
    {
      var up := broker.Turn(cfg, None, false, false);
      at := broker.View();
      if !up {
        return Err(Fault), at;
      }
      var found := FilterByTags(ClusterQuery(cfg), broker.lbPools);
      r := Ok(found);
    }

    method UpdatePool(key: string, pool: Pool) returns (r: Outcome, ghost at: Store)
      requires Ready(key)
      modifies broker
      ensures broker.Turned(cfg, key, false, old(broker.View()), at) && broker.Chained()
      ensures r.Done? ==>
                && HasId(at.pools, pool.id)
                && broker.View() == at.(pools := Replace(at.pools, pool))
                && broker.Wrote(key, at, old(broker.log), old(broker.failures))
      ensures !r.Done? ==> broker.Idle(at, old(broker.log)) && broker.failures >= old(broker.failures)
      ensures !r.Done? && broker.failures == old(broker.failures) ==> !HasId(at.pools, pool.id)
    {
      hide InMemoryBroker.Down, InMemoryBroker.Turned, InMemoryBroker.ChainedAt, Ready;
      var up := Call(key, false, true);
      at := broker.View();
      if !up {
        return Failed(Fault), at;
      }
      r := broker.UpdateLoadBalancerPool(key, pool);
    }

    method DeletePool(key: string, id: string) returns (r: Outcome, ghost at: Store)
      requires Ready(key)
      modifies broker
      ensures broker.Turned(cfg, key, false, old(broker.View()), at) && broker.Chained()
      ensures r.Done? ==> broker.failures == old(broker.failures)
      ensures r.Done? && HasId(at.pools, id) ==>
                && broker.View() == at.(pools := Remove(at.pools, id))
                && broker.Wrote(key, at, old(broker.log), old(broker.failures))
      ensures !r.Done? ==> broker.failures > old(broker.failures)
      ensures !r.Done? || !HasId(at.pools, id) ==> broker.Idle(at, old(broker.log))
    {
      hide InMemoryBroker.Down, InMemoryBroker.Turned, InMemoryBroker.ChainedAt, Ready;
      var up := Call(key, false, true);
      at := broker.View();
      if !up {
        return Failed(Fault), at;
      }
      r := broker.DeleteLoadBalancerPool(key, id);
      if r == Failed(NotFound) {
        r := Done;
      }
    }

    // -------------------------------------------------------------- TCP monitors

    /** Sends no resource type; the type of the created monitor is the server's choice. */
    method CreateTCPMonitor(key: string, m: Mapping) returns (r: Result<Monitor>, ghost at: Store)
      requires Ready(key)
      modifies broker
      ensures broker.Turned(cfg, key, false, old(broker.View()), at) && broker.Chained()
      ensures r.Err? ==> broker.Idle(at, old(broker.log)) && broker.failures > old(broker.failures)
      ensures r.Ok? ==>
                && CheckTags(r.value.tags, Query(cfg, key)) && PortOf(r.value.tags) == PortValue(m)
                && r.value.spec == MonitorSpec(broker.monitorType, Format(m.nodePort))
                && broker.View() == CreateMonitor(at, r.value.tags, r.value.spec)
                && r.value == broker.View().monitors[|at.monitors|]
                && broker.Wrote(key, at, old(broker.log), old(broker.failures))
    {
      hide InMemoryBroker.Down, InMemoryBroker.Turned, InMemoryBroker.ChainedAt, Ready;
      var tags := PortTags(key, m);
      var up := Call(key, false, true);
      at := broker.View();
      if !up {
        return Err(Fault), at;
      }
      var created := broker.CreateLoadBalancerTCPMonitor(key, Resource("", tags, MonitorSpec("", Format(m.nodePort))));
      r := Ok(created);
    }

    /** Reading a monitor of ours returns it. */
    method ReadTCPMonitor(key: string, listed: Monitor) returns (r: Result<Monitor>)
      requires Ready(key) && listed in Monitors(cfg, key, broker.View())
      modifies broker
      ensures broker.attempts == old(broker.attempts)
      ensures broker.Turned(cfg, key, false, old(broker.View()), broker.View()) && broker.Chained()
      ensures broker.log == old(broker.log)
      ensures r.Ok? ==> r.value == listed && broker.failures == old(broker.failures)
      ensures r.Err? ==> broker.failures > old(broker.failures)
    {
      hide InMemoryBroker.Down, InMemoryBroker.Turned, InMemoryBroker.ChainedAt, Ready;
      hide CheckTags, UniqueIds, Find;
      var up := Call(key, false, false);
      if !up {
        return Err(Fault);
      }
      r := broker.ReadLoadBalancerTCPMonitor(listed.id);
      FoundInOrder(key, false, old(broker.View()));
      ReadsOwn(Query(cfg, key), broker.lbMonitors, listed);
    }

    /** Lists all monitors, then reads those of ours whose type is right, one call each. */
    method FindTCPMonitors(key: string) returns (r: Result<seq<Monitor>>)
      requires Ready(key)
      modifies broker
      ensures broker.attempts == old(broker.attempts)
      ensures broker.Turned(cfg, key, false, old(broker.View()), broker.View()) && broker.Chained()
      ensures broker.log == old(broker.log)
      ensures r.Ok? ==> r.value == TypedMonitors(Monitors(cfg, key, broker.View())) && broker.failures == old(broker.failures)
      ensures r.Err? ==> broker.failures > old(broker.failures)
    {
      hide InMemoryBroker.Down, InMemoryBroker.EnvOk, InMemoryBroker.ChainedAt, InMemoryBroker.Moved;
      hide Base, Rely, CheckTags, InMemoryBroker.Alone, Servers, Pools, TypedMonitors;
      ghost var st0 := broker.View();
      var up := Call(key, false, false);
      if !up {
        return Err(Fault);
      }
      ghost var st1 := broker.View();
      var list := FilterByTags(Query(cfg, key), broker.lbMonitors);
      r := ReadTyped(key, list);
      RelyTransitive(cfg, key, st0, st1, broker.View());
      broker.MovedTransitive(cfg, Some(key), st0, st1, broker.View());
    }

    /** The loop that reads the listed monitors of the right type. */
    method ReadTyped(key: string, list: seq<Monitor>) returns (r: Result<seq<Monitor>>)
      requires Ready(key) && list == Monitors(cfg, key, broker.View())
      modifies broker
      ensures broker.attempts == old(broker.attempts)
      ensures broker.Turned(cfg, key, false, old(broker.View()), broker.View()) && broker.Chained()
      ensures broker.log == old(broker.log)
      ensures r.Ok? ==> r.value == TypedMonitors(Monitors(cfg, key, broker.View())) && broker.failures == old(broker.failures)
      ensures r.Err? ==> broker.failures > old(broker.failures)
    {
      hide Base, Rely, CheckTags, InMemoryBroker.EnvOk, InMemoryBroker.Alone, Monitors, Servers, Pools, TypedMonitors;
      ghost var st0 := broker.View();
      RelyReflexive(cfg, key, false, st0);
      broker.MovedReflexive(cfg, Some(key), st0);
      var result: seq<Monitor> := [];
      TypedKeepsAll([]);
      for i := 0 to |list|
        invariant result == TypedMonitors(list[..i])
        invariant Ready(key) && broker.Turned(cfg, key, false, st0, broker.View())
        invariant list == Monitors(cfg, key, broker.View())
        invariant broker.log == old(broker.log) && broker.failures == old(broker.failures)
        invariant broker.attempts == old(broker.attempts)
      {
        assert list[..i + 1] == list[..i] + [list[i]];
        TypedAppend(list[..i], list[i]);
        if list[i].spec.resourceType == TCP_MONITOR_TYPE {
          ghost var before := broker.View();
          var monitor := ReadTCPMonitor(key, list[i]);
          RelyTransitive(cfg, key, st0, before, broker.View());
          broker.MovedTransitive(cfg, Some(key), st0, before, broker.View());
          AfterTurn(cfg, key, false, before, broker.View());
          if monitor.Err? {
            return Err(monitor.error);
          }
          result := result + [monitor.value];
        }
      }
      assert list[..|list|] == list;
      r := Ok(result);
    }

    /** All TCP monitors of the cluster that are ours, of whatever service. */
    method ListTCPMonitorLight() returns (r: Result<seq<Monitor>>, ghost at: Store)
      requires ListReady()
      modifies broker
      ensures broker.attempts == old(broker.attempts)
      ensures broker.Moved(cfg, None, false, old(broker.View()), at) && broker.Chained()
      ensures broker.Idle(at, old(broker.log))
      ensures r.Ok? ==>
                r.value == TypedMonitors(Select(ClusterQuery(cfg), at.monitors)) && broker.failures == old(broker.failures)
      ensures r.Err? ==> broker.failures > old(broker.failures)
    {
      var up := broker.Turn(cfg, None, false, false);
      at := broker.View();
      if !up {
        return Err(Fault), at;
      }
      var found := FilterByTags(ClusterQuery(cfg), broker.lbMonitors);
      var typed := OnlyTyped(found);
      r := Ok(typed);
    }

    method UpdateTCPMonitor(key: string, monitor: Monitor) returns (r: Outcome, ghost at: Store)
      requires Ready(key)
      modifies broker
      ensures broker.Turned(cfg, key, false, old(broker.View()), at) && broker.Chained()
      ensures r.Done? ==>
                && HasId(at.monitors, monitor.id)
                && broker.View() == at.(monitors := Replace(at.monitors, monitor))
                && broker.Wrote(key, at, old(broker.log), old(broker.failures))
      ensures !r.Done? ==> broker.Idle(at, old(broker.log)) && broker.failures >= old(broker.failures)
      ensures !r.Done? && broker.failures == old(broker.failures) ==> !HasId(at.monitors, monitor.id)
    {
      hide InMemoryBroker.Down, InMemoryBroker.Turned, InMemoryBroker.ChainedAt, Ready;
      var up := Call(key, false, true);
      at := broker.View();
      if !up {
        return Failed(Fault), at;
      }
      r := broker.UpdateLoadBalancerTCPMonitor(key, monitor);
    }

    method DeleteTCPMonitor(key: string, id: string) returns (r: Outcome, ghost at: Store)
      requires Ready(key)
      modifies broker
      ensures broker.Turned(cfg, key, false, old(broker.View()), at) && broker.Chained()
      ensures r.Done? ==> broker.failures == old(broker.failures)
      ensures r.Done? && HasId(at.monitors, id) ==>
                && broker.View() == at.(monitors := Remove(at.monitors, id))
                && broker.Wrote(key, at, old(broker.log), old(broker.failures))
      ensures !r.Done? ==> broker.failures > old(broker.failures)
      ensures !r.Done? || !HasId(at.monitors, id) ==> broker.Idle(at, old(broker.log))
    {
      hide InMemoryBroker.Down, InMemoryBroker.Turned, InMemoryBroker.ChainedAt, Ready;
      var up := Call(key, false, true);
      at := broker.View();
      if !up {
        return Failed(Fault), at;
      }
      r := broker.DeleteLoadBalancerMonitor(key, id);
      if r == Failed(NotFound) {
        r := Done;
      }
    }

    // -------------------------------------------------------------- IP addresses

    method AllocateExternalIPAddress(key: string, ipPoolId: string) returns (r: Result<string>, ghost at: Store)
      requires Ready(key)
      modifies broker
      ensures broker.Turned(cfg, key, false, old(broker.View()), at) && broker.Chained()
      ensures r.Ok? ==>
                && ipPoolId in at.ipPools && r.value !in at.ipPools[ipPoolId].allocations
                && r.value in AddressesUpTo(at.ipPools[ipPoolId], at.ipPools[ipPoolId].size)
                && broker.View() == Allocate(at, ipPoolId, r.value)
                && broker.Wrote(key, at, old(broker.log), old(broker.failures))
      ensures r.Err? ==> broker.Idle(at, old(broker.log)) && broker.failures >= old(broker.failures)
      ensures r.Err? ==> broker.failures > old(broker.failures) || Blocking(r.error)
      ensures broker.failures == old(broker.failures) ==> (r.Ok? <==> HasFree(at, ipPoolId))
    {
      hide InMemoryBroker.Down, InMemoryBroker.Turned, InMemoryBroker.ChainedAt, Ready;
      var up := Call(key, false, true);
      at := broker.View();
      if !up {
        return Err(Fault), at;
      }
      FoundInOrder(key, false, old(broker.View()));
      r := broker.AllocateFromIPPool(key, ipPoolId);
      if r.Ok? {
        LowestFreeInRange(at.ipPools[ipPoolId], r.value);
      }
    }

    /** A missing pool has no allocations. */
    method IsAllocatedExternalIPAddress(key: string, ipPoolId: string, ipAddress: string)
      returns (r: Result<bool>, ghost at: Store)
      requires Ready(key)
      modifies broker
      ensures broker.attempts == old(broker.attempts)
      ensures broker.Turned(cfg, key, false, old(broker.View()), at) && broker.Chained()
      ensures broker.Idle(at, old(broker.log))
      ensures r.Ok? ==> r.value == IsAllocated(at, ipPoolId, ipAddress) && broker.failures == old(broker.failures)
      ensures r.Err? ==> broker.failures > old(broker.failures)
    {
      hide InMemoryBroker.Down, InMemoryBroker.Turned, InMemoryBroker.ChainedAt, Ready;
      var up := Call(key, false, false);
      at := broker.View();
      if !up {
        return Err(Fault), at;
      }
      var list := broker.ListIPPoolAllocations(ipPoolId);
      r := Ok(list.Ok? && ipAddress in list.value);
    }

    method ReleaseExternalIPAddress(key: string, ipPoolId: string, ipAddress: string) returns (r: Outcome, ghost at: Store)
      requires Ready(key)
      modifies broker
      ensures broker.Turned(cfg, key, false, old(broker.View()), at) && broker.Chained()
      ensures r.Done? ==>
                && IsAllocated(at, ipPoolId, ipAddress)
                && broker.View() == Release(at, ipPoolId, ipAddress)
                && broker.Wrote(key, at, old(broker.log), old(broker.failures))
      ensures !r.Done? ==> broker.Idle(at, old(broker.log)) && broker.failures >= old(broker.failures)
      ensures !r.Done? ==> broker.failures > old(broker.failures) || r == Failed(NotFound)
      ensures !r.Done? && broker.failures == old(broker.failures) ==> !IsAllocated(at, ipPoolId, ipAddress)
    {
      hide InMemoryBroker.Down, InMemoryBroker.Turned, InMemoryBroker.ChainedAt, Ready;
      var up := Call(key, false, true);
      at := broker.View();
      if !up {
        return Failed(Fault), at;
      }
      r := broker.ReleaseFromIPPool(key, ipPoolId, ipAddress);
    }
  }
}
