/** Each kind of broker write, made the way the reconciler makes it, keeps every invariant. */
module Steps {
  import opened Text
  import opened Tags
  import opened Members
  import opened Resources
  import opened BrokerState
  import opened Ownership

  // ---------------------------------------------------------------- identifiers

  lemma FreshAppend<T(!new)>(kind: string, s: seq<Resource<T>>, n: nat, x: Resource<T>)
    requires UniqueIds(s) && Fresh(kind, s, n)
    requires x.id == kind + Format(n)
    ensures UniqueIds(s + [x]) && Fresh(kind, s + [x], n + 1)
  {
    forall j: nat | j >= n + 1 ensures x.id != kind + Format(j) {
      if x.id == kind + Format(j) {
        assert (kind + Format(n))[|kind|..] == Format(n) && (kind + Format(j))[|kind|..] == Format(j);
        FormatInjective(n, j);
        assert false;
      }
    }
    forall r | r in s ensures r.id != x.id {
    }
  }

  lemma FreshReplace<T(!new)>(kind: string, s: seq<Resource<T>>, n: nat, x: Resource<T>)
    requires UniqueIds(s) && Fresh(kind, s, n) && HasId(s, x.id)
    ensures UniqueIds(Replace(s, x)) && Fresh(kind, Replace(s, x), n)
  {
    ReplaceMembers(s, x);
    var r :| r in s && r.id == x.id;
  }

  lemma FreshRemove<T(!new)>(kind: string, s: seq<Resource<T>>, n: nat, id: string)
    requires UniqueIds(s) && Fresh(kind, s, n)
    ensures UniqueIds(Remove(s, id)) && Fresh(kind, Remove(s, id), n)
  {
    RemoveMembers(s, id);
  }

  /** The single object with our id is ours. */
  lemma OwnById<T(!new)>(q: seq<Tag>, s: seq<Resource<T>>, id: string)
    requires UniqueIds(s) && HasId(Select(q, s), id)
    ensures forall r :: r in s && r.id == id ==> CheckTags(r.tags, q)
    ensures HasId(s, id)
  {
  }

  /** Overwriting an element of the snapshot is the update of the broker's listing. */
  lemma OwnPosition<T(!new)>(s: seq<Resource<T>>, x: Resource<T>, i: nat)
    requires UniqueIds(s) && i < |s| && s[i].id == x.id
    ensures Replace(s, x) == s[i := x]
  {
    ReplaceAt(s, x, i);
  }

  // ---------------------------------------------------------------- monitors

  lemma MonitorAdded(vs: seq<VirtualServer>, ps: seq<Pool>, ms: seq<Monitor>, x: Monitor)
    requires Consistent(vs, ps, ms)
    requires forall m :: m in ms ==> PortOf(m.tags) != PortOf(x.tags)
    requires x.spec.resourceType == TCP_MONITOR_TYPE
    ensures Consistent(vs, ps, ms + [x])
  {
    forall p, id | p in ps && id in p.spec.activeMonitorIds
      ensures RefersToMonitor(id, PortOf(p.tags), ms + [x])
    {
      assert PoolRefersToMonitors(p, ms);
      var m :| m in ms && m.id == id && PortOf(m.tags) == PortOf(p.tags);
      assert m in ms + [x];
    }
  }

  lemma MonitorReplaced(vs: seq<VirtualServer>, ps: seq<Pool>, ms: seq<Monitor>, x: Monitor, before: Monitor)
    requires Consistent(vs, ps, ms) && UniqueIds(ms)
    requires before in ms && before.id == x.id && before.tags == x.tags
    requires x.spec.resourceType == TCP_MONITOR_TYPE
    ensures Consistent(vs, ps, Replace(ms, x))
  {
    ReplaceMembers(ms, x);
    var ms' := Replace(ms, x);
    forall m, m' | m in ms' && m' in ms' && PortOf(m.tags) == PortOf(m'.tags) ensures m == m' {
      if m == x || m' == x {
        assert before in ms;
      }
    }
    forall p, id | p in ps && id in p.spec.activeMonitorIds
      ensures RefersToMonitor(id, PortOf(p.tags), ms')
    {
      assert PoolRefersToMonitors(p, ms);
      var m :| m in ms && m.id == id && PortOf(m.tags) == PortOf(p.tags);
      if m.id == x.id {
        SameId(ms, m, before);
        assert x in ms';
      } else {
        assert m in ms';
      }
    }
  }

  lemma MonitorRemoved(vs: seq<VirtualServer>, ps: seq<Pool>, ms: seq<Monitor>, id: string)
    requires Consistent(vs, ps, ms) && UniqueIds(ms)
    requires forall p :: p in ps ==> id !in p.spec.activeMonitorIds
    ensures Consistent(vs, ps, Remove(ms, id))
  {
    RemoveMembers(ms, id);
    var ms' := Remove(ms, id);
    forall p, other | p in ps && other in p.spec.activeMonitorIds
      ensures RefersToMonitor(other, PortOf(p.tags), ms')
    {
      assert PoolRefersToMonitors(p, ms);
      var m :| m in ms && m.id == other && PortOf(m.tags) == PortOf(p.tags);
      assert m in ms';
    }
  }

  // ---------------------------------------------------------------- pools

  lemma PoolAdded(vs: seq<VirtualServer>, ps: seq<Pool>, ms: seq<Monitor>, x: Pool)
    requires Consistent(vs, ps, ms)
    requires forall p :: p in ps ==> PortOf(p.tags) != PortOf(x.tags)
    requires PoolRefersToMonitors(x, ms) && DistinctAddresses(x.spec.members)
    ensures Consistent(vs, ps + [x], ms)
  {
    forall v | v in vs ensures RefersToPool(v, ps + [x]) {
      assert RefersToPool(v, ps);
      var p :| p in ps && p.id == v.spec.poolId && PortOf(p.tags) == ServerPort(v);
      assert p in ps + [x];
    }
  }

  lemma PoolReplaced(vs: seq<VirtualServer>, ps: seq<Pool>, ms: seq<Monitor>, x: Pool, before: Pool)
    requires Consistent(vs, ps, ms) && UniqueIds(ps)
    requires before in ps && before.id == x.id && before.tags == x.tags
    requires PoolRefersToMonitors(x, ms) && DistinctAddresses(x.spec.members)
    ensures Consistent(vs, Replace(ps, x), ms)
  {
    ReplaceMembers(ps, x);
    var ps' := Replace(ps, x);
    forall p, p' | p in ps' && p' in ps' && PortOf(p.tags) == PortOf(p'.tags) ensures p == p' {
      if p == x || p' == x {
        assert before in ps;
      }
    }
    forall v | v in vs ensures RefersToPool(v, ps') {
      assert RefersToPool(v, ps);
      var p :| p in ps && p.id == v.spec.poolId && PortOf(p.tags) == ServerPort(v);
      if p.id == x.id {
        SameId(ps, p, before);
        assert x in ps';
      } else {
        assert p in ps';
      }
    }
  }

  lemma PoolRemoved(vs: seq<VirtualServer>, ps: seq<Pool>, ms: seq<Monitor>, id: string)
    requires Consistent(vs, ps, ms) && UniqueIds(ps)
    requires forall v :: v in vs ==> v.spec.poolId != id
    ensures Consistent(vs, Remove(ps, id), ms)
  {
    RemoveMembers(ps, id);
    var ps' := Remove(ps, id);
    forall v | v in vs ensures RefersToPool(v, ps') {
      assert RefersToPool(v, ps);
      var p :| p in ps && p.id == v.spec.poolId && PortOf(p.tags) == ServerPort(v);
      assert p in ps';
    }
  }

  // ---------------------------------------------------------------- servers

  lemma ServerAdded(vs: seq<VirtualServer>, ps: seq<Pool>, ms: seq<Monitor>, x: VirtualServer)
    requires Consistent(vs, ps, ms) && RefersToPool(x, ps) && x.spec.ipAddress != ""
    requires forall v :: v in vs ==> !SamePort(v, x) && SameAddress(v, x)
    ensures Consistent(vs + [x], ps, ms)
  {
  }

  lemma ServerReplaced(vs: seq<VirtualServer>, ps: seq<Pool>, ms: seq<Monitor>, x: VirtualServer, before: VirtualServer)
    requires Consistent(vs, ps, ms) && UniqueIds(vs) && RefersToPool(x, ps)
    requires before in vs && before.id == x.id && before.tags == x.tags
    requires SamePort(before, x) && before.spec.ipAddress == x.spec.ipAddress
    ensures Consistent(Replace(vs, x), ps, ms)
  {
    ServersOkReplaced(vs, x, before);
    ReplaceMembers(vs, x);
  }

  lemma ServersOkReplaced(vs: seq<VirtualServer>, x: VirtualServer, before: VirtualServer)
    requires ServersOk(vs) && UniqueIds(vs)
    requires before in vs && before.id == x.id && before.tags == x.tags
    requires SamePort(before, x) && before.spec.ipAddress == x.spec.ipAddress
    ensures ServersOk(Replace(vs, x))
  {
    ReplaceMembers(vs, x);
    var vs' := Replace(vs, x);
    forall v, w | v in vs' && w in vs' ensures SameAddress(v, w) {
      assert SameAddress(if v == x then before else v, if w == x then before else w);
    }
    forall v, w | v in vs' && w in vs' && SamePort(v, w) ensures v == w {
      assert SamePort(if v == x then before else v, if w == x then before else w);
    }
  }

  lemma ServerRemoved(vs: seq<VirtualServer>, ps: seq<Pool>, ms: seq<Monitor>, id: string)
    requires Consistent(vs, ps, ms) && UniqueIds(vs)
    ensures Consistent(Remove(vs, id), ps, ms)
  {
    RemoveMembers(vs, id);
  }

  // ---------------------------------------------------------------- writes to the broker

  lemma CreateMonitorOk(cfg: Config, key: string, st: Store, tags: seq<Tag>, spec: MonitorSpec)
    requires Base(cfg, st) && OwnOk(cfg, key, st)
    requires CheckTags(tags, Query(cfg, key))
    requires forall m :: m in Monitors(cfg, key, st) ==> PortOf(m.tags) != PortOf(tags)
    requires spec.resourceType == TCP_MONITOR_TYPE
    ensures var st' := CreateMonitor(st, tags, spec);
            && EventOk(cfg, Event(key, st, st'))
            && Monitors(cfg, key, st') == Monitors(cfg, key, st) + [st'.monitors[|st.monitors|]]
            && Servers(cfg, key, st') == Servers(cfg, key, st) && Pools(cfg, key, st') == Pools(cfg, key, st)
  {
    var x := Resource(MONITOR_ID + Format(st.nextId), tags, spec);
    FreshAppend(MONITOR_ID, st.monitors, st.nextId, x);
    SelectAppend(Query(cfg, key), st.monitors, x);
    RejectAppend(Query(cfg, key), st.monitors, x);
    MonitorAdded(Servers(cfg, key, st), Pools(cfg, key, st), Monitors(cfg, key, st), x);
  }

  lemma UpdateMonitorOk(cfg: Config, key: string, st: Store, x: Monitor, before: Monitor)
    requires Base(cfg, st) && OwnOk(cfg, key, st)
    requires before in Monitors(cfg, key, st) && before.id == x.id && before.tags == x.tags
    requires x.spec.resourceType == TCP_MONITOR_TYPE
    ensures HasId(st.monitors, x.id)
    ensures var st' := st.(monitors := Replace(st.monitors, x));
            && EventOk(cfg, Event(key, st, st'))
            && Monitors(cfg, key, st') == Replace(Monitors(cfg, key, st), x)
            && Servers(cfg, key, st') == Servers(cfg, key, st) && Pools(cfg, key, st') == Pools(cfg, key, st)
  {
    OwnById(Query(cfg, key), st.monitors, x.id);
    FreshReplace(MONITOR_ID, st.monitors, st.nextId, x);
    SelectReplace(Query(cfg, key), st.monitors, x);
    SelectUnique(Query(cfg, key), st.monitors);
    MonitorReplaced(Servers(cfg, key, st), Pools(cfg, key, st), Monitors(cfg, key, st), x, before);
  }

  lemma DeleteMonitorOk(cfg: Config, key: string, st: Store, x: Monitor)
    requires Base(cfg, st) && OwnOk(cfg, key, st)
    requires x in Monitors(cfg, key, st)
    requires forall p :: p in Pools(cfg, key, st) ==> x.id !in p.spec.activeMonitorIds
    ensures HasId(st.monitors, x.id)
    ensures var st' := st.(monitors := Remove(st.monitors, x.id));
            && EventOk(cfg, Event(key, st, st'))
            && Monitors(cfg, key, st') == Remove(Monitors(cfg, key, st), x.id)
            && Servers(cfg, key, st') == Servers(cfg, key, st) && Pools(cfg, key, st') == Pools(cfg, key, st)
  {
    OwnById(Query(cfg, key), st.monitors, x.id);
    FreshRemove(MONITOR_ID, st.monitors, st.nextId, x.id);
    SelectRemove(Query(cfg, key), st.monitors, x.id);
    SelectUnique(Query(cfg, key), st.monitors);
    MonitorRemoved(Servers(cfg, key, st), Pools(cfg, key, st), Monitors(cfg, key, st), x.id);
  }

  lemma CreatePoolOk(cfg: Config, key: string, st: Store, tags: seq<Tag>, spec: PoolSpec)
    requires Base(cfg, st) && OwnOk(cfg, key, st)
    requires CheckTags(tags, Query(cfg, key))
    requires forall p :: p in Pools(cfg, key, st) ==> PortOf(p.tags) != PortOf(tags)
    requires forall id :: id in spec.activeMonitorIds ==> RefersToMonitor(id, PortOf(tags), Monitors(cfg, key, st))
    requires DistinctAddresses(spec.members)
    ensures var st' := CreatePool(st, tags, spec);
            && EventOk(cfg, Event(key, st, st'))
            && Pools(cfg, key, st') == Pools(cfg, key, st) + [st'.pools[|st.pools|]]
            && Servers(cfg, key, st') == Servers(cfg, key, st) && Monitors(cfg, key, st') == Monitors(cfg, key, st)
  {
    var x := Resource(POOL_ID + Format(st.nextId), tags, spec);
    FreshAppend(POOL_ID, st.pools, st.nextId, x);
    SelectAppend(Query(cfg, key), st.pools, x);
    RejectAppend(Query(cfg, key), st.pools, x);
    PoolAdded(Servers(cfg, key, st), Pools(cfg, key, st), Monitors(cfg, key, st), x);
  }

  lemma UpdatePoolOk(cfg: Config, key: string, st: Store, x: Pool, before: Pool)
    requires Base(cfg, st) && OwnOk(cfg, key, st)
    requires before in Pools(cfg, key, st) && before.id == x.id && before.tags == x.tags
    requires PoolRefersToMonitors(x, Monitors(cfg, key, st)) && DistinctAddresses(x.spec.members)
    ensures HasId(st.pools, x.id)
    ensures var st' := st.(pools := Replace(st.pools, x));
            && EventOk(cfg, Event(key, st, st'))
            && Pools(cfg, key, st') == Replace(Pools(cfg, key, st), x)
            && Servers(cfg, key, st') == Servers(cfg, key, st) && Monitors(cfg, key, st') == Monitors(cfg, key, st)
  {
    OwnById(Query(cfg, key), st.pools, x.id);
    FreshReplace(POOL_ID, st.pools, st.nextId, x);
    SelectReplace(Query(cfg, key), st.pools, x);
    SelectUnique(Query(cfg, key), st.pools);
    PoolReplaced(Servers(cfg, key, st), Pools(cfg, key, st), Monitors(cfg, key, st), x, before);
  }

  lemma DeletePoolOk(cfg: Config, key: string, st: Store, x: Pool)
    requires Base(cfg, st) && OwnOk(cfg, key, st)
    requires x in Pools(cfg, key, st)
    requires forall v :: v in Servers(cfg, key, st) ==> v.spec.poolId != x.id
    ensures HasId(st.pools, x.id)
    ensures var st' := st.(pools := Remove(st.pools, x.id));
            && EventOk(cfg, Event(key, st, st'))
            && Pools(cfg, key, st') == Remove(Pools(cfg, key, st), x.id)
            && Servers(cfg, key, st') == Servers(cfg, key, st) && Monitors(cfg, key, st') == Monitors(cfg, key, st)
  {
    OwnById(Query(cfg, key), st.pools, x.id);
    FreshRemove(POOL_ID, st.pools, st.nextId, x.id);
    SelectRemove(Query(cfg, key), st.pools, x.id);
    SelectUnique(Query(cfg, key), st.pools);
    PoolRemoved(Servers(cfg, key, st), Pools(cfg, key, st), Monitors(cfg, key, st), x.id);
  }

  /** Servers may come and change as long as no attached id loses its server. */
  lemma AttachmentsKept(cfg: Config, st: Store, st': Store)
    requires AttachmentsOk(cfg, st) && st'.services == st.services
    requires forall id :: id in AllIds(st.services) ==> HasId(st'.servers, id)
    requires forall v :: v in st'.servers && v.id in AllIds(st.services) ==>
               exists w :: w in st.servers && w.id == v.id && w.tags == v.tags
    ensures AttachmentsOk(cfg, st')
  {
    forall svc, v | svc in st'.services && v in st'.servers && Attaches(cfg, svc, v)
      ensures Discoverable(cfg, svc)
    {
      AttachedIds(st.services, svc, v.id);
      var w :| w in st.servers && w.id == v.id && w.tags == v.tags;
      assert Attaches(cfg, svc, w);
    }
  }

  lemma {:induction false} AttachedIds(services: seq<LbService>, svc: LbService, id: string)
    requires svc in services && id in svc.spec.virtualServerIds
    ensures id in AllIds(services)
  {
    if services[0] != svc {
      AttachedIds(services[1..], svc, id);
    }
  }

  lemma {:induction false} AttachedSomewhere(services: seq<LbService>, id: string)
    requires id in AllIds(services)
    ensures exists svc :: svc in services && id in svc.spec.virtualServerIds
  {
    if id in services[0].spec.virtualServerIds {
      assert services[0] in services;
    } else {
      AttachedSomewhere(services[1..], id);
      var svc :| svc in services[1..] && id in svc.spec.virtualServerIds;
      assert svc in services;
    }
  }

  lemma CreateServerOk(cfg: Config, key: string, st: Store, tags: seq<Tag>, spec: ServerSpec)
    requires Base(cfg, st) && OwnOk(cfg, key, st)
    requires CheckTags(tags, Query(cfg, key)) && spec.ipAddress != ""
    requires RefersToPool(Resource("", tags, spec), Pools(cfg, key, st))
    requires forall v :: v in Servers(cfg, key, st) ==>
               !SamePort(v, Resource("", tags, spec)) && SameAddress(v, Resource("", tags, spec))
    ensures var st' := CreateServer(st, tags, spec);
            && EventOk(cfg, Event(key, st, st'))
            && Servers(cfg, key, st') == Servers(cfg, key, st) + [st'.servers[|st.servers|]]
            && Pools(cfg, key, st') == Pools(cfg, key, st) && Monitors(cfg, key, st') == Monitors(cfg, key, st)
            && (Covered(cfg) ==> st'.servers[|st.servers|].id !in AllIds(st'.services))
  {
    var x := Resource(SERVER_ID + Format(st.nextId), tags, spec);
    FreshAppend(SERVER_ID, st.servers, st.nextId, x);
    SelectAppend(Query(cfg, key), st.servers, x);
    RejectAppend(Query(cfg, key), st.servers, x);
    var y := Resource("", tags, spec);
    assert RefersToPool(x, Pools(cfg, key, st)) by {
      var p :| p in Pools(cfg, key, st) && p.id == y.spec.poolId && PortOf(p.tags) == ServerPort(y);
    }
    assert forall v :: SamePort(v, x) == SamePort(v, y) && SameAddress(v, x) == SameAddress(v, y);
    ServerAdded(Servers(cfg, key, st), Pools(cfg, key, st), Monitors(cfg, key, st), x);
    if Covered(cfg) {
      NewServerUnattached(cfg, st, tags, spec);
    }
  }

  lemma NewServerUnattached(cfg: Config, st: Store, tags: seq<Tag>, spec: ServerSpec)
    requires IdsOk(st) && AttachmentsOk(cfg, st)
    ensures AttachmentsOk(cfg, CreateServer(st, tags, spec))
    ensures SERVER_ID + Format(st.nextId) !in AllIds(st.services)
  {
    var st' := CreateServer(st, tags, spec);
    var x := st'.servers[|st.servers|];
    assert forall r :: r in st.servers ==> r.id != x.id;
    forall id | id in AllIds(st.services) ensures HasId(st'.servers, id) {
      var r :| r in st.servers && r.id == id;
      assert r in st'.servers;
    }
    AttachmentsKept(cfg, st, st');
  }

  lemma UpdateServerOk(cfg: Config, key: string, st: Store, x: VirtualServer, before: VirtualServer)
    requires Base(cfg, st) && OwnOk(cfg, key, st)
    requires before in Servers(cfg, key, st) && before.id == x.id && before.tags == x.tags
    requires SamePort(before, x) && before.spec.ipAddress == x.spec.ipAddress
    requires RefersToPool(x, Pools(cfg, key, st))
    ensures HasId(st.servers, x.id)
    ensures var st' := st.(servers := Replace(st.servers, x));
            && EventOk(cfg, Event(key, st, st'))
            && Servers(cfg, key, st') == Replace(Servers(cfg, key, st), x)
            && Pools(cfg, key, st') == Pools(cfg, key, st) && Monitors(cfg, key, st') == Monitors(cfg, key, st)
  {
    var st' := st.(servers := Replace(st.servers, x));
    OwnById(Query(cfg, key), st.servers, x.id);
    FreshReplace(SERVER_ID, st.servers, st.nextId, x);
    SelectReplace(Query(cfg, key), st.servers, x);
    SelectUnique(Query(cfg, key), st.servers);
    ServerReplaced(Servers(cfg, key, st), Pools(cfg, key, st), Monitors(cfg, key, st), x, before);
    ReplaceMembers(st.servers, x);
    if Covered(cfg) {
      forall id | id in AllIds(st.services) ensures HasId(st'.servers, id) {
        var r :| r in st.servers && r.id == id;
        assert (if r.id == x.id then x else r) in st'.servers;
      }
      forall v | v in st'.servers ensures exists w :: w in st.servers && w.id == v.id && w.tags == v.tags {
        var w := if v == x then before else v;
        assert w in st.servers && w.id == v.id && w.tags == v.tags;
      }
      AttachmentsKept(cfg, st, st');
    }
  }

  lemma DeleteServerOk(cfg: Config, key: string, st: Store, x: VirtualServer)
    requires Base(cfg, st) && OwnOk(cfg, key, st)
    requires x in Servers(cfg, key, st)
    requires Covered(cfg) ==> x.id !in AllIds(st.services)
    ensures HasId(st.servers, x.id)
    ensures var st' := st.(servers := Remove(st.servers, x.id));
            && EventOk(cfg, Event(key, st, st'))
            && Servers(cfg, key, st') == Remove(Servers(cfg, key, st), x.id)
            && Pools(cfg, key, st') == Pools(cfg, key, st) && Monitors(cfg, key, st') == Monitors(cfg, key, st)
  {
    var st' := st.(servers := Remove(st.servers, x.id));
    OwnById(Query(cfg, key), st.servers, x.id);
    FreshRemove(SERVER_ID, st.servers, st.nextId, x.id);
    SelectRemove(Query(cfg, key), st.servers, x.id);
    SelectUnique(Query(cfg, key), st.servers);
    ServerRemoved(Servers(cfg, key, st), Pools(cfg, key, st), Monitors(cfg, key, st), x.id);
    RemoveMembers(st.servers, x.id);
    if Covered(cfg) {
      forall id | id in AllIds(st.services) ensures HasId(st'.servers, id) {
        var r :| r in st.servers && r.id == id;
        assert r in st'.servers;
      }
      AttachmentsKept(cfg, st, st');
    }
  }

  // ---------------------------------------------------------------- addresses

  lemma AllocateOk(cfg: Config, key: string, st: Store, poolId: string, address: string)
    requires Base(cfg, st) && OwnOk(cfg, key, st)
    requires poolId in st.ipPools && address in AddressesUpTo(st.ipPools[poolId], st.ipPools[poolId].size)
    ensures EventOk(cfg, Event(key, st, Allocate(st, poolId, address)))
    ensures SameOwn(cfg, key, st, Allocate(st, poolId, address))
  {
    var st' := Allocate(st, poolId, address);
    forall id | id in st'.ipPools ensures InRange(st'.ipPools[id]) {
      assert InRange(st.ipPools[id]);
      assert AddressesUpTo(st'.ipPools[id], st'.ipPools[id].size) == AddressesUpTo(st.ipPools[id], st.ipPools[id].size) by {
        assert forall i: nat :: Address(st'.ipPools[id], i) == Address(st.ipPools[id], i);
      }
    }
    AddressesChangeOk(cfg, key, st, st'.ipPools);
  }

  lemma ReleaseOk(cfg: Config, key: string, st: Store, poolId: string, address: string)
    requires Base(cfg, st) && OwnOk(cfg, key, st) && poolId in st.ipPools
    ensures EventOk(cfg, Event(key, st, Release(st, poolId, address)))
    ensures SameOwn(cfg, key, st, Release(st, poolId, address))
  {
    var st' := Release(st, poolId, address);
    forall id | id in st'.ipPools ensures InRange(st'.ipPools[id]) {
      assert InRange(st.ipPools[id]);
      assert AddressesUpTo(st'.ipPools[id], st'.ipPools[id].size) == AddressesUpTo(st.ipPools[id], st.ipPools[id].size) by {
        assert forall i: nat :: Address(st'.ipPools[id], i) == Address(st.ipPools[id], i);
      }
    }
    AddressesChangeOk(cfg, key, st, st'.ipPools);
  }

  lemma AddressesChangeOk(cfg: Config, key: string, st: Store, ipPools: map<string, IpPool>)
    requires Base(cfg, st) && OwnOk(cfg, key, st)
    requires forall id :: id in ipPools ==> InRange(ipPools[id])
    ensures EventOk(cfg, Event(key, st, st.(ipPools := ipPools)))
    ensures SameOwn(cfg, key, st, st.(ipPools := ipPools))
  {
    hide IdsOk, AttachmentsOk, Consistent;
    var st' := st.(ipPools := ipPools);
    IdsIgnoreAddresses(st, ipPools);
    if Covered(cfg) {
      AttachmentsIgnoreAddresses(cfg, st, ipPools);
    }
  }

  lemma IdsIgnoreAddresses(st: Store, ipPools: map<string, IpPool>)
    requires IdsOk(st)
    ensures IdsOk(st.(ipPools := ipPools))
  {
  }

  lemma AttachmentsIgnoreAddresses(cfg: Config, st: Store, ipPools: map<string, IpPool>)
    requires AttachmentsOk(cfg, st)
    ensures AttachmentsOk(cfg, st.(ipPools := ipPools))
  {
  }
}
