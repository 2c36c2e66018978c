/** A broker call as the run sees it: the others' turn, then one write of its own on what they left. */
module Moves {
  import opened Results
  import opened Tags
  import opened Members
  import opened Resources
  import opened BrokerState
  import opened Ownership
  import opened Steps
  import opened Addressing

  /** Everything written so far was in order, and so is the present state. */
  ghost predicate Good(cfg: Config, key: string, cached: string, log: seq<Event>, st: Store)
  {
    Base(cfg, st) && OwnOk(cfg, key, st) && AllOk(cfg, log) && CachedOk(cfg, st.services, st.nextId, cached)
  }

  /** The call found `at` where the run last saw `before`. */
  ghost predicate Found(cfg: Config, key: string, cached: string, log: seq<Event>, before: Store, at: Store)
  {
    Good(cfg, key, cached, log, before) && Base(cfg, at) && Rely(cfg, key, false, before, at)
  }

  /** The run's write on `at`, leading to `st`. */
  ghost predicate Written(cfg: Config, key: string, cached: string, log: seq<Event>, at: Store, st: Store)
  {
    Good(cfg, key, cached, log + [Event(key, at, st)], st) && SameOthers(cfg, key, at, st) && Guarantee(cfg, key, at, st)
  }

  lemma IdleMove(cfg: Config, key: string, cached: string, log: seq<Event>, before: Store, at: Store)
    requires Found(cfg, key, cached, log, before, at)
    ensures Good(cfg, key, cached, log, at) && SameOwn(cfg, key, before, at) && IdsOk(at)
  {
    hide OwnOk, AllOk, Rely, CachedOk, NoNewForeign, AttachmentsOk, IdsOk;
    AfterTurn(cfg, key, false, before, at);
    CachedStays(cfg, before, at, cached);
  }

  // ---------------------------------------------------------------- monitors

  lemma CreateMonitorMove(cfg: Config, key: string, cached: string, log: seq<Event>,
                          before: Store, at: Store, tags: seq<Tag>, spec: MonitorSpec)
    requires Found(cfg, key, cached, log, before, at) && CheckTags(tags, Query(cfg, key))
    requires forall m :: m in Monitors(cfg, key, before) ==> PortOf(m.tags) != PortOf(tags)
    requires spec.resourceType == TCP_MONITOR_TYPE
    ensures var st' := CreateMonitor(at, tags, spec);
            && Written(cfg, key, cached, log, at, st')
            && Servers(cfg, key, st') == Servers(cfg, key, before) && Pools(cfg, key, st') == Pools(cfg, key, before)
            && Monitors(cfg, key, st') == Monitors(cfg, key, before) + [st'.monitors[|at.monitors|]]
  {
    hide Base, OwnOk, AllOk, Rely, EventOk, CachedOk, NoNewForeign, Guarantee, SameOthers;
    AfterTurn(cfg, key, false, before, at);
    CachedStays(cfg, before, at, cached);
    CreateMonitorOk(cfg, key, at, tags, spec);
    AfterWrite(cfg, log, Event(key, at, CreateMonitor(at, tags, spec)));
    CachedStays(cfg, at, CreateMonitor(at, tags, spec), cached);
  }

  lemma UpdateMonitorMove(cfg: Config, key: string, cached: string, log: seq<Event>,
                          before: Store, at: Store, i: nat, x: Monitor)
    requires Found(cfg, key, cached, log, before, at)
    requires i < |Monitors(cfg, key, before)| && Monitors(cfg, key, before)[i].id == x.id
    requires Monitors(cfg, key, before)[i].tags == x.tags
    requires Monitors(cfg, key, before)[i].spec.resourceType == x.spec.resourceType
    ensures HasId(at.monitors, x.id)
    ensures var st' := at.(monitors := Replace(at.monitors, x));
            && Written(cfg, key, cached, log, at, st')
            && Servers(cfg, key, st') == Servers(cfg, key, before) && Pools(cfg, key, st') == Pools(cfg, key, before)
            && Monitors(cfg, key, st') == Monitors(cfg, key, before)[i := x]
  {
    hide Base, OwnOk, AllOk, Rely, EventOk, CachedOk, NoNewForeign, Guarantee, SameOthers;
    var old_x := Monitors(cfg, key, before)[i];
    assert old_x in Monitors(cfg, key, before);
    AfterTurn(cfg, key, false, before, at);
    CachedStays(cfg, before, at, cached);
    OwnMonitors(cfg, key, at);
    OwnUnique(cfg, key, at);
    UpdateMonitorOk(cfg, key, at, x, old_x);
    AfterWrite(cfg, log, Event(key, at, at.(monitors := Replace(at.monitors, x))));
    CachedStays(cfg, at, at.(monitors := Replace(at.monitors, x)), cached);
    OwnPosition(Monitors(cfg, key, at), x, i);
  }

  lemma DeleteMonitorMove(cfg: Config, key: string, cached: string, log: seq<Event>,
                          before: Store, at: Store, x: Monitor)
    requires Found(cfg, key, cached, log, before, at) && x in Monitors(cfg, key, before)
    requires forall p :: p in Pools(cfg, key, before) ==> x.id !in p.spec.activeMonitorIds
    ensures HasId(at.monitors, x.id)
    ensures var st' := at.(monitors := Remove(at.monitors, x.id));
            && Written(cfg, key, cached, log, at, st')
            && Servers(cfg, key, st') == Servers(cfg, key, before) && Pools(cfg, key, st') == Pools(cfg, key, before)
            && (forall y :: y in Monitors(cfg, key, st') <==> y in Monitors(cfg, key, before) && y != x)
  {
    hide Base, OwnOk, AllOk, Rely, EventOk, CachedOk, NoNewForeign, Guarantee, SameOthers;
    AfterTurn(cfg, key, false, before, at);
    CachedStays(cfg, before, at, cached);
    OwnUnique(cfg, key, at);
    DeleteMonitorOk(cfg, key, at, x);
    AfterWrite(cfg, log, Event(key, at, at.(monitors := Remove(at.monitors, x.id))));
    CachedStays(cfg, at, at.(monitors := Remove(at.monitors, x.id)), cached);
    RemovedOne(Monitors(cfg, key, at), x);
  }

  /** Without the object with the id of `x`, which is `x`. */
  lemma RemovedOne<T(!new)>(s: seq<Resource<T>>, x: Resource<T>)
    requires UniqueIds(s) && x in s
    ensures forall y :: y in Remove(s, x.id) <==> y in s && y != x
  {
  }

  // ---------------------------------------------------------------- pools

  lemma CreatePoolMove(cfg: Config, key: string, cached: string, log: seq<Event>,
                       before: Store, at: Store, tags: seq<Tag>, spec: PoolSpec)
    requires Found(cfg, key, cached, log, before, at) && CheckTags(tags, Query(cfg, key))
    requires forall p :: p in Pools(cfg, key, before) ==> PortOf(p.tags) != PortOf(tags)
    requires forall id :: id in spec.activeMonitorIds ==> RefersToMonitor(id, PortOf(tags), Monitors(cfg, key, before))
    requires DistinctAddresses(spec.members)
    ensures var st' := CreatePool(at, tags, spec);
            && Written(cfg, key, cached, log, at, st')
            && Servers(cfg, key, st') == Servers(cfg, key, before) && Monitors(cfg, key, st') == Monitors(cfg, key, before)
            && Pools(cfg, key, st') == Pools(cfg, key, before) + [st'.pools[|at.pools|]]
  {
    hide Base, OwnOk, AllOk, Rely, EventOk, CachedOk, NoNewForeign, Guarantee, SameOthers;
    AfterTurn(cfg, key, false, before, at);
    CachedStays(cfg, before, at, cached);
    CreatePoolOk(cfg, key, at, tags, spec);
    AfterWrite(cfg, log, Event(key, at, CreatePool(at, tags, spec)));
    CachedStays(cfg, at, CreatePool(at, tags, spec), cached);
  }

  lemma UpdatePoolMove(cfg: Config, key: string, cached: string, log: seq<Event>,
                       before: Store, at: Store, i: nat, x: Pool)
    requires Found(cfg, key, cached, log, before, at)
    requires i < |Pools(cfg, key, before)| && Pools(cfg, key, before)[i].id == x.id
    requires Pools(cfg, key, before)[i].tags == x.tags
    requires PoolRefersToMonitors(x, Monitors(cfg, key, before)) && DistinctAddresses(x.spec.members)
    ensures HasId(at.pools, x.id)
    ensures var st' := at.(pools := Replace(at.pools, x));
            && Written(cfg, key, cached, log, at, st')
            && Servers(cfg, key, st') == Servers(cfg, key, before) && Monitors(cfg, key, st') == Monitors(cfg, key, before)
            && Pools(cfg, key, st') == Pools(cfg, key, before)[i := x]
  {
    hide Base, OwnOk, AllOk, Rely, EventOk, CachedOk, NoNewForeign, Guarantee, SameOthers;
    var old_x := Pools(cfg, key, before)[i];
    assert old_x in Pools(cfg, key, before);
    AfterTurn(cfg, key, false, before, at);
    CachedStays(cfg, before, at, cached);
    OwnUnique(cfg, key, at);
    UpdatePoolOk(cfg, key, at, x, old_x);
    AfterWrite(cfg, log, Event(key, at, at.(pools := Replace(at.pools, x))));
    CachedStays(cfg, at, at.(pools := Replace(at.pools, x)), cached);
    OwnPosition(Pools(cfg, key, at), x, i);
  }

  lemma DeletePoolMove(cfg: Config, key: string, cached: string, log: seq<Event>, before: Store, at: Store, x: Pool)
    requires Found(cfg, key, cached, log, before, at) && x in Pools(cfg, key, before)
    requires forall v :: v in Servers(cfg, key, before) ==> v.spec.poolId != x.id
    ensures HasId(at.pools, x.id)
    ensures var st' := at.(pools := Remove(at.pools, x.id));
            && Written(cfg, key, cached, log, at, st')
            && Servers(cfg, key, st') == Servers(cfg, key, before) && Monitors(cfg, key, st') == Monitors(cfg, key, before)
            && (forall y :: y in Pools(cfg, key, st') <==> y in Pools(cfg, key, before) && y != x)
  {
    hide Base, OwnOk, AllOk, Rely, EventOk, CachedOk, NoNewForeign, Guarantee, SameOthers;
    AfterTurn(cfg, key, false, before, at);
    CachedStays(cfg, before, at, cached);
    OwnUnique(cfg, key, at);
    DeletePoolOk(cfg, key, at, x);
    AfterWrite(cfg, log, Event(key, at, at.(pools := Remove(at.pools, x.id))));
    CachedStays(cfg, at, at.(pools := Remove(at.pools, x.id)), cached);
    RemovedOne(Pools(cfg, key, at), x);
  }

  // ---------------------------------------------------------------- servers

  lemma CreateServerMove(cfg: Config, key: string, cached: string, log: seq<Event>,
                         before: Store, at: Store, tags: seq<Tag>, spec: ServerSpec)
    requires Found(cfg, key, cached, log, before, at) && CheckTags(tags, Query(cfg, key)) && spec.ipAddress != ""
    requires RefersToPool(Resource("", tags, spec), Pools(cfg, key, before))
    requires forall v :: v in Servers(cfg, key, before) ==>
               !SamePort(v, Resource("", tags, spec)) && SameAddress(v, Resource("", tags, spec))
    ensures var st' := CreateServer(at, tags, spec);
            && Written(cfg, key, cached, log, at, st')
            && Pools(cfg, key, st') == Pools(cfg, key, before) && Monitors(cfg, key, st') == Monitors(cfg, key, before)
            && Servers(cfg, key, st') == Servers(cfg, key, before) + [st'.servers[|at.servers|]]
            && (Covered(cfg) ==> st'.servers[|at.servers|].id !in AllIds(st'.services))
            && Remove(st'.servers, st'.servers[|at.servers|].id) == at.servers
  {
    hide Base, OwnOk, AllOk, Rely, EventOk, CachedOk, NoNewForeign, Guarantee, SameOthers;
    AfterTurn(cfg, key, false, before, at);
    CachedStays(cfg, before, at, cached);
    CreateServerOk(cfg, key, at, tags, spec);
    var st' := CreateServer(at, tags, spec);
    AfterWrite(cfg, log, Event(key, at, st'));
    CachedStays(cfg, at, st', cached);
    ServersUnique(cfg, st');
    UndoAppend(at.servers, st'.servers[|at.servers|]);
  }

  lemma UndoAppend<T(!new)>(s: seq<Resource<T>>, x: Resource<T>)
    requires UniqueIds(s + [x])
    ensures Remove(s + [x], x.id) == s
  {
    var all := s + [x];
    assert all[|s|] == x;
    assert StopsAt(all, x.id, |s|);
    RemoveAt(all, x.id, |s|);
    assert all[..|s|] == s && all[|s| + 1..] == [];
  }

  lemma UpdateServerMove(cfg: Config, key: string, cached: string, log: seq<Event>,
                         before: Store, at: Store, i: nat, x: VirtualServer)
    requires Found(cfg, key, cached, log, before, at)
    requires i < |Servers(cfg, key, before)| && Servers(cfg, key, before)[i].id == x.id
    requires Servers(cfg, key, before)[i].tags == x.tags
    requires SamePort(Servers(cfg, key, before)[i], x)
    requires Servers(cfg, key, before)[i].spec.ipAddress == x.spec.ipAddress
    requires RefersToPool(x, Pools(cfg, key, before))
    ensures HasId(at.servers, x.id)
    ensures var st' := at.(servers := Replace(at.servers, x));
            && Written(cfg, key, cached, log, at, st')
            && Pools(cfg, key, st') == Pools(cfg, key, before) && Monitors(cfg, key, st') == Monitors(cfg, key, before)
            && Servers(cfg, key, st') == Servers(cfg, key, before)[i := x]
            && (Balanced(cfg, at, None) ==> Balanced(cfg, st', None))
  {
    hide Base, OwnOk, AllOk, Rely, EventOk, CachedOk, NoNewForeign, Guarantee, SameOthers, Balanced;
    var old_x := Servers(cfg, key, before)[i];
    assert old_x in Servers(cfg, key, before);
    AfterTurn(cfg, key, false, before, at);
    CachedStays(cfg, before, at, cached);
    OwnUnique(cfg, key, at);
    UpdateServerOk(cfg, key, at, x, old_x);
    AfterWrite(cfg, log, Event(key, at, at.(servers := Replace(at.servers, x))));
    CachedStays(cfg, at, at.(servers := Replace(at.servers, x)), cached);
    OwnPosition(Servers(cfg, key, at), x, i);
    if Balanced(cfg, at, None) {
      ServersUnique(cfg, at);
      UpdateBalanced(cfg, at, x, old_x, None);
    }
  }

  lemma DeleteServerMove(cfg: Config, key: string, cached: string, log: seq<Event>,
                         before: Store, at: Store, x: VirtualServer)
    requires Found(cfg, key, cached, log, before, at) && x in Servers(cfg, key, before)
    requires Covered(cfg) ==> x.id !in AllIds(before.services)
    ensures HasId(at.servers, x.id)
    ensures var st' := at.(servers := Remove(at.servers, x.id));
            && Written(cfg, key, cached, log, at, st')
            && Pools(cfg, key, st') == Pools(cfg, key, before) && Monitors(cfg, key, st') == Monitors(cfg, key, before)
            && Servers(cfg, key, st') == Remove(Servers(cfg, key, before), x.id)
            && (forall y :: y in Servers(cfg, key, st') <==> y in Servers(cfg, key, before) && y != x)
            && (Balanced(cfg, at, None) ==>
                 Balanced(cfg, st', if Servers(cfg, key, st') == [] then Some(LeaseOf(x)) else None))
  {
    hide Base, OwnOk, AllOk, Rely, EventOk, CachedOk, NoNewForeign, Guarantee, SameOthers, Balanced;
    AfterTurn(cfg, key, false, before, at);
    CachedStays(cfg, before, at, cached);
    OwnUnique(cfg, key, at);
    OwnMember(cfg, key, before, x);
    DeleteServerOk(cfg, key, at, x);
    AfterWrite(cfg, log, Event(key, at, at.(servers := Remove(at.servers, x.id))));
    CachedStays(cfg, at, at.(servers := Remove(at.servers, x.id)), cached);
    RemovedOne(Servers(cfg, key, at), x);
    if Balanced(cfg, at, None) {
      ServersUnique(cfg, at);
      OwnServers(cfg, key, at);
      RemoveBalanced(cfg, key, at, x);
    }
  }

  /** Deleting the server that was added last leaves the others. */
  lemma UndoCreate(cfg: Config, key: string, st: Store, others: seq<VirtualServer>, x: VirtualServer)
    requires Base(cfg, st) && Servers(cfg, key, st) == others + [x]
    ensures Remove(Servers(cfg, key, st), x.id) == others
  {
    OwnUnique(cfg, key, st);
    UndoAppend(others, x);
  }

  // ---------------------------------------------------------------- addresses

  lemma AllocateMove(cfg: Config, key: string, cached: string, log: seq<Event>,
                     before: Store, at: Store, poolId: string, address: string)
    requires Found(cfg, key, cached, log, before, at)
    requires poolId in at.ipPools && address in AddressesUpTo(at.ipPools[poolId], at.ipPools[poolId].size)
    ensures Written(cfg, key, cached, log, at, Allocate(at, poolId, address))
    ensures SameOwn(cfg, key, before, Allocate(at, poolId, address))
  {
    hide Base, OwnOk, AllOk, Rely, EventOk, CachedOk, NoNewForeign, Guarantee, SameOthers;
    AfterTurn(cfg, key, false, before, at);
    CachedStays(cfg, before, at, cached);
    AllocateOk(cfg, key, at, poolId, address);
    AfterWrite(cfg, log, Event(key, at, Allocate(at, poolId, address)));
    CachedStays(cfg, at, Allocate(at, poolId, address), cached);
  }

  lemma ReleaseMove(cfg: Config, key: string, cached: string, log: seq<Event>,
                    before: Store, at: Store, poolId: string, address: string)
    requires Found(cfg, key, cached, log, before, at) && poolId in at.ipPools
    ensures Written(cfg, key, cached, log, at, Release(at, poolId, address))
    ensures SameOwn(cfg, key, before, Release(at, poolId, address))
  {
    hide Base, OwnOk, AllOk, Rely, EventOk, CachedOk, NoNewForeign, Guarantee, SameOthers;
    AfterTurn(cfg, key, false, before, at);
    CachedStays(cfg, before, at, cached);
    ReleaseOk(cfg, key, at, poolId, address);
    AfterWrite(cfg, log, Event(key, at, Release(at, poolId, address)));
    CachedStays(cfg, at, Release(at, poolId, address), cached);
  }
}
