/** One run for one Kubernetes service: brings its servers, pools and monitors in line with ports and nodes. */
module Reconciler {
  import opened Results
  import opened Text
  import opened Tags
  import opened Names
  import opened Members
  import opened Resources
  import opened BrokerState
  import opened Ownership
  import opened Attachment
  import opened Broker
  import opened Access
  import opened LbServices
  import opened Addressing
  import opened Moves
  import opened Desired

  /** What a run needs of a Kubernetes service. */
  datatype KubeService = KubeService(name: ObjectName, ports: seq<ServicePort>, statusIp: string,
                                     className: Option<string>)

  /** What a run needs if no call fails: a server for every port, or an address and a load balancer service. */
  ghost predicate ServableAt(cfg: Config, key: string, service: KubeService, ipPoolId: string, st: Store, cached: string)
  {
    var own := Servers(cfg, key, st);
    AllServed(service.ports, own) ||
    ((own != [] || service.statusIp != "" || HasFree(st, ipPoolId)) && CanAttach(cfg, st.services, cached))
  }

  /** Every server of the service is attached to a load balancer service. */
  ghost predicate AllAttached(cfg: Config, key: string, st: Store)
  {
    forall v :: v in Servers(cfg, key, st) ==> v.id in AllIds(st.services)
  }

  lemma SameAttached(cfg: Config, key: string, st: Store, st': Store)
    requires Servers(cfg, key, st') == Servers(cfg, key, st) && st'.services == st.services
    ensures AllAttached(cfg, key, st') == AllAttached(cfg, key, st)
  {
  }

  /** Every server of the service that one of the ports needs is attached. */
  ghost predicate NeededAttached(cfg: Config, key: string, ports: seq<ServicePort>, st: Store)
  {
    forall v :: v in Servers(cfg, key, st) && ForSomePort(ports, v) ==> v.id in AllIds(st.services)
  }

  /** The first of our pools or monitors with the port tag of the mapping. */
  method FindByPort<T>(m: Mapping, s: seq<Resource<T>>) returns (i: nat)
    ensures i <= |s|
    ensures i < |s| ==> PortOf(s[i].tags) == PortValue(m)
    ensures forall j :: 0 <= j < i ==> PortOf(s[j].tags) != PortValue(m)
  {
    i := 0;
    while i < |s|
      invariant i <= |s|
      invariant forall j :: 0 <= j < i ==> PortOf(s[j].tags) != PortValue(m)
    {
      if MatchTags(m, s[i].tags) {
        return;
      }
      i := i + 1;
    }
  }

  method FindServer(m: Mapping, s: seq<VirtualServer>) returns (i: nat)
    ensures i <= |s|
    ensures i < |s| ==> MatchVirtualServer(m, s[i])
    ensures forall j :: 0 <= j < i ==> !MatchVirtualServer(m, s[j])
  {
    i := 0;
    while i < |s|
      invariant i <= |s|
      invariant forall j :: 0 <= j < i ==> !MatchVirtualServer(m, s[j])
    {
      if MatchVirtualServer(m, s[i]) {
        return;
      }
      i := i + 1;
    }
  }

  function IdSet(ids: seq<string>): (r: set<string>)
    ensures forall id :: id in r <==> id in ids
  {
    set id | id in ids
  }

  lemma PoolReferred(m: Mapping, v: VirtualServer, pools: seq<Pool>)
    requires MatchVirtualServer(m, v)
    requires exists p :: p in pools && p.id == v.spec.poolId && PortOf(p.tags) == PortValue(m)
    ensures RefersToPool(v, pools)
  {
  }

  /** Where a run stands. */
  datatype Mark = Mark(st: Store, log: seq<Event>, failures: nat, attempts: nat)

  class State {
    const lb: LoadBalancerService
    const key: string
    const service: KubeService
    const nodes: seq<Node>
    var servers: seq<VirtualServer>
    var pools: seq<Pool>
    var tcpMonitors: seq<Monitor>
    var ipAddress: string
    var lbClass: Option<LbClass>

    constructor (lb: LoadBalancerService, service: KubeService, nodes: seq<Node>)
      ensures this.lb == lb && this.service == service && this.nodes == nodes && key == Print(service.name)
      ensures ipAddress == "" && lbClass == None
    {
      this.lb, this.service, this.nodes, this.key := lb, service, nodes, Print(service.name);
      this.servers, this.pools, this.tcpMonitors, this.ipAddress, this.lbClass := [], [], [], "", None;
    }

    function Cfg(): Config
    {
      lb.access.cfg
    }

    function Now(): Store
      reads lb.access.broker
    {
      lb.access.broker.View()
    }

    /** Every write so far, by whichever run, was in order, and so is the present state. */
    ghost predicate Ready()
      reads lb, lb.access.broker
    {
      lb.Ready(key) && lb.access.broker.monitorType == TCP_MONITOR_TYPE
    }

    /** The snapshot is what the broker has for this service. */
    ghost predicate Synced()
      reads this, lb.access.broker
    {
      servers == Servers(Cfg(), key, Now()) && pools == Pools(Cfg(), key, Now()) &&
      tcpMonitors == Monitors(Cfg(), key, Now())
    }

    /** The run is on its own and has met no fault since. */
    ghost predicate Calm(failures0: nat)
      reads lb.access.broker
    {
      lb.access.broker.Alone() && lb.access.broker.failures == failures0
    }

    /** Calm, and nobody else changes the remembered service id. */
    ghost predicate Quiet(failures0: nat)
      reads lb.access.broker
    {
      lb.Undisturbed() && lb.access.broker.failures == failures0
    }

    /** What the run's calls may change: the objects, the log of writes, and the counts of failed calls and of write calls. */
    ghost function Here(): Mark
      reads lb.access.broker
    {
      Mark(Now(), lb.access.broker.log, lb.access.broker.failures, lb.access.broker.attempts)
    }

    /** The log was extended by this run's writes only. */
    ghost predicate Since(log0: seq<Event>, failures0: nat)
      reads lb.access.broker
    {
      Extends(key, log0, lb.access.broker.log) && failures0 <= lb.access.broker.failures
    }

    /** The run touches nothing that is not its own. */
    ghost predicate OthersAside(before: Store)
      reads lb.access.broker
    {
      lb.access.broker.OthersAside(Cfg(), key, before)
    }

    /** On its own, work on monitors and pools touches no server, no address and no attachment either. */
    ghost predicate ServersAside(before: Store)
      reads lb.access.broker
    {
      OthersAside(before) &&
      (lb.access.broker.Alone() ==>
        Now().servers == before.servers && Now().ipPools == before.ipPools && Now().services == before.services)
    }

    // -------------------------------------------------------------- TCP monitors

    method GetTCPMonitor(m: Mapping) returns (r: Result<Option<Monitor>>)
      requires Ready() && Synced()
      modifies this`tcpMonitors, lb.access.broker
      ensures Ready() && (r.Ok? ==> Synced())
      ensures r.Ok? ==>
                if m.protocol == TCP then r.value.Some? && r.value.value in tcpMonitors && MonitorDone(m, r.value.value)
                else r.value.None?
      ensures r.Ok? ==> KeepsOtherPorts(PortValue(m), old(tcpMonitors), tcpMonitors)
      ensures (m.protocol == TCP ==> exists x :: x in old(tcpMonitors) && MonitorDone(m, x)) ==>
                r.Ok? && tcpMonitors == old(tcpMonitors) &&
                Here() == old(Here())
      ensures r.Err? ==> lb.access.broker.failures > old(lb.access.broker.failures)
      ensures ServersAside(old(Now())) && Since(old(lb.access.broker.log), old(lb.access.broker.failures))
    {
      hide InMemoryBroker.EnvOk, InMemoryBroker.Alone, InMemoryBroker.AsideBetween, LoadBalancerService.OthersIdOk;
      hide NoNewForeign, Guarantee, CachedOk, OtherRuns;
      hide Base, OwnOk, AllOk, Rely, SameOthers, Servers, Pools, Monitors;
      lb.access.broker.NothingAside(Cfg(), key);
      if m.protocol != TCP {
        return Ok(None);
      }
      OwnMonitors(Cfg(), key, Now());
      ghost var before := tcpMonitors;
      var i := FindByPort(m, tcpMonitors);
      if i < |tcpMonitors| {
        assert before[i] in before;
        var updated := UpdateTCPMonitor(i, m);
        if !updated.Done? {
          return Err(updated.error);
        }
        assert forall x :: x in before && PortOf(x.tags) != PortValue(m) ==> x in tcpMonitors;
        return Ok(Some(tcpMonitors[i]));
      }
      var created := CreateTCPMonitor(m);
      if created.Err? {
        return Err(created.error);
      }
      r := Ok(Some(created.value));
    }

    method CreateTCPMonitor(m: Mapping) returns (r: Result<Monitor>)
      requires Ready() && Synced()
      requires forall x :: x in tcpMonitors ==> PortOf(x.tags) != PortValue(m)
      modifies this`tcpMonitors, lb.access.broker
      ensures Ready() && (r.Ok? ==> Synced())
      ensures r.Ok? ==> tcpMonitors == old(tcpMonitors) + [r.value] && MonitorDone(m, r.value)
      ensures r.Err? ==> lb.access.broker.failures > old(lb.access.broker.failures)
      ensures ServersAside(old(Now())) && Since(old(lb.access.broker.log), old(lb.access.broker.failures))
    {
      hide InMemoryBroker.EnvOk, InMemoryBroker.Alone, InMemoryBroker.AsideBetween, LoadBalancerService.OthersIdOk;
      hide NoNewForeign, Guarantee, CachedOk, OtherRuns;
      hide Base, OwnOk, AllOk, Rely, SameOthers, Servers, Pools, Monitors;
      lb.access.broker.NothingAside(Cfg(), key);
      var created, at := lb.access.CreateTCPMonitor(key, m);
      IdleMove(Cfg(), key, lb.lbServiceID, old(lb.access.broker.log), old(Now()), at);
      if created.Ok? {
        CreateMonitorMove(Cfg(), key, lb.lbServiceID, old(lb.access.broker.log), old(Now()), at,
                          created.value.tags, created.value.spec);
        tcpMonitors := tcpMonitors + [created.value];
      }
      lb.access.broker.CallAside(Cfg(), key, false, old(Now()), at, old(lb.access.broker.log));
      r := created;
    }

    method UpdateTCPMonitor(i: nat, m: Mapping) returns (r: Outcome)
      requires Ready() && Synced() && i < |tcpMonitors|
      requires PortOf(tcpMonitors[i].tags) == PortValue(m)
      modifies this`tcpMonitors, lb.access.broker
      ensures Ready() && |tcpMonitors| == |old(tcpMonitors)|
      ensures r.Done? ==> Synced() && MonitorDone(m, tcpMonitors[i])
      ensures forall j :: 0 <= j < |tcpMonitors| && j != i ==> tcpMonitors[j] == old(tcpMonitors)[j]
      ensures MonitorDone(m, old(tcpMonitors)[i]) ==>
                r.Done? && tcpMonitors == old(tcpMonitors) &&
                Here() == old(Here())
      ensures !r.Done? ==> lb.access.broker.failures > old(lb.access.broker.failures)
      ensures ServersAside(old(Now())) && Since(old(lb.access.broker.log), old(lb.access.broker.failures))
    {
      hide InMemoryBroker.EnvOk, InMemoryBroker.Alone, InMemoryBroker.AsideBetween, LoadBalancerService.OthersIdOk;
      hide NoNewForeign, Guarantee, CachedOk, OtherRuns;
      hide Base, OwnOk, AllOk, Rely, SameOthers, Servers, Pools, Monitors;
      lb.access.broker.NothingAside(Cfg(), key);
      var monitor := tcpMonitors[i];
      if monitor.spec.monitorPort == Format(m.nodePort) {
        return Done;
      }
      monitor := monitor.(spec := monitor.spec.(monitorPort := Format(m.nodePort)));
      tcpMonitors := tcpMonitors[i := monitor];
      var updated, at := lb.access.UpdateTCPMonitor(key, monitor);
      IdleMove(Cfg(), key, lb.lbServiceID, old(lb.access.broker.log), old(Now()), at);
      UpdateMonitorMove(Cfg(), key, lb.lbServiceID, old(lb.access.broker.log), old(Now()), at, i, monitor);
      lb.access.broker.CallAside(Cfg(), key, false, old(Now()), at, old(lb.access.broker.log));
      r := updated;
    }

    // -------------------------------------------------------------- pools

    static function MonitorIds(monitor: Option<Monitor>): seq<string>
    {
      if monitor.Some? then [monitor.value.id] else []
    }

    method GetPool(m: Mapping, monitor: Option<Monitor>) returns (r: Result<Pool>)
      requires Ready() && Synced()
      requires monitor.Some? ==> monitor.value in tcpMonitors && PortOf(monitor.value.tags) == PortValue(m)
      modifies this`pools, lb.access.broker
      ensures Ready() && (r.Ok? ==> Synced())
      ensures r.Ok? ==> r.value in pools && PoolDone(m, nodes, MonitorIds(monitor), r.value)
      ensures r.Ok? ==> KeepsOtherPorts(PortValue(m), old(pools), pools)
      ensures (exists p :: p in old(pools) && PoolDone(m, nodes, MonitorIds(monitor), p)) ==>
                r.Ok? && pools == old(pools) &&
                Here() == old(Here())
      ensures r.Err? ==> lb.access.broker.failures > old(lb.access.broker.failures)
      ensures ServersAside(old(Now())) && Since(old(lb.access.broker.log), old(lb.access.broker.failures))
    {
      hide InMemoryBroker.EnvOk, InMemoryBroker.Alone, InMemoryBroker.AsideBetween, LoadBalancerService.OthersIdOk;
      hide NoNewForeign, Guarantee, CachedOk, OtherRuns;
      hide Base, OwnOk, AllOk, Rely, SameOthers, Servers, Pools, Monitors;
      hide BroughtUpToDate;
      lb.access.broker.NothingAside(Cfg(), key);
      OwnPools(Cfg(), key, Now());
      ghost var before := pools;
      var activeMonitorIds := MonitorIds(monitor);
      assert forall id :: id in activeMonitorIds ==> RefersToMonitor(id, PortValue(m), tcpMonitors);
      var i := FindByPort(m, pools);
      if i < |pools| {
        assert before[i] in before;
        var updated := UpdatePool(i, m, activeMonitorIds);
        if !updated.Done? {
          return Err(updated.error);
        }
        assert forall p :: p in before && PortOf(p.tags) != PortValue(m) ==> p in pools;
        return Ok(pools[i]);
      }
      r := CreatePool(m, activeMonitorIds);
    }

    method CreatePool(m: Mapping, activeMonitorIds: seq<string>) returns (r: Result<Pool>)
      requires Ready() && Synced()
      requires forall p :: p in pools ==> PortOf(p.tags) != PortValue(m)
      requires forall id :: id in activeMonitorIds ==> RefersToMonitor(id, PortValue(m), tcpMonitors)
      modifies this`pools, lb.access.broker
      ensures Ready() && (r.Ok? ==> Synced())
      ensures r.Ok? ==> pools == old(pools) + [r.value] && PoolDone(m, nodes, activeMonitorIds, r.value)
      ensures r.Err? ==> lb.access.broker.failures > old(lb.access.broker.failures)
      ensures r.Ok? ==> BroughtUpToDate([], NodeAddresses(nodes), r.value.spec.members)
      ensures ServersAside(old(Now())) && Since(old(lb.access.broker.log), old(lb.access.broker.failures))
    {
      hide InMemoryBroker.EnvOk, InMemoryBroker.Alone, InMemoryBroker.AsideBetween, LoadBalancerService.OthersIdOk;
      hide NoNewForeign, Guarantee, CachedOk, OtherRuns;
      hide Base, OwnOk, AllOk, Rely, SameOthers, Servers, Pools, Monitors, Ready, RefersToMonitor;
      hide BroughtUpToDate, Addresses, NodeAddresses, DistinctAddresses;
      var members, modified := UpdatedPoolMembers([], nodes);
      NoMembersDistinct();
      UpToDateDistinct([], NodeAddresses(nodes), members);
      r := AddPool(m, members, activeMonitorIds);
      if r.Ok? {
        pools := pools + [r.value];
      }
    }

    /** The call that creates a pool. */
    method AddPool(m: Mapping, members: seq<PoolMember>, activeMonitorIds: seq<string>) returns (r: Result<Pool>)
      requires Ready() && Synced() && DistinctAddresses(members)
      requires forall p :: p in pools ==> PortOf(p.tags) != PortValue(m)
      requires forall id :: id in activeMonitorIds ==> RefersToMonitor(id, PortValue(m), tcpMonitors)
      modifies lb.access.broker
      ensures Ready()
      ensures Servers(Cfg(), key, Now()) == servers && Monitors(Cfg(), key, Now()) == tcpMonitors
      ensures r.Ok? ==>
                && Pools(Cfg(), key, Now()) == pools + [r.value] && PortOf(r.value.tags) == PortValue(m)
                && r.value.spec == PoolSpec(members, activeMonitorIds)
      ensures r.Err? ==> lb.access.broker.failures > old(lb.access.broker.failures)
      ensures ServersAside(old(Now())) && Since(old(lb.access.broker.log), old(lb.access.broker.failures))
    {
      hide InMemoryBroker.EnvOk, InMemoryBroker.Alone, InMemoryBroker.AsideBetween, LoadBalancerService.OthersIdOk;
      hide NoNewForeign, Guarantee, CachedOk, OtherRuns;
      hide Base, OwnOk, AllOk, Rely, SameOthers, Servers, Pools, Monitors, DistinctAddresses, RefersToMonitor, CheckTags, PortOf;
      ghost var before, log0 := Now(), lb.access.broker.log;
      ghost var at;
      r, at := lb.access.CreatePool(key, m, members, activeMonitorIds);
      IdleMove(Cfg(), key, lb.lbServiceID, log0, before, at);
      if r.Ok? {
        CreatePoolMove(Cfg(), key, lb.lbServiceID, log0, before, at, r.value.tags, r.value.spec);
      }
      lb.access.broker.CallAside(Cfg(), key, false, before, at, log0);
    }

    method UpdatePool(i: nat, m: Mapping, activeMonitorIds: seq<string>) returns (r: Outcome)
      requires Ready() && pools == Pools(Cfg(), key, Now()) && i < |pools|
      requires PortOf(pools[i].tags) == PortValue(m)
      requires forall id :: id in activeMonitorIds ==> RefersToMonitor(id, PortValue(m), Monitors(Cfg(), key, Now()))
      modifies this`pools, lb.access.broker
      ensures Ready() && |pools| == |old(pools)|
      ensures Servers(Cfg(), key, Now()) == Servers(Cfg(), key, old(Now()))
      ensures Monitors(Cfg(), key, Now()) == Monitors(Cfg(), key, old(Now()))
      ensures r.Done? ==> pools == Pools(Cfg(), key, Now()) && PoolDone(m, nodes, activeMonitorIds, pools[i])
      ensures pools[i].id == old(pools)[i].id && pools[i].tags == old(pools)[i].tags
      ensures forall j :: 0 <= j < |pools| && j != i ==> pools[j] == old(pools)[j]
      ensures PoolDone(m, nodes, activeMonitorIds, old(pools)[i]) ==>
                r.Done? && pools == old(pools) &&
                Here() == old(Here())
      ensures !r.Done? ==> lb.access.broker.failures > old(lb.access.broker.failures)
      ensures r.Done? ==> BroughtUpToDate(old(pools)[i].spec.members, NodeAddresses(nodes), pools[i].spec.members)
      ensures ServersAside(old(Now())) && Since(old(lb.access.broker.log), old(lb.access.broker.failures))
    {
      hide InMemoryBroker.EnvOk, InMemoryBroker.Alone, InMemoryBroker.AsideBetween, LoadBalancerService.OthersIdOk;
      hide Base, OwnOk, AllOk, Rely, SameOthers, Servers, Pools, Monitors, Ready;
      hide BroughtUpToDate, DistinctAddresses, RefersToMonitor, PortOf, PoolDone;
      lb.access.broker.NothingAside(Cfg(), key);
      PresentPoolsOk();
      assert pools[i] in pools;
      var pool, changed := Updated(pools[i], m, activeMonitorIds);
      if !changed {
        return Done;
      }
      pools := pools[i := pool];
      r := WritePool(i, pool);
    }

    /** The pool as it should be, and whether it differs. */
    method Updated(pool: Pool, m: Mapping, activeMonitorIds: seq<string>) returns (x: Pool, changed: bool)
      requires PortOf(pool.tags) == PortValue(m) && DistinctAddresses(pool.spec.members)
      ensures x.id == pool.id && x.tags == pool.tags && x.spec.activeMonitorIds == activeMonitorIds
      ensures PoolDone(m, nodes, activeMonitorIds, x) && DistinctAddresses(x.spec.members)
      ensures BroughtUpToDate(pool.spec.members, NodeAddresses(nodes), x.spec.members)
      ensures changed <==> x != pool
      ensures PoolDone(m, nodes, activeMonitorIds, pool) ==> !changed
    {
      hide BroughtUpToDate, Addresses, NodeAddresses, DistinctAddresses, PortOf;
      var newMembers, modified := UpdatedPoolMembers(pool.spec.members, nodes);
      UpToDateDistinct(pool.spec.members, NodeAddresses(nodes), newMembers);
      if Addresses(pool.spec.members) == NodeAddresses(nodes) {
        UpToDateSettled(pool.spec.members, NodeAddresses(nodes), newMembers);
      }
      var sameIds := StringsEquals(activeMonitorIds, pool.spec.activeMonitorIds);
      changed := modified || !sameIds;
      x := if changed then pool.(spec := PoolSpec(newMembers, activeMonitorIds)) else pool;
    }

    lemma PresentPoolsOk()
      requires Ready()
      ensures forall p :: p in Pools(Cfg(), key, Now()) ==> DistinctAddresses(p.spec.members)
    {
      hide Base, AllOk, OwnOk, Servers, Pools, Monitors;
      OwnPools(Cfg(), key, Now());
    }

    /** The call that writes a pool back. */
    method WritePool(i: nat, x: Pool) returns (r: Outcome)
      requires Ready() && i < |Pools(Cfg(), key, Now())|
      requires Pools(Cfg(), key, Now())[i].id == x.id && Pools(Cfg(), key, Now())[i].tags == x.tags
      requires PoolRefersToMonitors(x, Monitors(Cfg(), key, Now())) && DistinctAddresses(x.spec.members)
      modifies lb.access.broker
      ensures Ready()
      ensures Servers(Cfg(), key, Now()) == Servers(Cfg(), key, old(Now()))
      ensures Monitors(Cfg(), key, Now()) == Monitors(Cfg(), key, old(Now()))
      ensures r.Done? ==> Pools(Cfg(), key, Now()) == Pools(Cfg(), key, old(Now()))[i := x]
      ensures !r.Done? ==> lb.access.broker.failures > old(lb.access.broker.failures)
      ensures ServersAside(old(Now())) && Since(old(lb.access.broker.log), old(lb.access.broker.failures))
    {
      hide InMemoryBroker.EnvOk, InMemoryBroker.Alone, InMemoryBroker.AsideBetween, LoadBalancerService.OthersIdOk;
      hide NoNewForeign, Guarantee, CachedOk, OtherRuns;
      hide Base, OwnOk, AllOk, Rely, SameOthers, Servers, Pools, Monitors, PoolRefersToMonitors, DistinctAddresses, Replace;
      ghost var before, log0 := Now(), lb.access.broker.log;
      ghost var at;
      r, at := lb.access.UpdatePool(key, x);
      IdleMove(Cfg(), key, lb.lbServiceID, log0, before, at);
      UpdatePoolMove(Cfg(), key, lb.lbServiceID, log0, before, at, i, x);
      lb.access.broker.CallAside(Cfg(), key, false, before, at, log0);
    }

    // -------------------------------------------------------------- addresses

    /** On its own, the run touches nothing but addresses. */
    ghost predicate OnlyAddresses(before: Store)
      reads lb.access.broker
    {
      SameOwn(Cfg(), key, before, Now()) &&
      (lb.access.broker.Alone() ==> Now() == before.(ipPools := Now().ipPools))
    }

    /** The pool of the class, once it is known. */
    ghost function PoolId(): string
      reads this`lbClass
    {
      if lbClass.Some? then lbClass.value.ipPoolId else ""
    }

    /** The address at hand. */
    ghost function Held(): Lease
      reads this`lbClass, this`ipAddress
    {
      Lease(PoolId(), ipAddress)
    }

    /** The allocations after giving back an address, if it came from the pool. */
    ghost function GivenBack(before: Store, fromPool: bool): map<string, IpPool>
      reads this
    {
      if fromPool && Leased(before, Held()) then Release(before, Held().poolId, ipAddress).ipPools else before.ipPools
    }

    method AllocateResources() returns (r: Result<bool>)
      requires Ready() && lbClass.Some?
      modifies this`ipAddress, lb.access.broker
      ensures Ready() && OnlyAddresses(old(Now())) && OthersAside(old(Now()))
      ensures r == Ok(true) ==>
                old(ipAddress) == "" && ipAddress != "" &&
                (lb.access.broker.Alone() ==>
                  Held().poolId in old(Now()).ipPools && !Leased(old(Now()), Held()) &&
                  Now() == Allocate(old(Now()), Held().poolId, ipAddress))
      ensures r != Ok(true) ==> ipAddress == old(ipAddress) && (lb.access.broker.Alone() ==> Now() == old(Now()))
      ensures r == Ok(false) ==> ipAddress != ""
      ensures old(ipAddress) != "" ==> r == Ok(false)
      ensures r.Err? ==> lb.access.broker.failures > old(lb.access.broker.failures) || Blocking(r.error)
      ensures Calm(old(lb.access.broker.failures)) ==>
                (r.Ok? <==> old(ipAddress) != "" || HasFree(old(Now()), lbClass.value.ipPoolId))
      ensures Since(old(lb.access.broker.log), old(lb.access.broker.failures))
    {
      hide InMemoryBroker.EnvOk, InMemoryBroker.Alone, InMemoryBroker.AsideBetween, LoadBalancerService.OthersIdOk;
      hide NoNewForeign, Guarantee, CachedOk, OtherRuns;
      hide Base, OwnOk, AllOk, Rely, SameOthers, Servers, Pools, Monitors;
      lb.access.broker.NothingAside(Cfg(), key);
      SameOwnReflexive(Cfg(), key, Now());
      if ipAddress != "" {
        return Ok(false);
      }
      var poolId := lbClass.value.ipPoolId;
      var allocation, at := lb.access.AllocateExternalIPAddress(key, poolId);
      IdleMove(Cfg(), key, lb.lbServiceID, old(lb.access.broker.log), old(Now()), at);
      if allocation.Err? {
        lb.access.broker.CallAside(Cfg(), key, false, old(Now()), at, old(lb.access.broker.log));
        return Err(allocation.error);
      }
      AllocateMove(Cfg(), key, lb.lbServiceID, old(lb.access.broker.log), old(Now()), at, poolId, allocation.value);
      lb.access.broker.CallAside(Cfg(), key, false, old(Now()), at, old(lb.access.broker.log));
      ipAddress := allocation.value;
      AddressNotEmpty(at.ipPools[poolId], ipAddress);
      r := Ok(true);
    }

    method ReleaseResources() returns (r: Outcome)
      requires Ready() && (ipAddress != "" ==> lbClass.Some?)
      modifies lb.access.broker
      ensures Ready() && OnlyAddresses(old(Now())) && OthersAside(old(Now()))
      ensures lb.access.broker.Alone() ==>
                Now() == if r.Done? && ipAddress != "" && Leased(old(Now()), Held())
                         then Release(old(Now()), Held().poolId, ipAddress) else old(Now())
      ensures !r.Done? && lb.access.broker.Alone() ==> lb.access.broker.failures > old(lb.access.broker.failures)
      ensures ipAddress == "" ==>
                r.Done? && Here() == old(Here())
      ensures !r.Done? ==> lb.access.broker.failures > old(lb.access.broker.failures) || r == Failed(NotFound)
      ensures Since(old(lb.access.broker.log), old(lb.access.broker.failures))
    {
      hide InMemoryBroker.EnvOk, InMemoryBroker.Alone, InMemoryBroker.AsideBetween, LoadBalancerService.OthersIdOk;
      hide NoNewForeign, Guarantee, CachedOk, OtherRuns;
      hide Base, OwnOk, AllOk, Rely, SameOthers, Servers, Pools, Monitors;
      lb.access.broker.NothingAside(Cfg(), key);
      SameOwnReflexive(Cfg(), key, Now());
      if ipAddress == "" {
        return Done;
      }
      var poolId := lbClass.value.ipPoolId;
      var found, at := lb.access.IsAllocatedExternalIPAddress(key, poolId, ipAddress);
      IdleMove(Cfg(), key, lb.lbServiceID, old(lb.access.broker.log), old(Now()), at);
      lb.access.broker.CallAside(Cfg(), key, false, old(Now()), at, old(lb.access.broker.log));
      if found.Err? {
        return Failed(found.error);
      }
      if !found.value {
        return Done;
      }
      var released, at' := lb.access.ReleaseExternalIPAddress(key, poolId, ipAddress);
      IdleMove(Cfg(), key, lb.lbServiceID, old(lb.access.broker.log), at, at');
      SameOwnTransitive(Cfg(), key, old(Now()), at, at');
      if released.Done? {
        ReleaseMove(Cfg(), key, lb.lbServiceID, old(lb.access.broker.log), at, at', poolId, ipAddress);
        SameOwnTransitive(Cfg(), key, old(Now()), at, Now());
      }
      lb.access.broker.CallAside(Cfg(), key, false, at, at', old(lb.access.broker.log));
      OthersAsideSince(old(Now()), at);
      r := released;
    }

    // -------------------------------------------------------------- virtual servers

    /** All servers of the service carry the run's address and class. */
    ghost predicate Anchored()
      reads this
    {
      lbClass.Some? && forall v :: v in servers ==> v.spec.ipAddress == ipAddress && ClassOf(v) == lbClass.value
    }

    /** On its own, a run that had the address `ip0` in the state `st0`, or none and no server, has `ip1` in `st1`: whatever
        failed, its servers have that address, and no other was allocated or released, nor this one if it had one. If
        nothing failed, a new address is allocated exactly if servers have it. */
    ghost predicate StakedAt(st0: Store, ip0: string, st1: Store, ip1: string, calm: bool)
      reads this`lbClass
    {
      lb.access.broker.Alone() ==>
        var l, own := Lease(PoolId(), ip1), Servers(Cfg(), key, st1);
        && AllHave(own, l) && (ip1 == "" ==> own == [])
        && (service.ports != [] && Servers(Cfg(), key, st0) != [] ==> own != [])
        && (ip0 != "" || ip1 == "" ==> st1.ipPools == st0.ipPools)
        && (ip0 == "" && ip1 != "" ==>
             && PoolsBut(st0, st1, l) && l.poolId in st0.ipPools && !Leased(st0, l)
             && (calm ==> (Leased(st1, l) <==> own != [])))
    }

    ghost predicate Staked(st0: Store, ip0: string, failures0: nat)
      reads this, lb.access.broker
    {
      StakedAt(st0, ip0, Now(), ipAddress, lb.access.broker.failures == failures0)
    }

    lemma StakedTransitive(st0: Store, ip0: string, failures0: nat, mid: Store, ip: string, failures1: nat)
      requires StakedAt(st0, ip0, mid, ip, failures1 == failures0) && Staked(mid, ip, failures1)
      requires (ip0 != "" ==> ip == ip0) && (ip != "" ==> ipAddress == ip)
      requires ip0 == "" && ip != "" ==> service.ports != [] && Servers(Cfg(), key, mid) != []
      requires failures0 <= failures1 <= lb.access.broker.failures
      ensures Staked(st0, ip0, failures0)
    {
      hide AllHave, Servers, PoolsBut, InMemoryBroker.Alone;
      if lb.access.broker.Alone() {
        var l := Lease(PoolId(), ipAddress);
        if Now().ipPools == mid.ipPools {
          PoolsButSame(mid, Now(), l);
        }
        if mid.ipPools == st0.ipPools {
          PoolsButSame(st0, mid, l);
        }
        if ip0 == "" && ipAddress != "" {
          PoolsButTransitive(st0, mid, Now(), l);
        }
      }
    }

    /** On its own, the run has servers with the address at hand only, and no other was allocated or released. */
    ghost predicate AddressKept(st0: Store)
      reads this, lb.access.broker
    {
      lb.access.broker.Alone() ==> PoolsBut(st0, Now(), Held()) && AllHave(Servers(Cfg(), key, Now()), Held())
    }

    lemma AnchoredLeases(own: seq<VirtualServer>)
      requires Anchored() && forall v :: v in own ==> v in servers
      ensures AllHave(own, Held())
    {
      forall v | v in own ensures LeaseOf(v) == Held() {
        LeaseOfOwn(v);
      }
    }

    lemma SameKept(st0: Store)
      requires lb.access.broker.Alone() ==> Now().ipPools == st0.ipPools && AllHave(Servers(Cfg(), key, Now()), Held())
      ensures AddressKept(st0)
    {
      hide Servers, AllHave, PoolsBut;
      if lb.access.broker.Alone() {
        PoolsButSame(st0, Now(), Held());
      }
    }

    lemma SinceKept(st0: Store, mid: Store)
      requires lb.access.broker.Alone() ==> mid.ipPools == st0.ipPools
      requires AddressKept(mid)
      ensures AddressKept(st0)
    {
      KeptSince(st0, mid);
    }

    lemma KeptSince(st0: Store, mid: Store)
      requires lb.access.broker.Alone() ==>
                 && mid.ipPools == st0.ipPools
                 && PoolsBut(mid, Now(), Held()) && AllHave(Servers(Cfg(), key, Now()), Held())
      ensures AddressKept(st0)
    {
      hide Servers, InMemoryBroker.Alone, AllHave, PoolsBut;
      if lb.access.broker.Alone() {
        PoolsButSame(st0, mid, Held());
        PoolsButTransitive(st0, mid, Now(), Held());
      }
    }

    /** As long as servers and allocations are as before. */
    lemma StakedSame(st0: Store, failures0: nat)
      requires lb.access.broker.Alone() ==> Now().ipPools == st0.ipPools && AllHave(Servers(Cfg(), key, Now()), Held())
      requires lb.access.broker.Alone() && ipAddress == "" ==> Servers(Cfg(), key, Now()) == []
      requires lb.access.broker.Alone() && Servers(Cfg(), key, st0) != [] ==> Servers(Cfg(), key, Now()) != []
      ensures Staked(st0, ipAddress, failures0)
    {
    }

    lemma StakedByCreate(st0: Store, mid: Store, ip0: string, fromPool: bool, failures0: nat)
      requires lb.access.broker.Alone() ==> AllocatedFrom(st0, mid, fromPool) && (!fromPool ==> Now().ipPools == mid.ipPools)
      requires AddressKept(mid) && ipAddress != "" && (fromPool <==> ip0 == "")
      requires Servers(Cfg(), key, st0) != [] ==> Servers(Cfg(), key, Now()) != []
      requires fromPool && Calm(failures0) ==>
                 if Servers(Cfg(), key, Now()) != [] then Now().ipPools == mid.ipPools else !Leased(Now(), Held())
      ensures Staked(st0, ip0, failures0)
    {
      hide AllHave, Servers, PoolsBut, InMemoryBroker.Alone, Leased, Allocate;
      if lb.access.broker.Alone() && fromPool {
        PoolsButAllocated(st0, Held());
        if Now().ipPools == mid.ipPools {
          SameLeased(mid, Now());
        }
        PoolsButTransitive(st0, mid, Now(), Held());
      }
    }

    ghost predicate HasPool(m: Mapping, poolId: string)
      reads this
    {
      exists p :: p in pools && p.id == poolId && PortOf(p.tags) == PortValue(m)
    }

    /** An address without a server is not carried along. */
    ghost predicate NoSpareAddress()
      reads this
    {
      servers == [] ==> ipAddress == ""
    }

    /** Another server can be created: an address is at hand or can be had, and so is a service to attach it to. */
    ghost predicate Able()
      reads this, lb, lb.access.broker
    {
      (ipAddress != "" || HasFree(Now(), PoolId())) && CanAttach(Cfg(), Now().services, lb.lbServiceID)
    }

    /** The servers from before are there, and serve the same ports, and possibly further ones are. */
    ghost predicate Extended(before: seq<VirtualServer>, after: seq<VirtualServer>)
    {
      |before| <= |after| && forall j :: 0 <= j < |before| ==> SamePort(after[j], before[j]) && after[j].id == before[j].id
    }

    lemma ExtendedTransitive(before: seq<VirtualServer>, mid: seq<VirtualServer>, after: seq<VirtualServer>)
      requires Extended(before, mid) && Extended(mid, after)
      ensures Extended(before, after)
    {
    }

    lemma PresentServersUnique()
      requires Ready()
      ensures UniqueIds(Servers(Cfg(), key, Now()))
    {
      hide Base, OwnOk, AllOk, Servers, Pools, Monitors;
      OwnUnique(Cfg(), key, Now());
    }

    lemma SameServersServe(before: Store)
      ensures Now().servers == before.servers ==> Servers(Cfg(), key, Now()) == Servers(Cfg(), key, before)
    {
    }

    method GetVirtualServer(m: Mapping, poolId: string) returns (r: Result<VirtualServer>)
      requires Ready() && Synced() && Anchored() && HasPool(m, poolId)
      modifies this`servers, this`ipAddress, lb`lbServiceID, lb.access.broker
      ensures Ready() && (old(ipAddress) != "" ==> ipAddress == old(ipAddress))
      ensures r.Ok? ==> Synced() && Anchored() && r.value in servers && ServerDone(m, poolId, r.value)
      ensures r.Ok? ==> KeepsOtherServers(PortValue(m), old(servers), servers) && Extended(old(servers), servers)
      ensures (exists v :: v in old(servers) && ServerDone(m, poolId, v)) ==>
                r.Ok? && servers == old(servers) && ipAddress == old(ipAddress) &&
                Here() == old(Here())
      ensures Calm(old(lb.access.broker.failures)) && old(NoSpareAddress()) && Balanced(Cfg(), old(Now()), None) ==>
                Balanced(Cfg(), Now(), None)
      ensures r.Err? ==> lb.access.broker.failures > old(lb.access.broker.failures) || Blocking(r.error)
      ensures Quiet(old(lb.access.broker.failures)) ==>
                && (r.Ok? <==> HasServer(m, old(servers)) || old(Able()))
                && (r.Ok? ==> lbClass.Some? && Able() == old(Able()) && (old(Able()) || |servers| == |old(servers)|))
      ensures Calm(old(lb.access.broker.failures)) ==> Grown(Cfg(), key, old(Now()), Now())
      ensures OthersAside(old(Now())) && Since(old(lb.access.broker.log), old(lb.access.broker.failures))
      ensures Staked(old(Now()), old(ipAddress), old(lb.access.broker.failures))
    {
      hide InMemoryBroker.View, InMemoryBroker.EnvOk, InMemoryBroker.Alone, InMemoryBroker.AsideBetween,
        LoadBalancerService.OthersIdOk;
      hide NoNewForeign, Guarantee, CachedOk, OtherRuns;
      hide Base, OwnOk, AllOk, Rely, SameOthers, Servers, Pools, Monitors;
      hide Balanced, PortOf, Ready, HasPool, ClassOf, Grown, CanAttach, ServersOk, AllHave,
        LeaseOf, PoolsBut, KeepsOtherServers, Extended, MatchVirtualServer, StakedAt;
      lb.access.broker.NothingAside(Cfg(), key);
      ghost var before, st0 := servers, Now();
      ServersHaveAddress();
      AnchoredLeases(servers);
      var i := FindServer(m, servers);
      if i < |servers| {
        FoundServer(i, m, poolId);
        var updated := UpdateVirtualServer(i, m, poolId);
        AnchoredLeases(servers);
        StakedSame(st0, old(lb.access.broker.failures));
        if !updated.Done? {
          return Err(updated.error);
        }
        OneUpdated(m, before, servers, i);
        return Ok(servers[i]);
      }
      ghost var cleaned;
      r, cleaned := CreateVirtualServer(m, poolId);
      if r.Ok? {
        OneAdded(PortValue(m), before, r.value);
      }
    }

    lemma OneUpdated(m: Mapping, before: seq<VirtualServer>, after: seq<VirtualServer>, i: nat)
      requires |after| == |before| && i < |before| && after[i].id == before[i].id
      requires MatchVirtualServer(m, before[i]) && MatchVirtualServer(m, after[i])
      requires forall j :: 0 <= j < |after| && j != i ==> after[j] == before[j]
      ensures KeepsOtherServers(PortValue(m), before, after) && Extended(before, after)
    {
      assert ServerPort(before[i]) == PortValue(m);
      forall v | v in before && ServerPort(v) != PortValue(m) ensures v in after {
        var j :| 0 <= j < |before| && before[j] == v;
        assert after[j] in after;
      }
    }

    lemma OneAdded(port: string, before: seq<VirtualServer>, x: VirtualServer)
      ensures KeepsOtherServers(port, before, before + [x]) && Extended(before, before + [x])
    {
    }

    /** The server that was found is the only one of the port. */
    lemma FoundServer(i: nat, m: Mapping, poolId: string)
      requires Ready() && Synced() && i < |servers| && MatchVirtualServer(m, servers[i])
      ensures (exists v :: v in servers && ServerDone(m, poolId, v)) ==> ServerDone(m, poolId, servers[i])
    {
      hide Base, OwnOk, AllOk, Servers, Pools, Monitors;
      OwnServers(Cfg(), key, Now());
      assert servers[i] in servers;
    }

    method UpdateVirtualServer(i: nat, m: Mapping, poolId: string) returns (r: Outcome)
      requires Ready() && Synced() && Anchored() && HasPool(m, poolId)
      requires i < |servers| && MatchVirtualServer(m, servers[i])
      modifies this`servers, lb.access.broker
      ensures Ready() && |servers| == |old(servers)| && Anchored()
      ensures servers[i].id == old(servers)[i].id
      ensures r.Done? ==> Synced() && ServerDone(m, poolId, servers[i])
      ensures forall j :: 0 <= j < |servers| && j != i ==> servers[j] == old(servers)[j]
      ensures ServerDone(m, poolId, old(servers)[i]) ==>
                r.Done? && servers == old(servers) &&
                Here() == old(Here())
      ensures Calm(old(lb.access.broker.failures)) && Balanced(Cfg(), old(Now()), None) ==> Balanced(Cfg(), Now(), None)
      ensures !r.Done? ==> lb.access.broker.failures > old(lb.access.broker.failures)
      ensures lb.access.broker.Alone() ==> Now() == old(Now()).(servers := Now().servers)
      ensures lb.access.broker.Alone() ==> Grown(Cfg(), key, old(Now()), Now())
      ensures OthersAside(old(Now())) && Since(old(lb.access.broker.log), old(lb.access.broker.failures))
      ensures Servers(Cfg(), key, Now()) == if r.Done? then servers else old(servers)
    {
      hide InMemoryBroker.EnvOk, InMemoryBroker.Alone, InMemoryBroker.AsideBetween, LoadBalancerService.OthersIdOk;
      hide Base, OwnOk, AllOk, Rely, SameOthers, Servers, Pools, Monitors;
      hide Balanced, PortOf, RefersToPool, Ready, Grown, HasPool;
      lb.access.broker.NothingAside(Cfg(), key);
      var server := servers[i];
      if MatchNodePort(m, server) && poolId == server.spec.poolId {
        SnapshotUnique();
        GrownSame(Cfg(), key, Now(), Now());
        return Done;
      }
      server := server.(spec := server.spec.(memberPort := Format(m.nodePort), poolId := poolId));
      HasPoolReferred(m, poolId, server);
      servers := servers[i := server];
      r := WriteServer(i, server);
    }

    lemma HasPoolReferred(m: Mapping, poolId: string, v: VirtualServer)
      requires HasPool(m, poolId) && MatchVirtualServer(m, v) && v.spec.poolId == poolId
      ensures RefersToPool(v, pools)
    {
      PoolReferred(m, v, pools);
    }

    /** The call that writes a server back. */
    method WriteServer(i: nat, x: VirtualServer) returns (r: Outcome)
      requires Ready() && i < |Servers(Cfg(), key, Now())|
      requires var v := Servers(Cfg(), key, Now())[i];
               v.id == x.id && v.tags == x.tags && SamePort(v, x) && v.spec.ipAddress == x.spec.ipAddress
      requires RefersToPool(x, Pools(Cfg(), key, Now()))
      modifies lb.access.broker
      ensures Ready()
      ensures Pools(Cfg(), key, Now()) == Pools(Cfg(), key, old(Now()))
      ensures Monitors(Cfg(), key, Now()) == Monitors(Cfg(), key, old(Now()))
      ensures Servers(Cfg(), key, Now()) ==
              if r.Done? then Servers(Cfg(), key, old(Now()))[i := x] else Servers(Cfg(), key, old(Now()))
      ensures lb.access.broker.Alone() ==> Now() == old(Now()).(servers := Now().servers)
      ensures lb.access.broker.Alone() && Balanced(Cfg(), old(Now()), None) ==> Balanced(Cfg(), Now(), None)
      ensures lb.access.broker.Alone() ==> Grown(Cfg(), key, old(Now()), Now())
      ensures !r.Done? ==> lb.access.broker.failures > old(lb.access.broker.failures)
      ensures OthersAside(old(Now())) && Since(old(lb.access.broker.log), old(lb.access.broker.failures))
    {
      hide InMemoryBroker.EnvOk, InMemoryBroker.Alone, InMemoryBroker.AsideBetween, LoadBalancerService.OthersIdOk;
      hide NoNewForeign, Guarantee, CachedOk, OtherRuns;
      hide Base, OwnOk, AllOk, Rely, SameOthers, Servers, Pools, Monitors, Balanced, RefersToPool, Replace, Grown, SamePort;
      PresentServersUnique();
      ghost var before, log0 := Now(), lb.access.broker.log;
      ghost var at;
      r, at := lb.access.UpdateVirtualServer(key, x);
      IdleMove(Cfg(), key, lb.lbServiceID, log0, before, at);
      UpdateServerMove(Cfg(), key, lb.lbServiceID, log0, before, at, i, x);
      lb.access.broker.CallAside(Cfg(), key, false, before, at, log0);
      if lb.access.broker.Alone() {
        if r.Done? {
          GrownByUpdate(Cfg(), key, before, Now(), i, x);
        } else {
          GrownSame(Cfg(), key, before, Now());
        }
      }
    }

    /** Servers have an address, so only a first server can be the one to need an allocation. */
    lemma ServersHaveAddress()
      requires Ready() && Synced() && Anchored()
      ensures servers != [] ==> ipAddress != ""
    {
      hide Base, OwnOk, AllOk, Rely, Servers, Pools, Monitors;
      OwnServers(Cfg(), key, Now());
      assert servers != [] ==> servers[0] in servers;
    }

    /** The call that creates a server with the address the run has by now. */
    method AddServer(m: Mapping, poolId: string) returns (r: Result<VirtualServer>)
      requires Ready() && Synced() && Anchored() && HasPool(m, poolId) && ipAddress != ""
      requires forall v :: v in servers ==> !MatchVirtualServer(m, v)
      modifies lb.access.broker
      ensures Ready()
      ensures Pools(Cfg(), key, Now()) == pools && Monitors(Cfg(), key, Now()) == tcpMonitors
      ensures r.Err? ==>
                && Servers(Cfg(), key, Now()) == servers && (lb.access.broker.Alone() ==> Now() == old(Now()))
                && lb.access.broker.failures > old(lb.access.broker.failures)
      ensures r.Ok? ==>
                && Servers(Cfg(), key, Now()) == servers + [r.value] && ServerDone(m, poolId, r.value)
                && r.value.spec.ipAddress == ipAddress && ClassOf(r.value) == lbClass.value
                && CheckTags(r.value.tags, Query(Cfg(), key))
                && (Covered(Cfg()) ==> r.value.id !in AllIds(Now().services))
                && (lb.access.broker.Alone() ==>
                     && Now() == CreateServer(old(Now()), r.value.tags, r.value.spec)
                     && Remove(Now().servers, r.value.id) == old(Now()).servers)
      ensures OthersAside(old(Now())) && Since(old(lb.access.broker.log), old(lb.access.broker.failures))
    {
      hide InMemoryBroker.EnvOk, InMemoryBroker.Alone, InMemoryBroker.AsideBetween, LoadBalancerService.OthersIdOk;
      hide NoNewForeign, Guarantee, CachedOk, OtherRuns;
      hide Base, OwnOk, AllOk, Rely, SameOthers, Servers, Pools, Monitors;
      hide PortOf, CheckTags, RefersToPool, Remove;
      OwnServers(Cfg(), key, Now());
      ghost var before, log0 := Now(), lb.access.broker.log;
      ghost var at;
      r, at := lb.access.CreateVirtualServer(key, lbClass.value, ipAddress, m, poolId);
      IdleMove(Cfg(), key, lb.lbServiceID, log0, before, at);
      if r.Ok? {
        PoolReferred(m, Resource("", r.value.tags, r.value.spec), pools);
        CreateServerMove(Cfg(), key, lb.lbServiceID, log0, before, at, r.value.tags, r.value.spec);
      }
      lb.access.broker.CallAside(Cfg(), key, false, before, at, log0);
    }

    /** Creates the server and adds it to the snapshot. */
    method NewServer(m: Mapping, poolId: string, ghost fromPool: bool) returns (r: Result<VirtualServer>)
      requires Ready() && Synced() && Anchored() && HasPool(m, poolId) && ipAddress != ""
      requires forall v :: v in servers ==> !MatchVirtualServer(m, v)
      modifies this`servers, lb.access.broker
      ensures Ready() && Synced()
      ensures r.Err? ==>
                && servers == old(servers) && (lb.access.broker.Alone() ==> Now() == old(Now()))
                && lb.access.broker.failures > old(lb.access.broker.failures)
      ensures r.Ok? ==>
                && Anchored() && servers == old(servers) + [r.value] && ServerDone(m, poolId, r.value)
                && (Covered(Cfg()) ==> r.value.id !in AllIds(Now().services))
                && (lb.access.broker.Alone() ==>
                     && Remove(Now().servers, r.value.id) == old(Now()).servers && Now().ipPools == old(Now()).ipPools
                     && Now().services == old(Now()).services)
      ensures r.Ok? && lb.access.broker.Alone() ==>
                if fromPool then Balanced(Cfg(), old(Now()), Some(Held())) ==> Balanced(Cfg(), Now(), None)
                else old(servers) != [] && Balanced(Cfg(), old(Now()), None) ==> Balanced(Cfg(), Now(), None)
      ensures OthersAside(old(Now())) && Since(old(lb.access.broker.log), old(lb.access.broker.failures))
    {
      hide InMemoryBroker.EnvOk, InMemoryBroker.Alone, InMemoryBroker.AsideBetween, LoadBalancerService.OthersIdOk;
      hide NoNewForeign, Guarantee, CachedOk, OtherRuns;
      hide Base, OwnOk, AllOk, Rely, SameOthers, Servers, Pools, Monitors;
      hide Balanced, PortOf, CheckTags, Ready, Remove, ServerDone, Covered;
      ghost var before := Now();
      r := AddServer(m, poolId);
      if r.Ok? {
        if lb.access.broker.Alone() {
          NewServerBalanced(before, r.value.tags, r.value.spec, fromPool);
        }
        servers := servers + [r.value];
      }
    }

    lemma NewServerBalanced(before: Store, tags: seq<Tag>, spec: ServerSpec, fromPool: bool)
      requires Anchored() && servers == Servers(Cfg(), key, before) && CheckTags(tags, Query(Cfg(), key))
      requires spec.ipAddress == ipAddress && ClassOf(Resource("", tags, spec)) == lbClass.value
      ensures if fromPool then Balanced(Cfg(), before, Some(Held())) ==> Balanced(Cfg(), CreateServer(before, tags, spec), None)
              else servers != [] && Balanced(Cfg(), before, None) ==> Balanced(Cfg(), CreateServer(before, tags, spec), None)
    {
      hide Balanced, Servers;
      var held := if fromPool then Some(Held()) else None;
      assert LeaseOf(Resource("", tags, spec)) == Held();
      if Balanced(Cfg(), before, held) && (fromPool || servers != []) {
        CreateWithAddress(Cfg(), key, before, tags, spec, fromPool);
      }
    }

    /** Creates and attaches a server; if either fails, undoes what it did. `cleaned` tells whether that worked. */
    method CreateVirtualServer(m: Mapping, poolId: string) returns (r: Result<VirtualServer>, ghost cleaned: bool)
      requires Ready() && Synced() && Anchored() && HasPool(m, poolId)
      requires forall v :: v in servers ==> !MatchVirtualServer(m, v)
      modifies this`servers, this`ipAddress, lb`lbServiceID, lb.access.broker
      ensures Ready() && (old(ipAddress) != "" ==> ipAddress == old(ipAddress))
      ensures r.Ok? ==>
                && Synced() && Anchored()
                && servers == old(servers) + [r.value] && ServerDone(m, poolId, r.value)
                && r.value.id in AllIds(Now().services)
      ensures r.Err? && cleaned ==>
                && SameOwn(Cfg(), key, old(Now()), Now())
                && (lb.access.broker.Alone() ==>
                     Now().servers == old(Now()).servers && Now().ipPools == old(Now()).ipPools)
      ensures r.Err? && !cleaned && (lb.access.broker.Alone() || old(ipAddress) != "") ==>
                lb.access.broker.failures > old(lb.access.broker.failures) + (if Blocking(r.error) then 0 else 1)
      ensures old(ipAddress) != "" && lb.access.broker.Alone() ==> Now().ipPools == old(Now()).ipPools
      ensures Calm(old(lb.access.broker.failures)) && old(NoSpareAddress()) && Balanced(Cfg(), old(Now()), None) ==>
                Balanced(Cfg(), Now(), None)
      ensures r.Err? ==> lb.access.broker.failures > old(lb.access.broker.failures) || Blocking(r.error)
      ensures Quiet(old(lb.access.broker.failures)) ==>
                (r.Ok? <==> old(Able())) && (r.Ok? ==> Able())
      ensures Calm(old(lb.access.broker.failures)) ==> Grown(Cfg(), key, old(Now()), Now())
      ensures OthersAside(old(Now())) && Since(old(lb.access.broker.log), old(lb.access.broker.failures))
      ensures Staked(old(Now()), old(ipAddress), old(lb.access.broker.failures))
    {
      hide InMemoryBroker.EnvOk, InMemoryBroker.Alone, InMemoryBroker.AsideBetween, LoadBalancerService.OthersIdOk;
      hide NoNewForeign, Guarantee, CachedOk, OtherRuns;
      hide Base, OwnOk, AllOk, Rely, SameOthers, Servers, Pools, Monitors;
      hide Balanced, PortOf, CheckTags, MatchVirtualServer, Release, Leased, Allocate, Ready, ClassOf, Remove,
        ServerDone, Covered, Grown, CanAttach, HasFree, AllHave, LeaseOf, PoolsBut;
      hide InMemoryBroker.View, Extends;
      lb.access.broker.NothingAside(Cfg(), key);
      ghost var st0 := Now();
      ServersHaveAddress();
      AnchoredLeases(servers);
      SnapshotUnique();
      GrownSame(Cfg(), key, st0, st0);
      var allocation := AllocateResources();
      if allocation.Err? {
        StakedSame(st0, old(lb.access.broker.failures));
        return Err(allocation.error), true;
      }
      var fromPool := allocation.value;
      ghost var st1, log1 := Now(), lb.access.broker.log;
      SyncedStays(st0, st1);
      if lb.access.broker.Alone() {
        GrownSame(Cfg(), key, st0, st1);
        AllocatedBalanced(st0, st1, fromPool);
        AddressesRestored(st0, st1, st1, fromPool);
      }
      r, cleaned := PlaceServer(m, poolId, fromPool);
      ExtendsTransitive(key, old(lb.access.broker.log), log1, lb.access.broker.log);
      StakedByCreate(st0, st1, old(ipAddress), fromPool, old(lb.access.broker.failures));
      OthersAsideSince(st0, st1);
      if Calm(old(lb.access.broker.failures)) {
        GrownTransitive(Cfg(), key, st0, st1, Now());
      }
      if r.Err? && cleaned {
        SameOwnTransitive(Cfg(), key, st0, st1, Now());
      }
    }

    /** Creates and attaches a server with the address at hand, which is given back with it if it came from the pool. */
    method PlaceServer(m: Mapping, poolId: string, fromPool: bool) returns (r: Result<VirtualServer>, ghost cleaned: bool)
      requires Ready() && Synced() && Anchored() && HasPool(m, poolId) && ipAddress != "" && (fromPool ==> servers == [])
      requires forall v :: v in servers ==> !MatchVirtualServer(m, v)
      modifies this`servers, lb`lbServiceID, lb.access.broker
      ensures Ready()
      ensures r.Ok? ==>
                && Synced() && Anchored()
                && servers == old(servers) + [r.value] && ServerDone(m, poolId, r.value)
                && r.value.id in AllIds(Now().services)
      ensures r.Err? && cleaned ==>
                && SameOwn(Cfg(), key, old(Now()), Now())
                && (lb.access.broker.Alone() ==>
                     && Now().servers == old(Now()).servers
                     && Now().ipPools == GivenBack(old(Now()), fromPool))
      ensures r.Err? && !cleaned && (lb.access.broker.Alone() || !fromPool) ==>
                lb.access.broker.failures > old(lb.access.broker.failures) + (if Blocking(r.error) then 0 else 1)
      ensures !fromPool && lb.access.broker.Alone() ==> Now().ipPools == old(Now()).ipPools
      ensures Calm(old(lb.access.broker.failures)) ==>
                if fromPool then Balanced(Cfg(), old(Now()), Some(Held())) ==> Balanced(Cfg(), Now(), None)
                else old(servers) != [] && Balanced(Cfg(), old(Now()), None) ==> Balanced(Cfg(), Now(), None)
      ensures r.Err? ==> lb.access.broker.failures > old(lb.access.broker.failures) || Blocking(r.error)
      ensures Quiet(old(lb.access.broker.failures)) ==>
                && (r.Ok? <==> CanAttach(Cfg(), old(Now()).services, old(lb.lbServiceID)))
                && (r.Ok? ==> CanAttach(Cfg(), Now().services, lb.lbServiceID))
      ensures Calm(old(lb.access.broker.failures)) ==> Grown(Cfg(), key, old(Now()), Now())
      ensures OthersAside(old(Now())) && Since(old(lb.access.broker.log), old(lb.access.broker.failures))
      ensures AddressKept(old(Now()))
      ensures old(servers) != [] ==> Servers(Cfg(), key, Now()) != []
      ensures fromPool && Calm(old(lb.access.broker.failures)) ==>
                if Servers(Cfg(), key, Now()) != [] then Now().ipPools == old(Now()).ipPools else !Leased(Now(), Held())
    {
      hide InMemoryBroker.View, InMemoryBroker.EnvOk, InMemoryBroker.Alone, InMemoryBroker.AsideBetween,
        LoadBalancerService.OthersIdOk;
      hide NoNewForeign, Guarantee, CachedOk, OtherRuns;
      hide Base, OwnOk, AllOk, Rely, SameOthers, Servers, Pools, Monitors;
      hide Balanced, PortOf, CheckTags, MatchVirtualServer, Ready, ClassOf, Remove, ServerDone, Covered, Grown, CanAttach,
        AllHave, PoolsBut, LeaseOf;
      ghost var st0, before := Now(), servers;
      SnapshotUnique();
      AnchoredLeases(servers);
      var created := NewServer(m, poolId, fromPool);
      ghost var st1 := Now();
      if created.Err? {
        cleaned := UndoAllocation(fromPool);
        KeptSince(st0, st1);
        SameOwnTransitive(Cfg(), key, st0, st1, Now());
        OthersAsideSince(st0, st1);
        return Err(created.error), cleaned;
      }
      SnapshotUnique();
      var attached;
      attached, cleaned := AttachOrUndo(created.value, fromPool, before);
      OthersAsideSince(st0, st1);
      KeptSince(st0, st1);
      if Calm(old(lb.access.broker.failures)) {
        if attached.Done? {
          GrownByAttach(Cfg(), key, st0, Now(), created.value);
        } else {
          GrownSame(Cfg(), key, st0, Now());
        }
      }
      r := if attached.Done? then created else Err(attached.error);
    }

    lemma SyncedStays(before: Store, now: Store)
      requires SameOwn(Cfg(), key, before, now) && now == Now()
      requires servers == Servers(Cfg(), key, before) && pools == Pools(Cfg(), key, before)
      requires tcpMonitors == Monitors(Cfg(), key, before)
      ensures Synced()
    {
    }

    /** The state an allocation leaves, if there was one. */
    ghost predicate AllocatedFrom(st0: Store, st1: Store, fromPool: bool)
      reads this
    {
      if fromPool
      then Held().poolId in st0.ipPools && !Leased(st0, Held()) && st1 == Allocate(st0, Held().poolId, ipAddress)
      else st1 == st0
    }

    lemma AllocatedBalanced(st0: Store, st1: Store, fromPool: bool)
      requires lbClass.Some? && AllocatedFrom(st0, st1, fromPool)
      ensures Balanced(Cfg(), st0, None) ==> Balanced(Cfg(), st1, if fromPool then Some(Held()) else None)
    {
    }

    lemma AddressesRestored(st0: Store, st1: Store, later: Store, fromPool: bool)
      requires lbClass.Some? && AllocatedFrom(st0, st1, fromPool) && later.ipPools == st1.ipPools
      ensures fromPool ==> Leased(later, Held()) && Release(later, Held().poolId, ipAddress).ipPools == st0.ipPools
    {
    }

    lemma OthersAsideSince(before: Store, mid: Store)
      requires lb.access.broker.AsideBetween(Cfg(), key, before, mid) && OthersAside(mid)
      ensures OthersAside(before)
    {
      hide InMemoryBroker.AsideBetween;
      lb.access.broker.AsideSince(Cfg(), key, before, mid, Now());
    }

    lemma StillBalanced(before: Store, held: Option<Lease>)
      ensures (Now().servers == before.servers && Now().ipPools == before.ipPools && Balanced(Cfg(), before, held)) ==>
                Balanced(Cfg(), Now(), held)
    {
    }

    /** Gives back an address that was allocated for a server that did not come to be. */
    method UndoAllocation(fromPool: bool) returns (ghost cleaned: bool)
      requires Ready() && lbClass.Some? && (fromPool ==> ipAddress != "")
      modifies lb.access.broker
      ensures Ready() && OnlyAddresses(old(Now())) && OthersAside(old(Now()))
      ensures lb.access.broker.Alone() ==>
                Now() == if fromPool && cleaned && Leased(old(Now()), Held())
                         then Release(old(Now()), Held().poolId, ipAddress) else old(Now())
      ensures !cleaned ==> fromPool && (lb.access.broker.Alone() ==> lb.access.broker.failures > old(lb.access.broker.failures))
      ensures fromPool && Calm(old(lb.access.broker.failures)) && Balanced(Cfg(), old(Now()), Some(Held())) ==>
                Balanced(Cfg(), Now(), None)
      ensures Since(old(lb.access.broker.log), old(lb.access.broker.failures))
      ensures lb.access.broker.Alone() ==> PoolsBut(old(Now()), Now(), Held())
    {
      hide InMemoryBroker.View, InMemoryBroker.EnvOk, InMemoryBroker.Alone, InMemoryBroker.AsideBetween,
        LoadBalancerService.OthersIdOk;
      hide NoNewForeign, Guarantee, CachedOk, OtherRuns;
      hide Base, OwnOk, AllOk, Rely, SameOthers, Servers, Pools, Monitors;
      hide Balanced;
      lb.access.broker.NothingAside(Cfg(), key);
      SameOwnReflexive(Cfg(), key, Now());
      cleaned := true;
      if fromPool {
        var released := ReleaseResources();
        cleaned := released.Done?;
        if Calm(old(lb.access.broker.failures)) && Balanced(Cfg(), old(Now()), Some(Held())) {
          if Leased(old(Now()), Held()) {
            ReleaseBalanced(Cfg(), old(Now()), Held());
          } else {
            NothingToRelease(Cfg(), old(Now()), Held());
          }
        }
      }
    }

    /** Deletes the server that was created last and could not be attached. */
    method DeleteUnattached(server: VirtualServer, ghost others: seq<VirtualServer>) returns (deleted: Outcome)
      requires Ready() && Servers(Cfg(), key, Now()) == others + [server]
      requires Covered(Cfg()) ==> server.id !in AllIds(Now().services)
      modifies lb.access.broker
      ensures old(lb.access.broker.Down()) ==> !deleted.Done?
      ensures Ready()
      ensures Servers(Cfg(), key, Now()) == if deleted.Done? then others else others + [server]
      ensures Pools(Cfg(), key, Now()) == Pools(Cfg(), key, old(Now()))
      ensures Monitors(Cfg(), key, Now()) == Monitors(Cfg(), key, old(Now()))
      ensures lb.access.broker.Alone() ==>
                && Now().ipPools == old(Now()).ipPools
                && Now().servers == if deleted.Done? then Remove(old(Now()).servers, server.id) else old(Now()).servers
      ensures lb.access.broker.Alone() && deleted.Done? && Balanced(Cfg(), old(Now()), None) ==>
                Balanced(Cfg(), Now(), if others == [] then Some(LeaseOf(server)) else None)
      ensures !deleted.Done? ==> lb.access.broker.failures > old(lb.access.broker.failures)
      ensures lb.access.broker.Alone() ==> Now().services == old(Now()).services
      ensures OthersAside(old(Now())) && Since(old(lb.access.broker.log), old(lb.access.broker.failures))
    {
      hide InMemoryBroker.EnvOk, InMemoryBroker.Alone, InMemoryBroker.AsideBetween, LoadBalancerService.OthersIdOk;
      hide NoNewForeign, Guarantee, CachedOk, OtherRuns;
      hide Base, OwnOk, AllOk, Rely, SameOthers, Servers, Pools, Monitors, Balanced, LeaseOf;
      ghost var before, log0 := Now(), lb.access.broker.log;
      assert server in Servers(Cfg(), key, before);
      ghost var at;
      deleted, at := lb.access.DeleteVirtualServer(key, server.id);
      IdleMove(Cfg(), key, lb.lbServiceID, log0, before, at);
      DeleteServerMove(Cfg(), key, lb.lbServiceID, log0, before, at, server);
      UndoCreate(Cfg(), key, before, others, server);
      lb.access.broker.CallAside(Cfg(), key, false, before, at, log0);
    }

    /** Deletes the server that could not be attached, and gives a fresh address back. */
    method UndoServer(server: VirtualServer, fromPool: bool, ghost others: seq<VirtualServer>) returns (ghost cleaned: bool)
      requires Ready() && Anchored() && servers == others + [server] && Servers(Cfg(), key, Now()) == servers
      requires Covered(Cfg()) ==> server.id !in AllIds(Now().services)
      requires fromPool ==> others == [] && ipAddress != ""
      modifies lb.access.broker
      ensures Ready() && (Servers(Cfg(), key, Now()) == servers || Servers(Cfg(), key, Now()) == others)
      ensures Pools(Cfg(), key, Now()) == Pools(Cfg(), key, old(Now()))
      ensures Monitors(Cfg(), key, Now()) == Monitors(Cfg(), key, old(Now()))
      ensures cleaned ==>
                && Servers(Cfg(), key, Now()) == others
                && (lb.access.broker.Alone() ==>
                     && Now().servers == Remove(old(Now()).servers, server.id)
                     && Now().ipPools == GivenBack(old(Now()), fromPool))
      ensures lb.access.broker.Alone() ==> Now().services == old(Now()).services
      ensures !fromPool && lb.access.broker.Alone() ==> Now().ipPools == old(Now()).ipPools
      ensures !cleaned && (lb.access.broker.Alone() || !fromPool) ==> lb.access.broker.failures > old(lb.access.broker.failures)
      ensures Calm(old(lb.access.broker.failures)) && (fromPool || others != []) && Balanced(Cfg(), old(Now()), None) ==>
                Balanced(Cfg(), Now(), None)
      ensures OthersAside(old(Now())) && Since(old(lb.access.broker.log), old(lb.access.broker.failures))
      ensures AddressKept(old(Now()))
      ensures old(lb.access.broker.Down()) ==> Servers(Cfg(), key, Now()) == servers
    {
      hide InMemoryBroker.View, InMemoryBroker.EnvOk, InMemoryBroker.Alone, InMemoryBroker.AsideBetween,
        LoadBalancerService.OthersIdOk;
      hide NoNewForeign, Guarantee, CachedOk, OtherRuns;
      hide Base, OwnOk, AllOk, Rely, SameOthers, Servers, Pools, Monitors;
      hide Balanced, Ready, PoolsBut, AllHave, LeaseOf, Covered, ClassOf, InMemoryBroker.Down, Remove;
      assert server in servers;
      LeaseOfOwn(server);
      AnchoredLeases(servers);
      AnchoredLeases(others);
      var deleted := DeleteUnattached(server, others);
      ghost var mid := Now();
      if lb.access.broker.Alone() {
        PoolsButSame(old(Now()), mid, Held());
      }
      cleaned := UndoAllocation(fromPool);
      OthersAsideSince(old(Now()), mid);
      KeptSince(old(Now()), mid);
      cleaned := cleaned && deleted.Done?;
    }

    /** The second half of creating a server: attach it, or delete it and give a fresh address back. */
    method AttachOrUndo(server: VirtualServer, fromPool: bool, ghost others: seq<VirtualServer>)
      returns (r: Outcome, ghost cleaned: bool)
      requires Ready() && Synced() && Anchored() && servers == others + [server]
      requires Covered(Cfg()) ==> server.id !in AllIds(Now().services)
      requires fromPool ==> others == [] && ipAddress != ""
      modifies lb`lbServiceID, lb.access.broker
      ensures old(lb.access.broker.Down()) ==> !r.Done? && Servers(Cfg(), key, Now()) == servers
      ensures old(lb.access.broker.Down()) && lb.access.broker.Alone() && Covered(Cfg()) ==> !AllAttached(Cfg(), key, Now())
      ensures Ready() && (r.Done? ==> Synced() && server.id in AllIds(Now().services))
      ensures !r.Done? && cleaned ==>
                && Servers(Cfg(), key, Now()) == others
                && Pools(Cfg(), key, Now()) == pools && Monitors(Cfg(), key, Now()) == tcpMonitors
                && (lb.access.broker.Alone() ==>
                     && Now().servers == Remove(old(Now()).servers, server.id)
                     && Now().ipPools == GivenBack(old(Now()), fromPool))
      ensures r.Done? && lb.access.broker.Alone() ==>
                Now().servers == old(Now()).servers && Now().ipPools == old(Now()).ipPools
      ensures !fromPool && lb.access.broker.Alone() ==> Now().ipPools == old(Now()).ipPools
      ensures !r.Done? && !cleaned && (lb.access.broker.Alone() || !fromPool) ==>
                lb.access.broker.failures > old(lb.access.broker.failures) + (if Blocking(r.error) then 0 else 1)
      ensures Calm(old(lb.access.broker.failures)) && (fromPool || others != []) && Balanced(Cfg(), old(Now()), None) ==>
                Balanced(Cfg(), Now(), None)
      ensures !r.Done? ==> lb.access.broker.failures > old(lb.access.broker.failures) || Blocking(r.error)
      ensures Servers(Cfg(), key, Now()) == servers || Servers(Cfg(), key, Now()) == others
      ensures Quiet(old(lb.access.broker.failures)) ==>
                (r.Done? <==> CanAttach(Cfg(), old(Now()).services, old(lb.lbServiceID)))
      ensures r.Done? && lb.access.broker.Alone() ==> CanAttach(Cfg(), Now().services, lb.lbServiceID)
      ensures lb.access.broker.Alone() ==>
                forall id :: id in AllIds(Now().services) <==>
                               id in AllIds(old(Now()).services) || (r.Done? && id == server.id)
      ensures OthersAside(old(Now())) && Since(old(lb.access.broker.log), old(lb.access.broker.failures))
      ensures AddressKept(old(Now()))
    {
      hide InMemoryBroker.View, InMemoryBroker.EnvOk, InMemoryBroker.Alone, InMemoryBroker.AsideBetween,
        LoadBalancerService.OthersIdOk;
      hide NoNewForeign, Guarantee, CachedOk, OtherRuns;
      hide Base, OwnOk, AllOk, Rely, SameOthers, Servers, Pools, Monitors;
      hide Balanced, PortOf, CheckTags, RefersToPool, LoadBalancerService.Ready, CanAttach, IsAttached, PoolsBut, AllHave,
        LeaseOf, Covered, ClassOf, AddressKept, InMemoryBroker.Down, Remove, AllAttached;
      lb.access.broker.NothingAside(Cfg(), key);
      assert server in servers;
      AnchoredLeases(servers);
      var attached := lb.AddVirtualServer(key, server.id);
      ghost var st1 := Now();
      StillBalanced(old(Now()), None);
      if attached.Done? {
        SameKept(old(Now()));
        return Done, true;
      }
      cleaned := UndoServer(server, fromPool, others);
      OthersAsideSince(old(Now()), st1);
      SinceKept(old(Now()), st1);
      OneUnattached(server);
      r := attached;
    }

    // -------------------------------------------------------------- deletions

    method DeleteVirtualServer(server: VirtualServer) returns (r: Outcome)
      requires Ready() && server in Servers(Cfg(), key, Now())
      modifies lb`lbServiceID, lb.access.broker
      ensures Ready()
      ensures Pools(Cfg(), key, Now()) == Pools(Cfg(), key, old(Now()))
      ensures Monitors(Cfg(), key, Now()) == Monitors(Cfg(), key, old(Now()))
      ensures forall v :: v in Servers(Cfg(), key, Now()) ==> v in Servers(Cfg(), key, old(Now()))
      ensures r.Done? ==>
                forall v :: v in Servers(Cfg(), key, Now()) <==> v in Servers(Cfg(), key, old(Now())) && v != server
      ensures !r.Done? ==> lb.access.broker.failures > old(lb.access.broker.failures)
      ensures lb.access.broker.Alone() && Balanced(Cfg(), old(Now()), None) ==>
                Balanced(Cfg(), Now(), if Servers(Cfg(), key, Now()) == [] then Some(LeaseOf(server)) else None)
      ensures Calm(old(lb.access.broker.failures)) && Covered(Cfg()) ==> Shrunk(Cfg(), key, old(Now()), Now())
      ensures OthersAside(old(Now())) && Since(old(lb.access.broker.log), old(lb.access.broker.failures))
      ensures lb.access.broker.Alone() ==> Now().ipPools == old(Now()).ipPools
      ensures !r.Done? ==> Servers(Cfg(), key, Now()) == Servers(Cfg(), key, old(Now()))
    {
      hide InMemoryBroker.EnvOk, InMemoryBroker.Alone, InMemoryBroker.AsideBetween, LoadBalancerService.OthersIdOk;
      hide NoNewForeign, Guarantee, CachedOk, OtherRuns;
      hide Base, OwnOk, AllOk, Rely, SameOthers, Servers, Pools, Monitors;
      hide Balanced, Shrunk;
      lb.access.broker.NothingAside(Cfg(), key);
      ghost var st0 := Now();
      PresentServersUnique();
      var removed := lb.RemoveVirtualServer(key, server);
      ghost var st1, log1 := Now(), lb.access.broker.log;
      StillBalanced(old(Now()), None);
      assert server in Servers(Cfg(), key, st1);
      if !removed.Done? {
        return removed;
      }
      var deleted, at := lb.access.DeleteVirtualServer(key, server.id);
      IdleMove(Cfg(), key, lb.lbServiceID, log1, st1, at);
      DeleteServerMove(Cfg(), key, lb.lbServiceID, log1, st1, at, server);
      lb.access.broker.CallAside(Cfg(), key, false, st1, at, log1);
      OthersAsideSince(old(Now()), st1);
      if Calm(old(lb.access.broker.failures)) && Covered(Cfg()) {
        ShrunkByDelete(Cfg(), key, st0, Now(), server);
      }
      r := deleted;
    }

    method DeletePool(pool: Pool) returns (r: Outcome)
      requires Ready() && pool in Pools(Cfg(), key, Now())
      requires forall v :: v in Servers(Cfg(), key, Now()) ==> v.spec.poolId != pool.id
      modifies lb.access.broker
      ensures Ready()
      ensures Servers(Cfg(), key, Now()) == Servers(Cfg(), key, old(Now()))
      ensures Monitors(Cfg(), key, Now()) == Monitors(Cfg(), key, old(Now()))
      ensures r.Done? ==> forall p :: p in Pools(Cfg(), key, Now()) <==> p in Pools(Cfg(), key, old(Now())) && p != pool
      ensures !r.Done? ==> lb.access.broker.failures > old(lb.access.broker.failures)
      ensures ServersAside(old(Now())) && Since(old(lb.access.broker.log), old(lb.access.broker.failures))
    {
      hide InMemoryBroker.EnvOk, InMemoryBroker.Alone, InMemoryBroker.AsideBetween, LoadBalancerService.OthersIdOk;
      hide NoNewForeign, Guarantee, CachedOk, OtherRuns;
      hide Base, OwnOk, AllOk, Rely, SameOthers, Servers, Pools, Monitors;
      lb.access.broker.NothingAside(Cfg(), key);
      var deleted, at := lb.access.DeletePool(key, pool.id);
      IdleMove(Cfg(), key, lb.lbServiceID, old(lb.access.broker.log), old(Now()), at);
      DeletePoolMove(Cfg(), key, lb.lbServiceID, old(lb.access.broker.log), old(Now()), at, pool);
      lb.access.broker.CallAside(Cfg(), key, false, old(Now()), at, old(lb.access.broker.log));
      r := deleted;
    }

    method DeleteTCPMonitor(monitor: Monitor) returns (r: Outcome)
      requires Ready() && monitor in Monitors(Cfg(), key, Now())
      requires forall p :: p in Pools(Cfg(), key, Now()) ==> monitor.id !in p.spec.activeMonitorIds
      modifies lb.access.broker
      ensures Ready()
      ensures Servers(Cfg(), key, Now()) == Servers(Cfg(), key, old(Now()))
      ensures Pools(Cfg(), key, Now()) == Pools(Cfg(), key, old(Now()))
      ensures r.Done? ==>
                forall x :: x in Monitors(Cfg(), key, Now()) <==> x in Monitors(Cfg(), key, old(Now())) && x != monitor
      ensures !r.Done? ==> lb.access.broker.failures > old(lb.access.broker.failures)
      ensures ServersAside(old(Now())) && Since(old(lb.access.broker.log), old(lb.access.broker.failures))
    {
      hide InMemoryBroker.EnvOk, InMemoryBroker.Alone, InMemoryBroker.AsideBetween, LoadBalancerService.OthersIdOk;
      hide NoNewForeign, Guarantee, CachedOk, OtherRuns;
      hide Base, OwnOk, AllOk, Rely, SameOthers, Servers, Pools, Monitors;
      lb.access.broker.NothingAside(Cfg(), key);
      var deleted, at := lb.access.DeleteTCPMonitor(key, monitor.id);
      IdleMove(Cfg(), key, lb.lbServiceID, old(lb.access.broker.log), old(Now()), at);
      DeleteMonitorMove(Cfg(), key, lb.lbServiceID, old(lb.access.broker.log), old(Now()), at, monitor);
      lb.access.broker.CallAside(Cfg(), key, false, old(Now()), at, old(lb.access.broker.log));
      r := deleted;
    }

    // -------------------------------------------------------------- what no port needs any more

    method MatchesSomePort(v: VirtualServer) returns (found: bool)
      ensures found <==> ForSomePort(service.ports, v)
    {
      found := false;
      for i := 0 to |service.ports|
        invariant forall j :: 0 <= j < i ==> !MatchVirtualServer(NewMapping(service.ports[j]), v)
      {
        if MatchVirtualServer(NewMapping(service.ports[i]), v) {
          return true;
        }
      }
    }

    method StillNeeded(tags: seq<Tag>, id: string, valid: set<string>) returns (found: bool)
      ensures found <==> HasSomePort(service.ports, tags) && id in valid
    {
      found := false;
      for i := 0 to |service.ports|
        invariant forall j :: 0 <= j < i ==> !(MatchTags(NewMapping(service.ports[j]), tags) && id in valid)
      {
        if MatchTags(NewMapping(service.ports[i]), tags) && id in valid {
          return true;
        }
      }
    }

    /** The address that deleting the last server left behind. */
    ghost function Spare(): Option<Lease>
      reads this, lb.access.broker
    {
      if servers != [] && Servers(Cfg(), key, Now()) == [] then Some(Held()) else None
    }

    lemma SnapshotUnique()
      requires Ready() && Synced()
      ensures UniqueIds(servers) && UniqueIds(pools) && UniqueIds(tcpMonitors)
    {
      hide Base, OwnOk, AllOk, Servers, Pools, Monitors;
      OwnUnique(Cfg(), key, Now());
    }

    lemma LeaseOfOwn(v: VirtualServer)
      requires Anchored() && v in servers
      ensures LeaseOf(v) == Held()
    {
    }

    /** On its own, the run touched no foreign object since, and an address is left over only with the last server;
        without faults the servers that are left are attached as they were. */
    ghost predicate Accounted(before: Store, failures0: nat)
      reads this, lb.access.broker
    {
      OthersAside(before) && (Calm(failures0) && Covered(Cfg()) ==> Shrunk(Cfg(), key, before, Now())) &&
      (lb.access.broker.Alone() ==>
        Now().ipPools == before.ipPools && (Balanced(Cfg(), before, None) ==> Balanced(Cfg(), Now(), Spare())))
    }

    lemma NothingDeleted()
      requires Ready() && Synced() && lbClass.Some?
      ensures Accounted(Now(), lb.access.broker.failures)
    {
      hide Balanced, SameOthers, Servers, Pools, Monitors, Ready, Shrunk;
      PresentServersUnique();
      GrownSame(Cfg(), key, Now(), Now());
      lb.access.broker.NothingAside(Cfg(), key);
    }

    /** Deletes one server of the snapshot. */
    method DeleteOwnServer(server: VirtualServer, ghost st0: Store, ghost failures0: nat) returns (r: Outcome)
      requires Ready() && Anchored() && server in servers && server in Servers(Cfg(), key, Now())
      requires Accounted(st0, failures0) && failures0 <= lb.access.broker.failures
      modifies lb`lbServiceID, lb.access.broker
      ensures Ready() && Accounted(st0, failures0)
      ensures Pools(Cfg(), key, Now()) == Pools(Cfg(), key, old(Now()))
      ensures Monitors(Cfg(), key, Now()) == Monitors(Cfg(), key, old(Now()))
      ensures forall v :: v in Servers(Cfg(), key, Now()) ==> v in Servers(Cfg(), key, old(Now()))
      ensures r.Done? ==>
                forall v :: v in Servers(Cfg(), key, Now()) <==> v in Servers(Cfg(), key, old(Now())) && v != server
      ensures !r.Done? ==> lb.access.broker.failures > old(lb.access.broker.failures)
      ensures Since(old(lb.access.broker.log), old(lb.access.broker.failures))
      ensures !r.Done? ==> Servers(Cfg(), key, Now()) == Servers(Cfg(), key, old(Now()))
    {
      hide InMemoryBroker.View, InMemoryBroker.EnvOk, InMemoryBroker.Alone, InMemoryBroker.AsideBetween,
        LoadBalancerService.OthersIdOk;
      hide NoNewForeign, Guarantee, CachedOk, OtherRuns;
      hide Base, OwnOk, AllOk, Rely, SameOthers, Servers, Pools, Monitors, Balanced, LeaseOf, ClassOf, Ready, Shrunk;
      ghost var before := Now();
      assert Spare() == None;
      LeaseOfOwn(server);
      r := DeleteVirtualServer(server);
      OthersAsideSince(st0, before);
      if Calm(failures0) && Covered(Cfg()) {
        ShrunkTransitive(Cfg(), key, st0, before, Now());
      }
    }

    /** Deletes the servers of dropped ports; returns the pools that the remaining ones use. */
    method DeleteOrphanVirtualServers() returns (r: Result<set<string>>)
      requires Ready() && Synced() && Anchored()
      modifies lb`lbServiceID, lb.access.broker
      ensures Ready() && Pools(Cfg(), key, Now()) == pools && Monitors(Cfg(), key, Now()) == tcpMonitors
      ensures r.Ok? ==> forall v :: v in Servers(Cfg(), key, Now()) <==> v in servers && ForSomePort(service.ports, v)
      ensures r.Ok? ==> forall id :: id in r.value <==> UsedByServer(Servers(Cfg(), key, Now()), id)
      ensures forall v :: v in Servers(Cfg(), key, Now()) ==> v in servers
      ensures r.Err? ==> lb.access.broker.failures > old(lb.access.broker.failures)
      ensures (forall v :: v in servers ==> ForSomePort(service.ports, v)) ==>
                r.Ok? && Here() == old(Here())
      ensures Accounted(old(Now()), old(lb.access.broker.failures))
      ensures Since(old(lb.access.broker.log), old(lb.access.broker.failures))
      ensures forall v :: v in servers && ForSomePort(service.ports, v) ==> v in Servers(Cfg(), key, Now())
    {
      hide InMemoryBroker.View, InMemoryBroker.EnvOk, InMemoryBroker.Alone, InMemoryBroker.AsideBetween,
        LoadBalancerService.OthersIdOk;
      hide NoNewForeign, Guarantee, CachedOk, OtherRuns;
      hide Base, OwnOk, AllOk, Rely, SameOthers, Servers, Pools, Monitors;
      hide Balanced, ForSomePort, ClassOf, Ready, Accounted, Shrunk, Extends, UsedByNeeded, UsedByServer;
      NothingDeleted();
      ExtendsReflexive(key, lb.access.broker.log);
      SnapshotUnique();
      ghost var here := Here();
      ghost var st0, log0, failures0 := Now(), lb.access.broker.log, lb.access.broker.failures;
      var validPoolIds: set<string> := {};
      NoServerYet(service.ports);
      assert servers[..0] == [];
      for i := 0 to |servers|
        invariant Ready() && Pools(Cfg(), key, Now()) == pools && Monitors(Cfg(), key, Now()) == tcpMonitors
        invariant forall v :: v in Servers(Cfg(), key, Now()) <==>
                    v in servers && (v in servers[..i] ==> ForSomePort(service.ports, v))
        invariant forall id :: id in validPoolIds <==> UsedByNeeded(service.ports, servers[..i], id)
        invariant (forall v :: v in servers ==> ForSomePort(service.ports, v)) ==> Here() == here
        invariant Accounted(st0, failures0) && Since(log0, failures0)
      {
        var server := servers[i];
        assert servers[..i + 1] == servers[..i] + [server];
        OneServerMore(service.ports, servers[..i], server);
        var found := MatchesSomePort(server);
        if found {
          validPoolIds := validPoolIds + {server.spec.poolId};
        } else {
          assert server in servers && server !in servers[..i];
          ghost var log1 := lb.access.broker.log;
          var deleted := DeleteOwnServer(server, st0, failures0);
          ExtendsTransitive(key, log0, log1, lb.access.broker.log);
          if !deleted.Done? {
            return Err(deleted.error);
          }
        }
      }
      assert servers[..|servers|] == servers;
      NeededLeft(service.ports, servers, Servers(Cfg(), key, Now()));
      r := Ok(validPoolIds);
    }

    method DeleteUnneededPool(pool: Pool, ghost validPoolIds: set<string>) returns (r: Outcome)
      requires Ready() && pool in Pools(Cfg(), key, Now())
      requires !(HasSomePort(service.ports, pool.tags) && pool.id in validPoolIds)
      requires forall v :: v in Servers(Cfg(), key, Now()) ==>
                 ForSomePort(service.ports, v) && v.spec.poolId in validPoolIds
      modifies lb.access.broker
      ensures Ready() && Servers(Cfg(), key, Now()) == Servers(Cfg(), key, old(Now()))
      ensures Monitors(Cfg(), key, Now()) == Monitors(Cfg(), key, old(Now()))
      ensures r.Done? ==> forall p :: p in Pools(Cfg(), key, Now()) <==> p in Pools(Cfg(), key, old(Now())) && p != pool
      ensures !r.Done? ==> lb.access.broker.failures > old(lb.access.broker.failures)
      ensures ServersAside(old(Now())) && Since(old(lb.access.broker.log), old(lb.access.broker.failures))
    {
      hide InMemoryBroker.EnvOk, InMemoryBroker.Alone, InMemoryBroker.AsideBetween, LoadBalancerService.OthersIdOk;
      hide NoNewForeign, Guarantee, CachedOk, OtherRuns;
      hide Base, OwnOk, AllOk, Rely, SameOthers, Servers, Pools, Monitors, Ready, ForSomePort, HasSomePort, RefersToPool;
      PresentUnique();
      PoolUnused(service.ports, Servers(Cfg(), key, Now()), Pools(Cfg(), key, Now()), validPoolIds, pool);
      r := DeletePool(pool);
    }

    /** Deletes the pools that no remaining server uses; returns the monitors that the remaining ones use. */
    method DeleteOrphanPools(validPoolIds: set<string>) returns (r: Result<set<string>>)
      requires Ready() && pools == Pools(Cfg(), key, Now()) && tcpMonitors == Monitors(Cfg(), key, Now())
      requires forall v :: v in Servers(Cfg(), key, Now()) ==>
                 ForSomePort(service.ports, v) && v.spec.poolId in validPoolIds
      modifies lb.access.broker
      ensures Ready() && Servers(Cfg(), key, Now()) == Servers(Cfg(), key, old(Now()))
      ensures Monitors(Cfg(), key, Now()) == tcpMonitors
      ensures r.Ok? ==> forall p :: p in Pools(Cfg(), key, Now()) <==>
                          p in pools && HasSomePort(service.ports, p.tags) && p.id in validPoolIds
      ensures r.Ok? ==> forall id :: id in r.value <==> UsedByPool(Pools(Cfg(), key, Now()), id)
      ensures r.Err? ==> lb.access.broker.failures > old(lb.access.broker.failures)
      ensures (forall p :: p in pools ==> HasSomePort(service.ports, p.tags) && p.id in validPoolIds) ==>
                r.Ok? && Here() == old(Here())
      ensures ServersAside(old(Now())) && Since(old(lb.access.broker.log), old(lb.access.broker.failures))
    {
      hide InMemoryBroker.View, InMemoryBroker.EnvOk, InMemoryBroker.Alone, InMemoryBroker.AsideBetween,
        LoadBalancerService.OthersIdOk;
      hide NoNewForeign, Guarantee, CachedOk, OtherRuns;
      hide Base, OwnOk, AllOk, Rely, SameOthers, Servers, Pools, Monitors;
      hide ForSomePort, HasSomePort, Ready, RefersToPool, IdSet;
      lb.access.broker.NothingAside(Cfg(), key);
      ghost var here := Here();
      ghost var st0, log0, failures0 := Now(), lb.access.broker.log, lb.access.broker.failures;
      ghost var own := Servers(Cfg(), key, st0);
      assert UniqueIds(pools) by {
        PresentUnique();
      }
      var validTCPMonitorIds: set<string> := {};
      for i := 0 to |pools|
        invariant Ready() && Servers(Cfg(), key, Now()) == own && Monitors(Cfg(), key, Now()) == tcpMonitors
        invariant forall p :: p in Pools(Cfg(), key, Now()) <==>
                    p in pools && (p in pools[..i] ==> HasSomePort(service.ports, p.tags) && p.id in validPoolIds)
        invariant forall id :: id in validTCPMonitorIds <==>
                    exists p :: p in pools[..i] && HasSomePort(service.ports, p.tags) && p.id in validPoolIds &&
                                id in p.spec.activeMonitorIds
        invariant (forall p :: p in pools ==> HasSomePort(service.ports, p.tags) && p.id in validPoolIds) ==>
                    Here() == here
        invariant ServersAside(st0) && Since(log0, failures0)
      {
        var pool := pools[i];
        assert pools[..i + 1] == pools[..i] + [pool];
        var found := StillNeeded(pool.tags, pool.id, validPoolIds);
        if found {
          validTCPMonitorIds := validTCPMonitorIds + IdSet(pool.spec.activeMonitorIds);
        } else {
          ghost var before := Now();
          assert pool in pools && pool !in pools[..i];
          var deleted := DeleteUnneededPool(pool, validPoolIds);
          OthersAsideSince(st0, before);
          if !deleted.Done? {
            return Err(deleted.error);
          }
        }
      }
      assert pools[..|pools|] == pools;
      r := Ok(validTCPMonitorIds);
    }

    lemma PresentUnique()
      requires Ready()
      ensures UniqueIds(Pools(Cfg(), key, Now())) && UniqueIds(Monitors(Cfg(), key, Now()))
      ensures forall v :: v in Servers(Cfg(), key, Now()) ==> RefersToPool(v, Pools(Cfg(), key, Now()))
      ensures forall p :: p in Pools(Cfg(), key, Now()) ==> PoolRefersToMonitors(p, Monitors(Cfg(), key, Now()))
    {
      hide Base, OwnOk, AllOk, Servers, Pools, Monitors;
      OwnUnique(Cfg(), key, Now());
      OwnServers(Cfg(), key, Now());
      OwnPools(Cfg(), key, Now());
    }

    method DeleteUnneededMonitor(monitor: Monitor, ghost validTCPMonitorIds: set<string>) returns (r: Outcome)
      requires Ready() && monitor in Monitors(Cfg(), key, Now())
      requires !(HasSomePort(service.ports, monitor.tags) && monitor.id in validTCPMonitorIds)
      requires forall p :: p in Pools(Cfg(), key, Now()) ==> HasSomePort(service.ports, p.tags)
      requires forall p, id :: p in Pools(Cfg(), key, Now()) && id in p.spec.activeMonitorIds ==> id in validTCPMonitorIds
      modifies lb.access.broker
      ensures Ready() && Servers(Cfg(), key, Now()) == Servers(Cfg(), key, old(Now()))
      ensures Pools(Cfg(), key, Now()) == Pools(Cfg(), key, old(Now()))
      ensures r.Done? ==> forall x :: x in Monitors(Cfg(), key, Now()) <==> x in Monitors(Cfg(), key, old(Now())) && x != monitor
      ensures !r.Done? ==> lb.access.broker.failures > old(lb.access.broker.failures)
      ensures ServersAside(old(Now())) && Since(old(lb.access.broker.log), old(lb.access.broker.failures))
    {
      hide InMemoryBroker.EnvOk, InMemoryBroker.Alone, InMemoryBroker.AsideBetween, LoadBalancerService.OthersIdOk;
      hide NoNewForeign, Guarantee, CachedOk, OtherRuns;
      hide Base, OwnOk, AllOk, Rely, SameOthers, Servers, Pools, Monitors, Ready, HasSomePort, RefersToPool, PoolRefersToMonitors;
      PresentUnique();
      MonitorUnused(service.ports, Pools(Cfg(), key, Now()), Monitors(Cfg(), key, Now()), validTCPMonitorIds, monitor);
      r := DeleteTCPMonitor(monitor);
    }

    /** Deletes the monitors that no remaining pool uses. */
    method DeleteOrphanTCPMonitors(validTCPMonitorIds: set<string>) returns (r: Outcome)
      requires Ready() && tcpMonitors == Monitors(Cfg(), key, Now())
      requires forall p :: p in Pools(Cfg(), key, Now()) ==> HasSomePort(service.ports, p.tags)
      requires forall p, id :: p in Pools(Cfg(), key, Now()) && id in p.spec.activeMonitorIds ==> id in validTCPMonitorIds
      modifies lb.access.broker
      ensures Ready() && Servers(Cfg(), key, Now()) == Servers(Cfg(), key, old(Now()))
      ensures Pools(Cfg(), key, Now()) == Pools(Cfg(), key, old(Now()))
      ensures r.Done? ==> forall x :: x in Monitors(Cfg(), key, Now()) <==>
                            x in tcpMonitors && HasSomePort(service.ports, x.tags) && x.id in validTCPMonitorIds
      ensures !r.Done? ==> lb.access.broker.failures > old(lb.access.broker.failures)
      ensures (forall x :: x in tcpMonitors ==> HasSomePort(service.ports, x.tags) && x.id in validTCPMonitorIds) ==>
                r.Done? && Here() == old(Here())
      ensures ServersAside(old(Now())) && Since(old(lb.access.broker.log), old(lb.access.broker.failures))
    {
      hide InMemoryBroker.View, InMemoryBroker.EnvOk, InMemoryBroker.Alone, InMemoryBroker.AsideBetween,
        LoadBalancerService.OthersIdOk;
      hide NoNewForeign, Guarantee, CachedOk, OtherRuns;
      hide Base, OwnOk, AllOk, Rely, SameOthers, Servers, Pools, Monitors;
      hide HasSomePort, Ready, PoolRefersToMonitors, RefersToPool, SameOwn;
      lb.access.broker.NothingAside(Cfg(), key);
      ghost var here := Here();
      ghost var st0, log0, failures0 := Now(), lb.access.broker.log, lb.access.broker.failures;
      ghost var own := Pools(Cfg(), key, st0);
      assert UniqueIds(tcpMonitors) by {
        PresentUnique();
      }
      for i := 0 to |tcpMonitors|
        invariant Ready() && Servers(Cfg(), key, Now()) == Servers(Cfg(), key, st0) && Pools(Cfg(), key, Now()) == own
        invariant forall x :: x in Monitors(Cfg(), key, Now()) <==>
                    x in tcpMonitors &&
                    (x in tcpMonitors[..i] ==> HasSomePort(service.ports, x.tags) && x.id in validTCPMonitorIds)
        invariant (forall x :: x in tcpMonitors ==> HasSomePort(service.ports, x.tags) && x.id in validTCPMonitorIds) ==>
                    Here() == here
        invariant ServersAside(st0) && Since(log0, failures0)
      {
        var monitor := tcpMonitors[i];
        assert tcpMonitors[..i + 1] == tcpMonitors[..i] + [monitor];
        var found := StillNeeded(monitor.tags, monitor.id, validTCPMonitorIds);
        if !found {
          ghost var before := Now();
          assert monitor in tcpMonitors && monitor !in tcpMonitors[..i];
          var deleted := DeleteUnneededMonitor(monitor, validTCPMonitorIds);
          OthersAsideSince(st0, before);
          if !deleted.Done? {
            return deleted;
          }
        }
      }
      assert tcpMonitors[..|tcpMonitors|] == tcpMonitors;
      r := Done;
    }

    // -------------------------------------------------------------- one port

    /** The pool that serves a port, with its monitor in place. */
    ghost predicate PoolServes(m: Mapping, p: Pool)
      reads this
    {
      p in pools && PoolDone(m, nodes, p.spec.activeMonitorIds, p) &&
      MonitorsDone(m, p.spec.activeMonitorIds, tcpMonitors)
    }

    ghost predicate HasServingPool(m: Mapping)
      reads this
    {
      exists p :: PoolServes(m, p)
    }

    /** In a consistent snapshot the serving pool and its monitor are what the searches find. */
    lemma ServingMonitor(m: Mapping, p: Pool, monitor: Option<Monitor>)
      requires Ready() && Synced() && PoolServes(m, p)
      requires if m.protocol == TCP then monitor.Some? && monitor.value in tcpMonitors && MonitorDone(m, monitor.value)
               else monitor.None?
      ensures MonitorIds(monitor) == p.spec.activeMonitorIds
    {
      hide Base, OwnOk, AllOk, Servers, Pools, Monitors, PortOf, LoadBalancerService.OthersIdOk, InMemoryBroker.EnvOk;
      OwnMonitors(Cfg(), key, Now());
    }

    lemma ServingPool(m: Mapping, p: Pool, q: Pool)
      requires Ready() && Synced() && PoolServes(m, p) && PoolServes(m, q)
      ensures p == q
    {
      hide Base, OwnOk, AllOk, Servers, Pools, Monitors, PortOf, LoadBalancerService.OthersIdOk, InMemoryBroker.EnvOk;
      OwnPools(Cfg(), key, Now());
    }

    /** Monitor, then pool. */
    method GetMonitoredPool(m: Mapping) returns (r: Result<Pool>)
      requires Ready() && Synced()
      modifies this`pools, this`tcpMonitors, lb.access.broker
      ensures Ready()
      ensures r.Ok? ==> Synced() && PoolServes(m, r.value)
      ensures r.Ok? ==>
                && KeepsOtherPorts(PortValue(m), old(pools), pools)
                && KeepsOtherPorts(PortValue(m), old(tcpMonitors), tcpMonitors)
      ensures old(HasServingPool(m)) ==>
                && r.Ok? && pools == old(pools) && tcpMonitors == old(tcpMonitors)
                && Here() == old(Here())
      ensures r.Err? ==> lb.access.broker.failures > old(lb.access.broker.failures)
      ensures ServersAside(old(Now())) && Since(old(lb.access.broker.log), old(lb.access.broker.failures))
    {
      hide InMemoryBroker.EnvOk, InMemoryBroker.Alone, InMemoryBroker.AsideBetween, LoadBalancerService.OthersIdOk;
      hide NoNewForeign, Guarantee, CachedOk, OtherRuns;
      hide Base, OwnOk, AllOk, Rely, SameOthers, Servers, Pools, Monitors;
      hide Ready, PortOf, Addresses, NodeAddresses;
      lb.access.broker.NothingAside(Cfg(), key);
      ghost var st0 := Now();
      ghost var served := HasServingPool(m);
      ghost var p: Pool :| served ==> PoolServes(m, p);
      var monitor := GetTCPMonitor(m);
      if monitor.Err? {
        return Err(monitor.error);
      }
      ghost var st1 := Now();
      if served {
        ServingMonitor(m, p, monitor.value);
      }
      r := GetPool(m, monitor.value);
      OthersAsideSince(st0, st1);
    }

    method ProcessPort(m: Mapping) returns (r: Outcome)
      requires Ready() && Synced() && Anchored()
      modifies this`servers, this`pools, this`tcpMonitors, this`ipAddress, lb`lbServiceID, lb.access.broker
      ensures Ready() && (old(ipAddress) != "" ==> ipAddress == old(ipAddress))
      ensures r.Done? ==> Synced() && Anchored() && PortDone(m, nodes, servers, pools, tcpMonitors)
      ensures r.Done? ==>
                && KeepsOtherServers(PortValue(m), old(servers), servers) && Extended(old(servers), servers)
                && KeepsOtherPorts(PortValue(m), old(pools), pools)
                && KeepsOtherPorts(PortValue(m), old(tcpMonitors), tcpMonitors)
      ensures PortDone(m, nodes, old(servers), old(pools), old(tcpMonitors)) ==>
                && r.Done? && servers == old(servers) && pools == old(pools) && tcpMonitors == old(tcpMonitors)
                && ipAddress == old(ipAddress)
                && Here() == old(Here())
      ensures Calm(old(lb.access.broker.failures)) && old(NoSpareAddress()) && Balanced(Cfg(), old(Now()), None) ==>
                Balanced(Cfg(), Now(), None)
      ensures !r.Done? ==> lb.access.broker.failures > old(lb.access.broker.failures) || Blocking(r.error)
      ensures Quiet(old(lb.access.broker.failures)) ==>
                && (r.Done? <==> HasServer(m, old(servers)) || old(Able()))
                && (r.Done? ==> Able() == old(Able()) && (old(Able()) || |servers| == |old(servers)|))
      ensures Calm(old(lb.access.broker.failures)) ==> Grown(Cfg(), key, old(Now()), Now())
      ensures OthersAside(old(Now())) && Since(old(lb.access.broker.log), old(lb.access.broker.failures))
      ensures Staked(old(Now()), old(ipAddress), old(lb.access.broker.failures))
    {
      hide InMemoryBroker.View, InMemoryBroker.EnvOk, InMemoryBroker.Alone, InMemoryBroker.AsideBetween,
        LoadBalancerService.OthersIdOk;
      hide NoNewForeign, Guarantee, CachedOk, OtherRuns;
      hide Base, OwnOk, AllOk, Rely, SameOthers, Servers, Pools, Monitors;
      hide Balanced, Ready, PortOf, Addresses, NodeAddresses, MatchVirtualServer, MatchNodePort, MonitorsDone, CanAttach, Grown;
      hide PortDone, PoolDone, ServerDone, Extended, KeepsOtherServers, KeepsOtherPorts, AllHave, LeaseOf,
        StakedAt;
      lb.access.broker.NothingAside(Cfg(), key);
      PresentServersUnique();
      ServersHaveAddress();
      AnchoredLeases(servers);
      ghost var st0 := Now();
      ghost var done := PortDone(m, nodes, servers, pools, tcpMonitors);
      ghost var v, p := PortParts(m);
      var pool := GetMonitoredPool(m);
      StillBalanced(st0, None);
      SameServersServe(st0);
      if Calm(old(lb.access.broker.failures)) {
        GrownSame(Cfg(), key, st0, Now());
      }
      StakedSame(st0, old(lb.access.broker.failures));
      if pool.Err? {
        return Failed(pool.error);
      }
      if done {
        ServingPool(m, p, pool.value);
      }
      ServingHasPool(m, pool.value);
      ghost var st1, failures1 := Now(), lb.access.broker.failures;
      var server := GetVirtualServer(m, pool.value.id);
      OthersAsideSince(st0, st1);
      StakedTransitive(st0, old(ipAddress), old(lb.access.broker.failures), st1, old(ipAddress), failures1);
      if Calm(old(lb.access.broker.failures)) {
        GrownTransitive(Cfg(), key, st0, st1, Now());
      }
      if server.Ok? {
        ServedPort(m, server.value, pool.value);
      }
      r := if server.Ok? then Done else Failed(server.error);
    }

    /** What serves a port, if it is served. */
    lemma PortParts(m: Mapping) returns (v: VirtualServer, p: Pool)
      ensures PortDone(m, nodes, servers, pools, tcpMonitors) ==>
                PoolServes(m, p) && HasServingPool(m) && v in servers && ServerDone(m, p.id, v)
    {
      hide PoolDone, MonitorsDone, ServerDone;
      if PortDone(m, nodes, servers, pools, tcpMonitors) {
        v, p :| v in servers && p in pools && ServerDone(m, p.id, v) &&
          PoolDone(m, nodes, p.spec.activeMonitorIds, p) && MonitorsDone(m, p.spec.activeMonitorIds, tcpMonitors);
        assert PoolServes(m, p);
      } else {
        v, p := *, *;
      }
    }

    lemma ServedPort(m: Mapping, v: VirtualServer, p: Pool)
      requires PoolServes(m, p) && v in servers && ServerDone(m, p.id, v)
      ensures PortDone(m, nodes, servers, pools, tcpMonitors)
    {
    }

    lemma ServingHasPool(m: Mapping, p: Pool)
      requires PoolServes(m, p)
      ensures HasPool(m, p.id)
    {
    }

    // -------------------------------------------------------------- all ports

    ghost predicate AllPortsDone()
      reads this
    {
      forall i :: 0 <= i < |service.ports| ==> PortDone(NewMapping(service.ports[i]), nodes, servers, pools, tcpMonitors)
    }

    method ProcessPorts() returns (r: Outcome)
      requires Ready() && Synced() && Anchored()
      modifies this`servers, this`pools, this`tcpMonitors, this`ipAddress, lb`lbServiceID, lb.access.broker
      ensures Ready() && (old(ipAddress) != "" ==> ipAddress == old(ipAddress))
      ensures r.Done? ==> Synced() && Anchored() && (DistinctPorts(service.ports) ==> AllPortsDone())
      ensures r.Done? && service.ports != [] ==> exists v :: v in servers && ForSomePort(service.ports, v)
      ensures old(AllPortsDone()) || service.ports == [] ==>
                && r.Done? && servers == old(servers) && pools == old(pools) && tcpMonitors == old(tcpMonitors)
                && ipAddress == old(ipAddress)
                && Here() == old(Here())
      ensures Calm(old(lb.access.broker.failures)) && old(NoSpareAddress()) && Balanced(Cfg(), old(Now()), None) ==>
                Balanced(Cfg(), Now(), None)
      ensures !r.Done? ==> lb.access.broker.failures > old(lb.access.broker.failures) || Blocking(r.error)
      ensures Quiet(old(lb.access.broker.failures)) ==> (r.Done? <==> AllServed(service.ports, old(servers)) || old(Able()))
      ensures Calm(old(lb.access.broker.failures)) ==> Grown(Cfg(), key, old(Now()), Now())
      ensures OthersAside(old(Now())) && Since(old(lb.access.broker.log), old(lb.access.broker.failures))
      ensures Staked(old(Now()), old(ipAddress), old(lb.access.broker.failures))
      ensures r.Done? ==> Extended(old(servers), servers)
    {
      hide InMemoryBroker.View, InMemoryBroker.EnvOk, InMemoryBroker.Alone, InMemoryBroker.AsideBetween,
        LoadBalancerService.OthersIdOk;
      hide NoNewForeign, Guarantee, CachedOk, OtherRuns;
      hide Base, OwnOk, AllOk, Rely, SameOthers, Servers, Pools, Monitors;
      hide Balanced, Ready, Grown, CanAttach, HasFree, HasServer, PortDone, DistinctPorts, ForSomePort,
        LoadBalancerService.Undisturbed, AllHave, LeaseOf, StakedAt, Advanced, NothingNew, Extended, AllServed;
      ghost var here := Here();
      ghost var st0, log0, failures0, able := Now(), lb.access.broker.log, lb.access.broker.failures, Able();
      ghost var done := AllPortsDone() || service.ports == [];
      ServersHaveAddress();
      AnchoredLeases(servers);
      StakedSame(st0, old(lb.access.broker.failures));
      ProgressStarts();
      for i := 0 to |service.ports|
        invariant Ready() && Progress(i, st0, old(servers), able, failures0)
        invariant old(ipAddress) != "" ==> ipAddress == old(ipAddress)
        invariant done ==>
                    && servers == old(servers) && pools == old(pools) && tcpMonitors == old(tcpMonitors)
                    && ipAddress == old(ipAddress) && Here() == here
        invariant old(NoSpareAddress()) ==> NoSpareAddress()
        invariant Calm(failures0) && old(NoSpareAddress()) && Balanced(Cfg(), st0, None) ==> Balanced(Cfg(), Now(), None)
        invariant Since(log0, failures0) && Staked(st0, old(ipAddress), failures0)
      {
        ghost var before, ip, failures1 := Now(), ipAddress, lb.access.broker.failures;
        r := ProcessNext(i, st0, old(servers), able, failures0);
        StakedTransitive(st0, old(ipAddress), failures0, before, ip, failures1);
        if !r.Done? {
          return;
        }
      }
      ProgressEnds(st0, old(servers), able, failures0);
      r := Done;
    }

    /** The first `n` ports have been processed. */
    ghost predicate Progress(n: nat, before: Store, servers0: seq<VirtualServer>, able: bool, failures0: nat)
      reads this, lb, lb.access.broker
    {
      && Synced() && Anchored() && Advanced(n, servers, pools, tcpMonitors) && Extended(servers0, servers)
      && (Calm(failures0) ==> Grown(Cfg(), key, before, Now()))
      && (Quiet(failures0) ==> Able() == able && (able || NothingNew(n, servers0)))
      && OthersAside(before) && failures0 <= lb.access.broker.failures
    }

    lemma ProgressStarts()
      requires Ready() && Synced() && Anchored()
      ensures Progress(0, Now(), servers, Able(), lb.access.broker.failures)
    {
      hide Servers, Pools, Monitors, Grown, Ready, PortDone, SamePort;
      lb.access.broker.NothingAside(Cfg(), key);
      SnapshotUnique();
      GrownSame(Cfg(), key, Now(), Now());
      assert service.ports[..0] == [];
      forall v: VirtualServer ensures SamePort(v, v) {
        SamePortReflexive(v);
      }
    }

    lemma SamePortReflexive(v: VirtualServer)
      ensures SamePort(v, v)
    {
    }

    lemma ProgressEnds(before: Store, servers0: seq<VirtualServer>, able: bool, failures0: nat)
      requires Progress(|service.ports|, before, servers0, able, failures0)
      ensures DistinctPorts(service.ports) ==> AllPortsDone()
      ensures service.ports != [] ==> exists v :: v in servers && ForSomePort(service.ports, v)
      ensures Quiet(failures0) ==> able || AllServed(service.ports, servers0)
    {
      hide Servers, Pools, Monitors, Grown, PortDone, DistinctPorts, ForSomePort, AllServed, Extended;
      assert service.ports[..|service.ports|] == service.ports;
    }

    method ProcessNext(i: nat, ghost before: Store, ghost servers0: seq<VirtualServer>, ghost able: bool, ghost failures0: nat)
      returns (r: Outcome)
      requires Ready() && i < |service.ports| && Progress(i, before, servers0, able, failures0)
      modifies this`servers, this`pools, this`tcpMonitors, this`ipAddress, lb`lbServiceID, lb.access.broker
      ensures Ready() && (old(ipAddress) != "" ==> ipAddress == old(ipAddress))
      ensures r.Done? ==> Progress(i + 1, before, servers0, able, failures0)
      ensures PortDone(NewMapping(service.ports[i]), nodes, old(servers), old(pools), old(tcpMonitors)) ==>
                && r.Done? && servers == old(servers) && pools == old(pools) && tcpMonitors == old(tcpMonitors)
                && ipAddress == old(ipAddress)
                && Here() == old(Here())
      ensures Calm(old(lb.access.broker.failures)) && old(NoSpareAddress()) && Balanced(Cfg(), old(Now()), None) ==>
                Balanced(Cfg(), Now(), None)
      ensures !r.Done? ==> lb.access.broker.failures > old(lb.access.broker.failures) || Blocking(r.error)
      ensures !r.Done? && Quiet(failures0) ==> !able && !AllServed(service.ports, servers0)
      ensures Calm(failures0) ==> Grown(Cfg(), key, before, Now())
      ensures OthersAside(before) && Since(old(lb.access.broker.log), old(lb.access.broker.failures))
      ensures r.Done? ==> NoSpareAddress()
      ensures Staked(old(Now()), old(ipAddress), old(lb.access.broker.failures))
    {
      hide InMemoryBroker.EnvOk, InMemoryBroker.Alone, InMemoryBroker.AsideBetween, LoadBalancerService.OthersIdOk;
      hide NoNewForeign, Guarantee, CachedOk, OtherRuns;
      hide Base, OwnOk, AllOk, Rely, SameOthers, Servers, Pools, Monitors;
      hide Balanced, Ready, Grown, CanAttach, HasFree, HasServer, PortDone, KeepsOtherServers, KeepsOtherPorts, DistinctPorts,
        ForSomePort, AllServed, LoadBalancerService.Undisturbed, Advanced, Extended, StakedAt;
      var m := NewMapping(service.ports[i]);
      ghost var mid, vs, ps, ms := Now(), servers, pools, tcpMonitors;
      ExtendedServes(servers0, m);
      r := ProcessPort(m);
      OthersAsideSince(before, mid);
      if Calm(failures0) {
        GrownTransitive(Cfg(), key, before, mid, Now());
      }
      if !r.Done? {
        Unserved(i, servers0);
        return;
      }
      AdvancedByOne(i, vs, ps, ms);
      ExtendedTransitive(servers0, vs, servers);
      if Quiet(failures0) && !able {
        NothingNewYet(i, servers0);
      }
    }

    /** The first `n` ports are served, if no two ports are the same, and one of them has a server. */
    ghost predicate Advanced(n: nat, vs: seq<VirtualServer>, ps: seq<Pool>, ms: seq<Monitor>)
    {
      && n <= |service.ports|
      && (n > 0 ==> exists v :: v in vs && ForSomePort(service.ports, v))
      && (DistinctPorts(service.ports) ==>
           forall j :: 0 <= j < n ==> PortDone(NewMapping(service.ports[j]), nodes, vs, ps, ms))
    }

    lemma AdvancedByOne(i: nat, vs: seq<VirtualServer>, ps: seq<Pool>, ms: seq<Monitor>)
      requires i < |service.ports| && Advanced(i, vs, ps, ms)
      requires PortDone(NewMapping(service.ports[i]), nodes, servers, pools, tcpMonitors)
      requires var port := PortValue(NewMapping(service.ports[i]));
               KeepsOtherServers(port, vs, servers) && KeepsOtherPorts(port, ps, pools) && KeepsOtherPorts(port, ms, tcpMonitors)
      ensures Advanced(i + 1, servers, pools, tcpMonitors) && servers != []
    {
      hide PortDone, KeepsOtherServers, KeepsOtherPorts, DistinctPorts, ForSomePort;
      SomeServer(i);
      if DistinctPorts(service.ports) {
        EarlierPortsStayDone(service.ports, i, nodes, vs, ps, ms, servers, pools, tcpMonitors);
      }
    }

    /** No server was created: the first `n` ports had one each. */
    ghost predicate NothingNew(n: nat, before: seq<VirtualServer>)
      reads this
    {
      n <= |service.ports| && |servers| == |before| && AllServed(service.ports[..n], before)
    }

    lemma Unserved(i: nat, before: seq<VirtualServer>)
      requires i < |service.ports|
      ensures AllServed(service.ports, before) ==> HasServer(NewMapping(service.ports[i]), before)
    {
    }

    lemma NothingNewYet(i: nat, before: seq<VirtualServer>)
      requires i < |service.ports| && HasServer(NewMapping(service.ports[i]), before) && AllServed(service.ports[..i], before)
      ensures AllServed(service.ports[..i + 1], before)
    {
      hide HasServer;
    }

    lemma ExtendedServes(before: seq<VirtualServer>, m: Mapping)
      requires Extended(before, servers)
      ensures HasServer(m, before) ==> HasServer(m, servers)
      ensures |servers| == |before| && HasServer(m, servers) ==> HasServer(m, before)
    {
      if v :| v in before && MatchVirtualServer(m, v) {
        var j :| 0 <= j < |before| && before[j] == v;
        assert servers[j] in servers && MatchVirtualServer(m, servers[j]);
      }
      if |servers| == |before| && HasServer(m, servers) {
        var v :| v in servers && MatchVirtualServer(m, v);
        var j :| 0 <= j < |servers| && servers[j] == v;
        assert before[j] in before && MatchVirtualServer(m, before[j]);
      }
    }

    lemma SomeServer(i: nat)
      requires i < |service.ports| && PortDone(NewMapping(service.ports[i]), nodes, servers, pools, tcpMonitors)
      ensures exists v :: v in servers && ForSomePort(service.ports, v)
    {
    }

    /** The objects of the service are what its ports and the nodes ask for. */
    ghost predicate Settled()
      reads lb.access.broker
    {
      Converged(service.ports, nodes, Servers(Cfg(), key, Now()), Pools(Cfg(), key, Now()), Monitors(Cfg(), key, Now()))
    }

    /** The snapshot is converged. */
    ghost predicate NothingToDo()
      reads this
    {
      Converged(service.ports, nodes, servers, pools, tcpMonitors)
    }

    /** Deletes servers, then the pools they used, then the monitors those used. */
    method DeleteOrphans() returns (r: Outcome)
      requires Ready() && Synced() && Anchored()
      modifies lb`lbServiceID, lb.access.broker
      ensures Ready()
      ensures r.Done? && AllPortsDone() ==>
                Settled()
      ensures r.Done? ==> forall v :: v in Servers(Cfg(), key, Now()) <==> v in servers && ForSomePort(service.ports, v)
      ensures forall v :: v in Servers(Cfg(), key, Now()) ==> v in servers
      ensures !r.Done? ==> lb.access.broker.failures > old(lb.access.broker.failures)
      ensures NothingToDo() ==>
                r.Done? && Here() == old(Here())
      ensures lb.access.broker.Alone() && Balanced(Cfg(), old(Now()), None) ==> Balanced(Cfg(), Now(), Spare())
      ensures Calm(old(lb.access.broker.failures)) && Covered(Cfg()) ==> Shrunk(Cfg(), key, old(Now()), Now())
      ensures OthersAside(old(Now())) && Since(old(lb.access.broker.log), old(lb.access.broker.failures))
      ensures lb.access.broker.Alone() ==> Now().ipPools == old(Now()).ipPools
      ensures forall v :: v in servers && ForSomePort(service.ports, v) ==> v in Servers(Cfg(), key, Now())
    {
      hide InMemoryBroker.EnvOk, InMemoryBroker.Alone, InMemoryBroker.AsideBetween, LoadBalancerService.OthersIdOk;
      hide NoNewForeign, Guarantee, CachedOk, OtherRuns;
      hide Base, OwnOk, AllOk, Rely, SameOthers, Servers, Pools, Monitors;
      hide Balanced, Ready, PortDone, ForSomePort, HasSomePort, RefersToPool, PoolRefersToMonitors, UsedByServer,
        UsedByPool, Shrunk;
      lb.access.broker.NothingAside(Cfg(), key);
      ghost var st0 := Now();
      PresentUnique();
      if NothingToDo() {
        AllNeeded(service.ports, servers, pools, tcpMonitors);
      }
      var validPoolIds := DeleteOrphanVirtualServers();
      if validPoolIds.Err? {
        return Failed(validPoolIds.error);
      }
      ghost var st1, spare := Now(), Spare();
      r := DeleteOrphanPoolsAndMonitors(validPoolIds.value);
      OthersAsideSince(st0, st1);
      StillBalanced(st1, spare);
      if Calm(old(lb.access.broker.failures)) && Covered(Cfg()) {
        StillShrunk(st0, st1);
      }
      if r.Done? && AllPortsDone() {
        OrphansGone(service.ports, nodes, servers, pools, tcpMonitors,
                    Servers(Cfg(), key, Now()), Pools(Cfg(), key, Now()), Monitors(Cfg(), key, Now()));
      }
    }

    lemma StillShrunk(before: Store, mid: Store)
      requires Shrunk(Cfg(), key, before, mid)
      requires Servers(Cfg(), key, Now()) == Servers(Cfg(), key, mid) && Now().services == mid.services
      ensures Shrunk(Cfg(), key, before, Now())
    {
    }

    method DeleteOrphanPoolsAndMonitors(validPoolIds: set<string>) returns (r: Outcome)
      requires Ready() && pools == Pools(Cfg(), key, Now()) && tcpMonitors == Monitors(Cfg(), key, Now())
      requires forall id :: id in validPoolIds <==> UsedByServer(Servers(Cfg(), key, Now()), id)
      requires forall v :: v in Servers(Cfg(), key, Now()) ==> ForSomePort(service.ports, v)
      modifies lb.access.broker
      ensures Ready() && Servers(Cfg(), key, Now()) == Servers(Cfg(), key, old(Now()))
      ensures r.Done? ==>
                && (forall p :: p in Pools(Cfg(), key, Now()) <==>
                      p in pools && HasSomePort(service.ports, p.tags) &&
                      UsedByServer(Servers(Cfg(), key, Now()), p.id))
                && (forall x :: x in Monitors(Cfg(), key, Now()) <==>
                      x in tcpMonitors && HasSomePort(service.ports, x.tags) &&
                      UsedByPool(Pools(Cfg(), key, Now()), x.id))
      ensures !r.Done? ==> lb.access.broker.failures > old(lb.access.broker.failures)
      ensures && (forall p :: p in pools ==>
                    HasSomePort(service.ports, p.tags) && UsedByServer(Servers(Cfg(), key, old(Now())), p.id))
              && (forall x :: x in tcpMonitors ==> HasSomePort(service.ports, x.tags) && UsedByPool(pools, x.id))
              ==> r.Done? && Here() == old(Here())
      ensures ServersAside(old(Now())) && Since(old(lb.access.broker.log), old(lb.access.broker.failures))
    {
      hide InMemoryBroker.EnvOk, InMemoryBroker.Alone, InMemoryBroker.AsideBetween, LoadBalancerService.OthersIdOk;
      hide NoNewForeign, Guarantee, CachedOk, OtherRuns;
      hide Base, OwnOk, AllOk, Rely, SameOthers, Servers, Pools, Monitors;
      hide Ready, ForSomePort, HasSomePort;
      lb.access.broker.NothingAside(Cfg(), key);
      ghost var st0 := Now();
      assert forall v :: v in Servers(Cfg(), key, st0) ==> UsedByServer(Servers(Cfg(), key, st0), v.spec.poolId);
      var validTCPMonitorIds := DeleteOrphanPools(validPoolIds);
      if validTCPMonitorIds.Err? {
        return Failed(validTCPMonitorIds.error);
      }
      ghost var st1 := Now();
      assert forall p, id :: p in Pools(Cfg(), key, st1) && id in p.spec.activeMonitorIds ==>
          UsedByPool(Pools(Cfg(), key, st1), id);
      r := DeleteOrphanTCPMonitors(validTCPMonitorIds.value);
      OthersAsideSince(st0, st1);
    }

    // -------------------------------------------------------------- the run

    method ReadSnapshot() returns (r: Outcome)
      requires Ready()
      modifies this`servers, this`pools, this`tcpMonitors, lb.access.broker
      ensures Ready() && (r.Done? ==> Synced())
      ensures SameOwn(Cfg(), key, old(Now()), Now())
      ensures lb.access.broker.Alone() ==> Now() == old(Now())
      ensures lb.access.broker.Silent(old(lb.access.broker.log), old(lb.access.broker.attempts))
      ensures if r.Done? then lb.access.broker.failures == old(lb.access.broker.failures)
              else lb.access.broker.failures > old(lb.access.broker.failures)
      ensures OthersAside(old(Now()))
    {
      hide InMemoryBroker.EnvOk, InMemoryBroker.Alone, InMemoryBroker.AsideBetween, LoadBalancerService.OthersIdOk;
      hide NoNewForeign, Guarantee, CachedOk, OtherRuns;
      hide Base, OwnOk, AllOk, Rely, Servers, Pools, Monitors;
      ghost var st0, log := Now(), lb.access.broker.log;
      var foundServers, at1 := lb.access.FindVirtualServers(key);
      IdleMove(Cfg(), key, lb.lbServiceID, log, st0, at1);
      lb.access.broker.CallAside(Cfg(), key, false, st0, at1, log);
      if foundServers.Err? {
        return Failed(foundServers.error);
      }
      servers := foundServers.value;
      var foundPools, at2 := lb.access.FindPools(key);
      IdleMove(Cfg(), key, lb.lbServiceID, log, at1, at2);
      SameOwnTransitive(Cfg(), key, st0, at1, at2);
      lb.access.broker.CallAside(Cfg(), key, false, at1, at2, log);
      OthersAsideSince(st0, at1);
      if foundPools.Err? {
        return Failed(foundPools.error);
      }
      pools := foundPools.value;
      var foundMonitors := lb.access.FindTCPMonitors(key);
      IdleMove(Cfg(), key, lb.lbServiceID, log, at2, Now());
      SameOwnTransitive(Cfg(), key, st0, at2, Now());
      lb.access.broker.CallAside(Cfg(), key, false, at2, Now(), log);
      OthersAsideSince(st0, at2);
      if foundMonitors.Err? {
        return Failed(foundMonitors.error);
      }
      OwnMonitors(Cfg(), key, Now());
      TypedKeepsAll(Monitors(Cfg(), key, Now()));
      tcpMonitors := foundMonitors.value;
      r := Done;
    }

    /** The address and class of existing servers win over the requested ones. */
    method AnchorToServers(requested: LbClass)
      requires Ready() && Synced() && ipAddress == ""
      modifies this`ipAddress, this`lbClass
      ensures Anchored()
      ensures servers == [] ==> ipAddress == service.statusIp && lbClass == Some(requested)
      ensures servers != [] ==> ipAddress != "" && ipAddress == servers[0].spec.ipAddress && lbClass == Some(ClassOf(servers[0]))
    {
      hide Base, OwnOk, AllOk, Servers, Pools, Monitors, RefersToPool;
      hide InMemoryBroker.EnvOk, LoadBalancerService.OthersIdOk;
      OwnServers(Cfg(), key, Now());
      var chosen := requested;
      if service.statusIp != "" {
        ipAddress := service.statusIp;
      }
      if |servers| > 0 {
        assert servers[0] in servers;
        ipAddress := servers[0].spec.ipAddress;
        var className := GetTag(servers[0].tags, SCOPE_LB_CLASS);
        var ipPoolId := GetTag(servers[0].tags, SCOPE_IP_POOL);
        if chosen.className != className || chosen.ipPoolId != ipPoolId {
          chosen := LbClass(className, ipPoolId);
        }
      }
      lbClass := Some(chosen);
    }

    /** The status of the service names no address but one that its servers have. */
    ghost predicate StatusHonest()
      reads lb.access.broker
    {
      Servers(Cfg(), key, Now()) == [] ==> service.statusIp == ""
    }

    lemma SettledPorts()
      ensures NothingToDo() ==> AllPortsDone()
    {
    }

    /** The address that a run starts with. */
    ghost function Anchor(st: Store): string
    {
      var own := Servers(Cfg(), key, st);
      if own != [] then own[0].spec.ipAddress else service.statusIp
    }

    lemma StakedAfterDelete(st0: Store, ip0: string, failures0: nat, mid: Store, failures1: nat)
      requires StakedAt(st0, ip0, mid, ipAddress, failures1 == failures0)
      requires failures0 <= failures1 <= lb.access.broker.failures
      requires lb.access.broker.Alone() ==> Now().ipPools == mid.ipPools
      requires forall v :: v in Servers(Cfg(), key, Now()) ==> v in Servers(Cfg(), key, mid)
      requires if service.ports != [] then Servers(Cfg(), key, Now()) != [] else ip0 == ipAddress
      ensures Staked(st0, ip0, failures0)
    {
      hide Servers, LeaseOf;
      var own, own' := Servers(Cfg(), key, mid), Servers(Cfg(), key, Now());
      assert own' != [] ==> own'[0] in own;
      if lb.access.broker.Alone() && mid.ipPools != st0.ipPools {
        PoolsButSame(mid, Now(), Held());
        PoolsButTransitive(st0, mid, Now(), Held());
      }
    }

    lemma NeededStays()
      requires exists v :: v in servers && ForSomePort(service.ports, v)
      requires forall v :: v in servers && ForSomePort(service.ports, v) ==> v in Servers(Cfg(), key, Now())
      ensures Servers(Cfg(), key, Now()) != []
    {
    }

    lemma StakedSince(st0: Store, mid: Store, ip0: string, failures0: nat)
      requires Staked(mid, ip0, failures0) && (lb.access.broker.Alone() ==> mid == st0)
      ensures Staked(st0, ip0, failures0)
    {
    }

    /** A server that was there keeps its id, while it has a port. */
    lemma PortsKeepIds(before: seq<VirtualServer>, now: seq<VirtualServer>)
      requires Extended(before, servers)
      requires forall v :: v in now <==> v in servers && ForSomePort(service.ports, v)
      ensures forall w :: w in before && ForSomePort(service.ports, w) ==> HasId(now, w.id)
    {
      hide ForSomePort;
      forall w | w in before && ForSomePort(service.ports, w) ensures HasId(now, w.id) {
        var j :| 0 <= j < |before| && before[j] == w;
        SamePortServed(servers[j], w);
        assert servers[j] in now;
      }
    }

    lemma OneUnattached(v: VirtualServer)
      ensures v in Servers(Cfg(), key, Now()) && v.id !in AllIds(Now().services) ==> !AllAttached(Cfg(), key, Now())
    {
    }

    /** What was created is attached, and what was not attached before is still not, unless its port is gone. */
    lemma ServingExact(before: Store, mid: Store, now: Store)
      requires Grown(Cfg(), key, before, mid) && Shrunk(Cfg(), key, mid, now)
      requires forall v :: v in Servers(Cfg(), key, now) <==> v in Servers(Cfg(), key, mid) && ForSomePort(service.ports, v)
      ensures AllAttached(Cfg(), key, now) <==> NeededAttached(Cfg(), key, service.ports, before)
    {
      hide Servers, ForSomePort;
      var own, own' := Servers(Cfg(), key, before), Servers(Cfg(), key, mid);
      forall w | w in own
        ensures exists v :: v in own' && v.id == w.id && ForSomePort(service.ports, v) == ForSomePort(service.ports, w)
      {
        var v :| v in own' && v.id == w.id;
        SamePortServed(v, w);
      }
      forall v, w | v in own' && w in own && v.id == w.id ensures ForSomePort(service.ports, v) == ForSomePort(service.ports, w) {
        SamePortServed(v, w);
      }
    }

    lemma SamePortServed(v: VirtualServer, w: VirtualServer)
      requires SamePort(v, w)
      ensures ForSomePort(service.ports, v) == ForSomePort(service.ports, w)
    {
    }

    /** From the snapshot on: a server for every port, then the deletion of what no port needs. */
    method BringInLine() returns (r: Outcome)
      requires Ready() && Synced() && Anchored()
      modifies this`servers, this`pools, this`tcpMonitors, this`ipAddress, lb`lbServiceID, lb.access.broker
      ensures Ready() && (old(ipAddress) != "" || service.ports == [] ==> ipAddress == old(ipAddress))
      ensures r.Done? && DistinctPorts(service.ports) ==> Settled()
      ensures r.Done? || service.ports == [] ==>
                forall v :: v in Servers(Cfg(), key, Now()) ==> v.spec.ipAddress == ipAddress && ClassOf(v) == lbClass.value
      ensures r.Done? ==> forall v :: v in Servers(Cfg(), key, Now()) ==> ForSomePort(service.ports, v)
      ensures r.Done? && service.ports != [] ==> Servers(Cfg(), key, Now()) != [] && ipAddress != ""
      ensures old(NothingToDo()) ==> r.Done? && Here() == old(Here())
      ensures service.ports == [] ==> forall v :: v in Servers(Cfg(), key, Now()) ==> v in old(servers)
      ensures service.ports == [] && !r.Done? ==> lb.access.broker.failures > old(lb.access.broker.failures)
      ensures service.ports == [] && lb.access.broker.Alone() && Balanced(Cfg(), old(Now()), None) ==>
                if Servers(Cfg(), key, Now()) == [] && old(servers) != []
                then Balanced(Cfg(), Now(), Some(Held())) else Balanced(Cfg(), Now(), None)
      ensures Calm(old(lb.access.broker.failures)) && old(NoSpareAddress()) && Balanced(Cfg(), old(Now()), None) ==>
                if r.Done? && Servers(Cfg(), key, Now()) == [] && old(servers) != []
                then Balanced(Cfg(), Now(), Some(Held())) else Balanced(Cfg(), Now(), None)
      ensures !r.Done? ==> lb.access.broker.failures > old(lb.access.broker.failures) || Blocking(r.error)
      ensures Quiet(old(lb.access.broker.failures)) ==> (r.Done? <==> AllServed(service.ports, old(servers)) || old(Able()))
      ensures Calm(old(lb.access.broker.failures)) && !r.Done? ==> Grown(Cfg(), key, old(Now()), Now())
      ensures Calm(old(lb.access.broker.failures)) && Covered(Cfg()) && r.Done? ==>
                (AllAttached(Cfg(), key, Now()) <==> NeededAttached(Cfg(), key, service.ports, old(Now())))
      ensures OthersAside(old(Now())) && Since(old(lb.access.broker.log), old(lb.access.broker.failures))
      ensures Staked(old(Now()), old(ipAddress), old(lb.access.broker.failures))
      ensures r.Done? ==>
                forall w :: w in old(servers) && ForSomePort(service.ports, w) ==> HasId(Servers(Cfg(), key, Now()), w.id)
    {
      hide InMemoryBroker.View, InMemoryBroker.EnvOk, InMemoryBroker.Alone, InMemoryBroker.AsideBetween,
        LoadBalancerService.OthersIdOk;
      hide NoNewForeign, Guarantee, CachedOk, OtherRuns;
      hide Base, OwnOk, AllOk, Rely, SameOthers, Servers, Pools, Monitors;
      hide Balanced, Ready, AllAttached, NeededAttached, ForSomePort, DistinctPorts, Converged, ClassOf, Grown, Shrunk,
        CanAttach, HasFree, AllServed, StakedAt, HasId, Extended;
      ghost var st0 := Now();
      SettledPorts();
      r := ProcessPorts();
      if !r.Done? {
        return;
      }
      ServersHaveAddress();
      ghost var mid, failures1 := Now(), lb.access.broker.failures;
      r := DeleteOrphans();
      OthersAsideSince(st0, mid);
      if service.ports != [] {
        NeededStays();
      }
      StakedAfterDelete(st0, old(ipAddress), old(lb.access.broker.failures), mid, failures1);
      if r.Done? {
        PortsKeepIds(old(servers), Servers(Cfg(), key, Now()));
      }
      if Calm(old(lb.access.broker.failures)) && Covered(Cfg()) && r.Done? {
        ServingExact(st0, mid, Now());
      }
    }

    /** What address and class a run works with, and what it did to servers and allocations, before it gives up the
        address or not: those of the servers it found or else of status and request, or none if it could not read them. */
    ghost predicate Halfway(requested: LbClass, st0: Store, mid: Store, calm: bool)
      reads this`ipAddress, this`lbClass
    {
      var own := Servers(Cfg(), key, st0);
      && (lbClass.None? ==> ipAddress == "" && (lb.access.broker.Alone() ==> mid == st0))
      && (lbClass.Some? ==>
           && StakedAt(st0, Anchor(st0), mid, ipAddress, calm)
           && (Anchor(st0) != "" ==> ipAddress == Anchor(st0))
           && (own == [] ==> lbClass == Some(requested))
           && (forall w :: w in own ==> w.spec.ipAddress == ipAddress && ClassOf(w) == lbClass.value))
      && (service.ports == [] ==>
           && (forall v :: v in Servers(Cfg(), key, mid) ==> v in own)
           && (own == [] ==> ipAddress == "" || ipAddress == service.statusIp))
    }

    lemma NothingToGiveUp(requested: LbClass, st0: Store, mid: Store, calm: bool)
      requires Halfway(requested, st0, mid, calm)
      ensures service.ports == [] && service.statusIp == "" && Servers(Cfg(), key, st0) == [] ==> ipAddress == ""
    {
    }

    /** Brings the objects of the service in line with its ports and the nodes. */
    method Process(requested: LbClass) returns (r: Outcome)
      requires Ready() && ipAddress == "" && lbClass == None
      modifies this, lb`lbServiceID, lb.access.broker
      ensures Ready()
      ensures r.Done? && DistinctPorts(service.ports) ==> Settled()
      ensures r.Done? ==> lbClass.Some? && forall v :: v in Servers(Cfg(), key, Now()) ==>
                            v.spec.ipAddress == ipAddress && ClassOf(v) == lbClass.value && ForSomePort(service.ports, v)
      ensures service.ports == [] && lbClass.Some? ==>
                forall v :: v in Servers(Cfg(), key, Now()) ==> v.spec.ipAddress == ipAddress && ClassOf(v) == lbClass.value
      ensures r.Done? && service.ports != [] ==> Servers(Cfg(), key, Now()) != [] && ipAddress != ""
      ensures ipAddress != "" ==> lbClass.Some?
      ensures old(Settled()) ==>
                && lb.access.broker.Silent(old(lb.access.broker.log), old(lb.access.broker.attempts))
                && SameOwn(Cfg(), key, old(Now()), Now())
                && (lb.access.broker.Alone() ==> Now() == old(Now()))
      ensures service.ports == [] && !r.Done? ==> lb.access.broker.failures > old(lb.access.broker.failures)
      ensures service.ports == [] && lb.access.broker.Alone() && old(StatusHonest()) && Balanced(Cfg(), old(Now()), None) ==>
                if Servers(Cfg(), key, Now()) == [] && ipAddress != ""
                then Balanced(Cfg(), Now(), Some(Held())) else Balanced(Cfg(), Now(), None)
      ensures Calm(old(lb.access.broker.failures)) && old(StatusHonest()) && Balanced(Cfg(), old(Now()), None) ==>
                if r.Done? && Servers(Cfg(), key, Now()) == [] && ipAddress != ""
                then Balanced(Cfg(), Now(), Some(Held())) else Balanced(Cfg(), Now(), None)
      ensures !r.Done? ==> lb.access.broker.failures > old(lb.access.broker.failures) || Blocking(r.error)
      ensures old(Settled()) && !r.Done? ==> lb.access.broker.failures > old(lb.access.broker.failures)
      ensures Quiet(old(lb.access.broker.failures)) ==>
                (r.Done? <==> ServableAt(Cfg(), key, service, requested.ipPoolId, old(Now()), old(lb.lbServiceID)))
      ensures Calm(old(lb.access.broker.failures)) && !r.Done? ==> Grown(Cfg(), key, old(Now()), Now())
      ensures Calm(old(lb.access.broker.failures)) && Covered(Cfg()) && r.Done? ==>
                (AllAttached(Cfg(), key, Now()) <==> NeededAttached(Cfg(), key, service.ports, old(Now())))
      ensures OthersAside(old(Now())) && Since(old(lb.access.broker.log), old(lb.access.broker.failures))
      ensures Halfway(requested, old(Now()), Now(), lb.access.broker.failures == old(lb.access.broker.failures))
      ensures r.Done? ==>
                forall w :: w in Servers(Cfg(), key, old(Now())) && ForSomePort(service.ports, w) ==>
                  HasId(Servers(Cfg(), key, Now()), w.id)
    {
      hide InMemoryBroker.EnvOk, InMemoryBroker.Alone, InMemoryBroker.AsideBetween, LoadBalancerService.OthersIdOk;
      hide NoNewForeign, Guarantee, CachedOk, OtherRuns;
      hide Base, OwnOk, AllOk, Rely, SameOthers, Servers, Pools, Monitors;
      hide Balanced, Ready, AllAttached, NeededAttached, ForSomePort, DistinctPorts, Converged, ClassOf, Grown, Shrunk,
        CanAttach, HasFree, AllServed, StakedAt, HasId, Extended;
      ghost var st0 := Now();
      r := ReadSnapshot();
      if !r.Done? {
        return;
      }
      AnchorToServers(requested);
      ServersHaveAddress();
      ghost var mid := Now();
      r := BringInLine();
      OthersAsideSince(st0, mid);
      StakedSince(st0, mid, Anchor(mid), old(lb.access.broker.failures));
    }

    /** The address is given back when no port is left, whatever `Process` achieved. */
    method Finish() returns (r: Result<Option<string>>)
      requires Ready() && (ipAddress != "" ==> lbClass.Some?)
      modifies lb.access.broker
      ensures Ready() && OnlyAddresses(old(Now())) && OthersAside(old(Now()))
      ensures service.ports != [] ==>
                r == Ok(Some(ipAddress)) && Here() == old(Here())
      ensures service.ports == [] && r.Ok? ==> r.value == None
      ensures service.ports == [] && lb.access.broker.Alone() ==>
                Now() == if r.Ok? && ipAddress != "" && Leased(old(Now()), Held())
                         then Release(old(Now()), Held().poolId, ipAddress) else old(Now())
      ensures service.ports == [] && ipAddress == "" ==>
                r.Ok? && Here() == old(Here())
      ensures r.Err? && lb.access.broker.Alone() ==> lb.access.broker.failures > old(lb.access.broker.failures)
      ensures r.Err? ==> lb.access.broker.failures > old(lb.access.broker.failures) || r == Err(NotFound)
      ensures Since(old(lb.access.broker.log), old(lb.access.broker.failures))
    {
      hide InMemoryBroker.EnvOk, InMemoryBroker.Alone, InMemoryBroker.AsideBetween, LoadBalancerService.OthersIdOk;
      hide NoNewForeign, Guarantee, CachedOk, OtherRuns;
      hide Base, OwnOk, AllOk, Rely, SameOthers, Servers, Pools, Monitors, Ready;
      lb.access.broker.NothingAside(Cfg(), key);
      SameOwnReflexive(Cfg(), key, Now());
      if |service.ports| == 0 {
        var released := ReleaseResources();
        return if released.Done? then Ok(None) else Err(released.error);
      }
      r := Ok(Some(ipAddress));
    }

    /** The address that a run works with: its own, or that of the servers that it did not get to read. */
    ghost function Stake(st0: Store): Option<Lease>
      reads this`lbClass, this`ipAddress
    {
      var own := Servers(Cfg(), key, st0);
      if ipAddress != "" then Some(Held()) else if own != [] then Some(LeaseOf(own[0])) else None
    }

    /** What a whole run on its own, with a release at its end or not, may have changed. */
    lemma WholeRun(requested: LbClass, st0: Store, mid: Store, calm: bool, released: bool)
      requires lb.access.broker.Alone() && OthersAside(st0) && OwnOk(Cfg(), key, st0)
      requires Halfway(requested, st0, mid, calm)
      requires Now() == if released && ipAddress != "" && Leased(mid, Held())
                        then Release(mid, Held().poolId, ipAddress) else mid
      ensures MayChange(Cfg(), key, st0, Now(), Stake(st0))
    {
      hide Servers, PoolsBut, SameOthers, OwnOk, Leased, AllHave;
      var own := Servers(Cfg(), key, st0);
      SameOwnLists(Cfg(), key, mid, Now());
      OwnServers(Cfg(), key, st0);
      assert own != [] ==> own[0] in own;
      if ipAddress != "" {
        AllHeld(own);
        AllocationsBut(st0, mid, released);
      } else if own != [] {
        SameLeases(own, own, own[0]);
        PoolsButSame(st0, Now(), LeaseOf(own[0]));
      }
    }

    lemma AllHeld(own: seq<VirtualServer>)
      requires lbClass.Some? && forall w :: w in own ==> w.spec.ipAddress == ipAddress && ClassOf(w) == lbClass.value
      ensures AllHave(own, Held())
    {
    }

    lemma AllocationsBut(st0: Store, mid: Store, released: bool)
      requires mid.ipPools == st0.ipPools || PoolsBut(st0, mid, Held())
      requires Now().ipPools == if released && Leased(mid, Held()) then Release(mid, Held().poolId, ipAddress).ipPools
                                else mid.ipPools
      ensures PoolsBut(st0, Now(), Held())
    {
      hide PoolsBut, Leased, Release;
      if mid.ipPools == st0.ipPools {
        PoolsButSame(st0, mid, Held());
      }
      if Now().ipPools == mid.ipPools {
        PoolsButSame(mid, Now(), Held());
      } else {
        PoolsButReleased(mid, Now(), Held());
      }
      PoolsButTransitive(st0, mid, Now(), Held());
    }

    // -------------------------------------------------------------- following the nodes

    predicate FollowsNodes(p: Pool)
    {
      Addresses(p.spec.members) == NodeAddresses(nodes)
    }

    /** The same pools, apart from their members. */
    ghost predicate OnlyMembersChanged(before: seq<Pool>)
      reads this
    {
      |pools| == |before| &&
      forall j :: 0 <= j < |pools| ==>
        && pools[j].id == before[j].id && pools[j].tags == before[j].tags
        && pools[j].spec.activeMonitorIds == before[j].spec.activeMonitorIds
        && (pools[j] != before[j] ==>
             && !FollowsNodes(before[j]) && HasSomePort(service.ports, before[j].tags) && FollowsNodes(pools[j])
             && BroughtUpToDate(before[j].spec.members, NodeAddresses(nodes), pools[j].spec.members))
    }

    /** Of the first `n` pools, those of the port follow the nodes. */
    ghost predicate PortFollows(m: Mapping, s: seq<Pool>, n: nat)
    {
      n <= |s| && forall k :: 0 <= k < n && MatchTags(m, s[k].tags) ==> FollowsNodes(s[k])
    }

    /** The pools of the first `i` ports follow the nodes. */
    ghost predicate PortsFollow(i: nat, s: seq<Pool>)
    {
      i <= |service.ports| && forall k :: 0 <= k < i ==> PortFollows(NewMapping(service.ports[k]), s, |s|)
    }

    /** Letting one pool follow the nodes keeps it so for the others. */
    lemma OneFollows(i: nat, m: Mapping, before: seq<Pool>, after: seq<Pool>, j: nat)
      requires PortsFollow(i, before) && PortFollows(m, before, j) && |after| == |before| && j < |before|
      requires forall k :: 0 <= k < |after| ==> after[k].tags == before[k].tags
      requires forall k :: 0 <= k < |after| && k != j ==> after[k] == before[k]
      requires MatchTags(m, after[j].tags) ==> FollowsNodes(after[j])
      requires after == before || FollowsNodes(after[j])
      ensures PortsFollow(i, after) && PortFollows(m, after, j + 1)
    {
      hide MatchTags, FollowsNodes;
      forall k | 0 <= k < i ensures PortFollows(NewMapping(service.ports[k]), after, |after|) {
        assert PortFollows(NewMapping(service.ports[k]), before, |before|);
      }
    }

    ghost predicate AllFollow(s: seq<Pool>)
    {
      forall p :: p in s && HasSomePort(service.ports, p.tags) ==> FollowsNodes(p)
    }

    method FollowNodes(j: nat, m: Mapping, ghost pools0: seq<Pool>) returns (r: Outcome)
      requires Ready() && pools == Pools(Cfg(), key, Now()) && j < |pools| && OnlyMembersChanged(pools0)
      requires MatchTags(m, pools[j].tags) && HasSomePort(service.ports, pools[j].tags)
      modifies this`pools, lb.access.broker
      ensures Ready() && |pools| == |old(pools)|
      ensures Servers(Cfg(), key, Now()) == Servers(Cfg(), key, old(Now()))
      ensures Monitors(Cfg(), key, Now()) == Monitors(Cfg(), key, old(Now()))
      ensures r.Done? ==> pools == Pools(Cfg(), key, Now()) && OnlyMembersChanged(pools0) && FollowsNodes(pools[j])
      ensures forall k :: 0 <= k < |pools| ==> pools[k].tags == old(pools)[k].tags
      ensures forall k :: 0 <= k < |pools| && k != j ==> pools[k] == old(pools)[k]
      ensures AllFollow(pools0) ==>
                lb.access.broker.Silent(old(lb.access.broker.log), old(lb.access.broker.attempts))
      ensures !r.Done? ==> lb.access.broker.failures > old(lb.access.broker.failures)
      ensures ServersAside(old(Now())) && Since(old(lb.access.broker.log), old(lb.access.broker.failures))
    {
      hide InMemoryBroker.EnvOk, InMemoryBroker.Alone, InMemoryBroker.AsideBetween, LoadBalancerService.OthersIdOk;
      hide NoNewForeign, Guarantee, CachedOk, OtherRuns;
      hide Base, OwnOk, AllOk, Rely, SameOthers, Servers, Pools, Monitors, PortOf, Addresses, NodeAddresses, RefersToPool;
      hide RefersToMonitor, HasSomePort, Ready;
      PresentUnique();
      assert pools[j] in pools && pools0[j] in pools0;
      r := UpdatePool(j, m, pools[j].spec.activeMonitorIds);
    }

    /** Lets the members of all pools that serve a port follow the nodes, and changes nothing else. */
    method UpdatePoolMembers() returns (r: Outcome)
      requires Ready()
      modifies this`pools, lb.access.broker
      ensures Ready()
      ensures Servers(Cfg(), key, Now()) == Servers(Cfg(), key, old(Now()))
      ensures Monitors(Cfg(), key, Now()) == Monitors(Cfg(), key, old(Now()))
      ensures r.Done? ==>
                && pools == Pools(Cfg(), key, Now()) && OnlyMembersChanged(Pools(Cfg(), key, old(Now())))
                && forall p :: p in pools && HasSomePort(service.ports, p.tags) ==> FollowsNodes(p)
      ensures (forall p :: p in Pools(Cfg(), key, old(Now())) && HasSomePort(service.ports, p.tags) ==> FollowsNodes(p)) ==>
                lb.access.broker.Silent(old(lb.access.broker.log), old(lb.access.broker.attempts))
      ensures !r.Done? ==> lb.access.broker.failures > old(lb.access.broker.failures)
      ensures ServersAside(old(Now())) && Since(old(lb.access.broker.log), old(lb.access.broker.failures))
    {
      hide InMemoryBroker.EnvOk, InMemoryBroker.Alone, InMemoryBroker.AsideBetween, LoadBalancerService.OthersIdOk;
      hide NoNewForeign, Guarantee, CachedOk, OtherRuns;
      hide Base, OwnOk, AllOk, Rely, SameOthers, Servers, Pools, Monitors, PortOf, FollowsNodes, MatchTags;
      lb.access.broker.NothingAside(Cfg(), key);
      ghost var st0, log0, attempts0 := Now(), lb.access.broker.log, lb.access.broker.attempts;
      var found, at := lb.access.FindPools(key);
      IdleMove(Cfg(), key, lb.lbServiceID, log0, st0, at);
      lb.access.broker.CallAside(Cfg(), key, false, st0, at, log0);
      if found.Err? {
        return Failed(found.error);
      }
      pools := found.value;
      ghost var pools0 := pools;
      for i := 0 to |service.ports|
        invariant Ready() && pools == Pools(Cfg(), key, Now()) && OnlyFollowed(st0, log0, attempts0, pools0)
        invariant PortsFollow(i, pools)
        invariant Since(log0, old(lb.access.broker.failures))
      {
        r := UpdatePortMembers(i, st0, log0, attempts0, pools0);
        if !r.Done? {
          return;
        }
      }
      r := Done;
    }

    /** Since the start of the update nothing but pool members has changed. */
    ghost predicate OnlyFollowed(st0: Store, log0: seq<Event>, attempts0: nat, pools0: seq<Pool>)
      reads this, lb.access.broker
    {
      && Servers(Cfg(), key, Now()) == Servers(Cfg(), key, st0)
      && Monitors(Cfg(), key, Now()) == Monitors(Cfg(), key, st0)
      && OnlyMembersChanged(pools0) && ServersAside(st0)
      && (AllFollow(pools0) ==> lb.access.broker.Silent(log0, attempts0))
    }

    lemma NoPoolYet(m: Mapping)
      ensures PortFollows(m, pools, 0)
    {
    }

    lemma OnePortMore(i: nat)
      requires i < |service.ports| && PortsFollow(i, pools) && PortFollows(NewMapping(service.ports[i]), pools, |pools|)
      ensures PortsFollow(i + 1, pools)
    {
      hide PortFollows;
    }

    method UpdatePortMembers(i: nat, ghost st0: Store, ghost log0: seq<Event>, ghost attempts0: nat, ghost pools0: seq<Pool>)
      returns (r: Outcome)
      requires Ready() && pools == Pools(Cfg(), key, Now()) && OnlyFollowed(st0, log0, attempts0, pools0) && i < |service.ports|
      requires PortsFollow(i, pools)
      modifies this`pools, lb.access.broker
      ensures Ready() && |pools| == |old(pools)|
      ensures r.Done? ==> pools == Pools(Cfg(), key, Now()) && OnlyFollowed(st0, log0, attempts0, pools0)
      ensures r.Done? ==> PortsFollow(i + 1, pools)
      ensures Servers(Cfg(), key, Now()) == Servers(Cfg(), key, st0) && Monitors(Cfg(), key, Now()) == Monitors(Cfg(), key, st0)
      ensures ServersAside(st0) && (AllFollow(pools0) ==> lb.access.broker.Silent(log0, attempts0))
      ensures !r.Done? ==> lb.access.broker.failures > old(lb.access.broker.failures)
      ensures Since(old(lb.access.broker.log), old(lb.access.broker.failures))
    {
      hide InMemoryBroker.EnvOk, InMemoryBroker.Alone, InMemoryBroker.AsideBetween, LoadBalancerService.OthersIdOk;
      hide NoNewForeign, Guarantee, CachedOk, OtherRuns;
      hide Base, OwnOk, AllOk, Rely, SameOthers, Servers, Pools, Monitors, PortOf, FollowsNodes, MatchTags;
      hide Ready, OnlyMembersChanged, AllFollow, PortFollows, PortsFollow;
      NoPoolYet(NewMapping(service.ports[i]));
      var m := NewMapping(service.ports[i]);
      for j := 0 to |pools|
        invariant |pools| == |old(pools)|
        invariant Ready() && pools == Pools(Cfg(), key, Now()) && OnlyFollowed(st0, log0, attempts0, pools0)
        invariant PortsFollow(i, pools)
        invariant PortFollows(m, pools, j)
        invariant Since(old(lb.access.broker.log), old(lb.access.broker.failures))
      {
        ghost var was := pools;
        if MatchTags(m, pools[j].tags) {
          ghost var before := Now();
          r := FollowNodes(j, m, pools0);
          OthersAsideSince(st0, before);
          if !r.Done? {
            return;
          }
        }
        OneFollows(i, m, was, pools, j);
      }
      OnePortMore(i);
      r := Done;
    }

    /** Following new nodes takes a converged state to one converged for them. */
    lemma StillConverged(nodes0: seq<Node>, vs: seq<VirtualServer>, before: seq<Pool>, ms: seq<Monitor>)
      requires OnlyMembersChanged(before) && Converged(service.ports, nodes0, vs, before, ms)
      requires forall p :: p in pools && HasSomePort(service.ports, p.tags) ==> FollowsNodes(p)
      ensures Converged(service.ports, nodes, vs, pools, ms)
    {
      hide Addresses, NodeAddresses, PortOf, ForSomePort;
      forall i | 0 <= i < |service.ports| ensures PortDone(NewMapping(service.ports[i]), nodes, vs, pools, ms) {
        var m := NewMapping(service.ports[i]);
        assert PortDone(m, nodes0, vs, before, ms);
        var v, p :| v in vs && p in before && ServerDone(m, p.id, v) &&
          PoolDone(m, nodes0, p.spec.activeMonitorIds, p) && MonitorsDone(m, p.spec.activeMonitorIds, ms);
        var j :| 0 <= j < |before| && before[j] == p;
        assert pools[j] in pools && MatchTags(m, pools[j].tags);
      }
      forall p | p in pools ensures UsedByServer(vs, p.id) {
        var j :| 0 <= j < |pools| && pools[j] == p;
        assert before[j] in before;
      }
      forall x | x in ms ensures UsedByPool(pools, x.id) {
        var p :| p in before && x.id in p.spec.activeMonitorIds;
        var j :| 0 <= j < |before| && before[j] == p;
        assert pools[j] in pools;
      }
    }
  }
}
