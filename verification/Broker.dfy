/** The in-memory broker, shared with other runs and reached over calls that may fail. */
module Broker {
  import opened Results
  import opened Text
  import opened Resources
  import opened BrokerState
  import opened Ownership
  import opened Steps

  /** The loop that all searches by id share: the first position with the id, or the length. */
  method IndexOf<T>(s: seq<Resource<T>>, id: string) returns (i: nat)
    ensures i <= |s|
    ensures i < |s| ==> s[i].id == id
    ensures forall j :: 0 <= j < i ==> s[j].id != id
  {
    i := 0;
    while i < |s|
      invariant i <= |s|
      invariant forall j :: 0 <= j < i ==> s[j].id != id
    {
      if s[i].id == id {
        return;
      }
      i := i + 1;
    }
  }

  lemma AtIndex<T(!new)>(s: seq<Resource<T>>, x: Resource<T>, i: nat)
    requires i <= |s| && (i < |s| ==> s[i].id == x.id)
    requires forall j :: 0 <= j < i ==> s[j].id != x.id
    ensures i < |s| <==> HasId(s, x.id)
    ensures i < |s| ==> Find(s, x.id) == Some(s[i]) && Replace(s, x) == s[i := x]
    ensures i < |s| ==> Remove(s, x.id) == s[..i] + s[i + 1..]
  {
    if i < |s| {
      FindAt(s, x.id, i);
      ReplaceAt(s, x, i);
      RemoveAt(s, x.id, i);
    }
  }

  /** The search for a free address; of a pool that is not full its end is never reached. */
  method FindFree(pool: IpPool) returns (address: string)
    requires InRange(pool) && |pool.allocations| != pool.size
    ensures IsLowestFree(pool, address)
  {
    SomeAddressIsFree(pool);
    for i := 1 to pool.size + 1
      invariant forall j :: 1 <= j < i ==> Address(pool, j) in pool.allocations
    {
      address := Address(pool, i);
      if address !in pool.allocations {
        LowestFree(pool, i);
        return;
      }
    }
    assert false;
  }

  lemma Unlocked(cfg: Config, key: string, locked: bool, st: Store, st': Store)
    requires Rely(cfg, key, locked, st, st')
    ensures Rely(cfg, key, false, st, st')
  {
  }

  lemma GuaranteedOthers(cfg: Config, key: string, st: Store, st': Store)
    ensures Guarantee(cfg, key, st, st') ==> SameOthers(cfg, key, st, st')
  {
  }

  class InMemoryBroker {
    var ipPools: map<string, IpPool>
    var lbServices: seq<LbService>
    var lbVirtualServers: seq<VirtualServer>
    var lbPools: seq<Pool>
    var lbMonitors: seq<Monitor>
    var nextID: nat

    /** The resource type that the server writes into a new TCP monitor. */
    const monitorType: string

    /** Which of the calls made to the broker fail. */
    const faults: nat -> bool

    /** What the other runs do to the broker before a call, which depends on what this run has locked: the flag tells
        whether it holds lbLock, and the key for which service it works. */
    const others: (nat, bool, Option<string>, Store) -> Store

    var calls: nat
    ghost var failures: nat
    ghost var attempts: nat
    ghost var log: seq<Event>
    ghost const start: Store

    function View(): Store
      reads this
    {
      Store(lbServices, lbVirtualServers, lbPools, lbMonitors, ipPools, nextID)
    }

    /** Every further call fails. */
    ghost predicate Down()
      reads this
    {
      forall n :: n >= calls ==> faults(n)
    }

    /** No other run interferes. */
    ghost predicate Alone()
    {
      forall n, locked, run, st :: others(n, locked, run, st) == st
    }

    /** While this run works for `key`, the other runs keep to what it relies on. */
    ghost predicate EnvOk(cfg: Config, key: string)
    {
      forall n, locked, st :: Base(cfg, st) ==>
                                var at := others(n, locked, Some(key), st);
                                Base(cfg, at) && Rely(cfg, key, locked, st, at)
    }

    /** The other runs leave the broker well formed. */
    ghost predicate KeepsBase(cfg: Config, run: Option<string>)
    {
      forall n, locked, st :: Base(cfg, st) ==> Base(cfg, others(n, locked, run, st))
    }

    /** No other run ever works for `key`. */
    ghost predicate Unshared(cfg: Config, key: string)
    {
      forall n, locked, run, st :: Base(cfg, st) ==> Rely(cfg, key, locked, st, others(n, locked, run, st))
    }

    /** Other runs for `key`, made while this one works for another service or none, only delete. */
    ghost predicate OnlyDeleted(cfg: Config, key: string)
    {
      forall n, locked, run, st :: run != Some(key) && Base(cfg, st) ==> Dwindles(cfg, key, st, others(n, locked, run, st))
    }

    /** What is known of the objects of a service that this run does not work for. */
    ghost predicate Apart(cfg: Config, key: string, locked: bool, before: Store, at: Store)
    {
      && (Unshared(cfg, key) ==> Rely(cfg, key, locked, before, at))
      && (OnlyDeleted(cfg, key) ==> Dwindles(cfg, key, before, at))
    }

    /** `at` is the state a call found after other runs may have written. */
    ghost predicate Moved(cfg: Config, run: Option<string>, locked: bool, before: Store, at: Store)
    {
      && Base(cfg, at) && (Alone() ==> at == before)
      && (run.Some? && EnvOk(cfg, run.value) ==> Rely(cfg, run.value, locked, before, at))
      && forall key :: run != Some(key) ==> Apart(cfg, key, locked, before, at)
    }

    /** What a call of the run for `key` finds. */
    ghost predicate Turned(cfg: Config, key: string, locked: bool, before: Store, at: Store)
    {
      Moved(cfg, Some(key), locked, before, at) && Rely(cfg, key, locked, before, at)
    }

    /** If nobody else writes, the log leads from the start to the present state. */
    ghost predicate Chained()
      reads this
    {
      ChainedAt(log, View())
    }

    ghost predicate ChainedAt(writes: seq<Event>, st: Store)
    {
      Alone() ==> Linked(start, writes) && Last(start, writes) == st
    }

    /** Between two states the run for `key` left alone what is not its own: all of it, if it was alone, and otherwise
        the objects of every service that no other run works for either; where others only delete, so they did. */
    ghost predicate AsideBetween(cfg: Config, key: string, before: Store, now: Store)
    {
      && (Alone() ==> SameOthers(cfg, key, before, now))
      && forall k :: k != key ==> Apart(cfg, k, false, before, now)
    }

    ghost predicate OthersAside(cfg: Config, key: string, before: Store)
      reads this
    {
      AsideBetween(cfg, key, before, View())
    }

    lemma ApartReflexive(cfg: Config, key: string, locked: bool, st: Store)
      ensures Apart(cfg, key, locked, st, st)
    {
      hide Rely, Unshared, OnlyDeleted, Dwindles;
      RelyReflexive(cfg, key, locked, st);
      RelyReflexive(cfg, key, false, st);
      RelyDwindles(cfg, key, st, st);
    }

    lemma ApartTransitive(cfg: Config, key: string, before: Store, mid: Store, at: Store)
      requires Apart(cfg, key, false, before, mid) && Apart(cfg, key, false, mid, at)
      ensures Apart(cfg, key, false, before, at)
    {
      hide Rely, Unshared, OnlyDeleted, Dwindles;
      if Unshared(cfg, key) {
        RelyTransitive(cfg, key, before, mid, at);
      }
      if OnlyDeleted(cfg, key) {
        DwindlesTransitive(cfg, key, before, mid, at);
      }
    }

    /** A turn of the others, and a write of this run for another service. */
    lemma ApartSince(cfg: Config, key: string, k: string, locked: bool, before: Store, at: Store, now: Store)
      requires Apart(cfg, k, locked, before, at) && k != key && IdsOk(at)
      requires now == at || Guarantee(cfg, key, at, now)
      ensures Apart(cfg, k, false, before, now)
    {
      hide Rely, Unshared, OnlyDeleted, Dwindles, Guarantee, IdsOk;
      if Unshared(cfg, k) {
        Unlocked(cfg, k, locked, before, at);
      }
      if now != at {
        GuaranteeImpliesRely(cfg, key, k, at, now);
        RelyDwindles(cfg, k, at, now);
        ApartTransitive(cfg, k, before, at, now);
      }
    }

    lemma MovedReflexive(cfg: Config, run: Option<string>, st: Store)
      requires Base(cfg, st)
      ensures Moved(cfg, run, false, st, st)
    {
      hide Rely, EnvOk, Apart;
      forall k ensures Rely(cfg, k, false, st, st) && Apart(cfg, k, false, st, st) {
        RelyReflexive(cfg, k, false, st);
        ApartReflexive(cfg, k, false, st);
      }
    }

    lemma MovedTransitive(cfg: Config, run: Option<string>, before: Store, mid: Store, at: Store)
      requires Moved(cfg, run, false, before, mid) && Moved(cfg, run, false, mid, at)
      ensures Moved(cfg, run, false, before, at)
    {
      hide Rely, EnvOk, Base, Apart;
      if run.Some? && EnvOk(cfg, run.value) {
        RelyTransitive(cfg, run.value, before, mid, at);
      }
      forall k | run != Some(k) ensures Apart(cfg, k, false, before, at) {
        ApartTransitive(cfg, k, before, mid, at);
      }
    }

    lemma NothingAside(cfg: Config, key: string)
      ensures OthersAside(cfg, key, View())
    {
      hide Apart, SameOthers;
      SameOthersReflexive(cfg, key, View());
      forall k ensures Apart(cfg, k, false, View(), View()) {
        ApartReflexive(cfg, k, false, View());
      }
    }

    /** One call of the run, with or without a write. */
    lemma CallAside(cfg: Config, key: string, locked: bool, before: Store, at: Store, log0: seq<Event>)
      requires Moved(cfg, Some(key), locked, before, at) && IdsOk(at)
      requires (View() == at && log == log0) || (Guarantee(cfg, key, at, View()) && log == log0 + [Event(key, at, View())])
      ensures OthersAside(cfg, key, before) && Extends(key, log0, log)
    {
      if log != log0 {
        ExtendsByWrite(key, log0, Event(key, at, View()));
      }
      StoresAside(cfg, key, locked, before, at);
    }

    lemma StoresAside(cfg: Config, key: string, locked: bool, before: Store, at: Store)
      requires Moved(cfg, Some(key), locked, before, at) && IdsOk(at)
      requires View() == at || Guarantee(cfg, key, at, View())
      ensures OthersAside(cfg, key, before)
    {
      hide Rely, EnvOk, Guarantee, IdsOk, Base, SameOthers, Apart;
      forall k | k != key ensures Apart(cfg, k, false, before, View()) {
        ApartSince(cfg, key, k, locked, before, at, View());
      }
      if Alone() {
        SameOthersReflexive(cfg, key, at);
        GuaranteedOthers(cfg, key, at, View());
      }
    }

    /** What was left alone before and since. */
    lemma AsideSince(cfg: Config, key: string, before: Store, mid: Store, now: Store)
      requires AsideBetween(cfg, key, before, mid) && AsideBetween(cfg, key, mid, now)
      ensures AsideBetween(cfg, key, before, now)
    {
      hide Apart, SameOthers;
      if Alone() {
        SameOthersTransitive(cfg, key, before, mid, now);
      }
      forall k | k != key ensures Apart(cfg, k, false, before, now) {
        ApartTransitive(cfg, k, before, mid, now);
      }
    }

    /** A call made one write, on the state `at`. */
    ghost predicate Wrote(key: string, at: Store, log0: seq<Event>, failures0: nat)
      reads this
    {
      log == log0 + [Event(key, at, View())] && failures == failures0
    }

    /** No write call was made, let alone got through. */
    ghost predicate Silent(log0: seq<Event>, attempts0: nat)
      reads this
    {
      log == log0 && attempts == attempts0
    }

    /** A call wrote nothing. */
    ghost predicate Idle(at: Store, log0: seq<Event>)
      reads this
    {
      View() == at && log == log0
    }

    /** The broker as the controller finds it. */
    constructor (st: Store, monitorType: string, faults: nat -> bool, others: (nat, bool, Option<string>, Store) -> Store)
      ensures View() == st
      ensures this.monitorType == monitorType && this.faults == faults && this.others == others
      ensures log == [] && failures == 0 && attempts == 0 && calls == 0 && start == View() && Chained()
    {
      this.ipPools, this.nextID := st.ipPools, st.nextId;
      this.lbServices, this.lbVirtualServers, this.lbPools, this.lbMonitors := st.services, st.servers, st.pools, st.monitors;
      this.monitorType, this.faults, this.others := monitorType, faults, others;
      this.calls, this.failures, this.attempts, this.log := 0, 0, 0, [];
      this.start := st;
    }

    /** Other runs take their turn. */
    method Interleave(ghost cfg: Config, run: Option<string>, locked: bool)
      requires KeepsBase(cfg, run) && Base(cfg, View()) && Chained()
      modifies this
      ensures Moved(cfg, run, locked, old(View()), View()) && Chained()
      ensures log == old(log) && failures == old(failures) && attempts == old(attempts) && calls == old(calls)
    {
      hide Base, Rely, Dwindles;
      var st := others(calls, locked, run, View());
      lbServices, lbVirtualServers, lbPools, lbMonitors := st.services, st.servers, st.pools, st.monitors;
      ipPools, nextID := st.ipPools, st.nextId;
    }

    /** Precedes every call: after the others' turn the call, which is to write or not, gets through or fails. */
    method Turn(ghost cfg: Config, run: Option<string>, locked: bool, ghost writes: bool) returns (up: bool)
      requires KeepsBase(cfg, run) && Base(cfg, View()) && Chained()
      modifies this
      ensures Moved(cfg, run, locked, old(View()), View()) && Chained()
      ensures log == old(log)
      ensures failures == if up then old(failures) else old(failures) + 1
      ensures attempts == if writes then old(attempts) + 1 else old(attempts)
      ensures old(Down()) ==> !up && Down()
    {
      hide KeepsBase, Base, Moved;
      Interleave(cfg, run, locked);
      up := !faults(calls);
      calls := calls + 1;
      failures := if up then failures else failures + 1;
      attempts := if writes then attempts + 1 else attempts;
    }

    // -------------------------------------------------------------- load balancer services

    /** Notes the write that was just made. */
    ghost method Record(key: string, before: Store, log0: seq<Event>)
      requires log == log0 && ChainedAt(log0, before)
      modifies this`log
      ensures log == log0 + [Event(key, before, View())] && Chained()
    {
      log := log0 + [Event(key, before, View())];
      if Alone() {
        LinkedAppend(start, log0, Event(key, before, View()));
      }
    }

    method CreateLoadBalancerService(ghost key: string, service: LbService) returns (created: LbService)
      requires Chained()
      modifies this
      ensures Chained()
      ensures View() == CreateService(old(View()), service.tags, service.spec)
      ensures created == service.(id := SERVICE_ID + Format(old(nextID)))
      ensures IdsOk(old(View())) ==> !HasId(old(lbServices), created.id) && IdsOk(View())
      ensures Wrote(key, old(View()), old(log), old(failures))
    {
      hide ChainedAt;
      created := service.(id := SERVICE_ID + Format(nextID));
      nextID := nextID + 1;
      lbServices := lbServices + [created];
      if IdsOk(old(View())) {
        FreshAppend(SERVICE_ID, old(lbServices), old(nextID), created);
      }
      Record(key, old(View()), old(log));
    }

    method ReadLoadBalancerService(id: string) returns (r: Result<LbService>)
      ensures r == match Find(lbServices, id) case Some(svc) => Ok(svc) case None => Err(NotFound)
    {
      var i := IndexOf(lbServices, id);
      AtIndex(lbServices, Resource(id, [], LbServiceSpec([], None)), i);
      r := if i < |lbServices| then Ok(lbServices[i]) else Err(NotFound);
    }

    method UpdateLoadBalancerService(ghost key: string, service: LbService) returns (r: Outcome)
      requires Chained()
      modifies this
      ensures Chained()
      ensures r.Done? <==> HasId(old(lbServices), service.id)
      ensures r.Done? ==> View() == old(View()).(services := Replace(old(lbServices), service))
      ensures r.Done? ==> Wrote(key, old(View()), old(log), old(failures))
      ensures !r.Done? ==> r == Failed(NotFound) && Idle(old(View()), old(log)) && failures == old(failures)
    {
      hide ChainedAt;
      var i := IndexOf(lbServices, service.id);
      AtIndex(lbServices, service, i);
      if i == |lbServices| {
        return Failed(NotFound);
      }
      lbServices := lbServices[i := service];
      Record(key, old(View()), old(log));
      r := Done;
    }

    method DeleteLoadBalancerService(ghost key: string, id: string) returns (r: Outcome)
      requires Chained()
      modifies this
      ensures Chained()
      ensures r.Done? <==> HasId(old(lbServices), id)
      ensures r.Done? ==> View() == old(View()).(services := Remove(old(lbServices), id))
      ensures r.Done? ==> Wrote(key, old(View()), old(log), old(failures))
      ensures !r.Done? ==> r == Failed(NotFound) && Idle(old(View()), old(log)) && failures == old(failures)
    {
      hide ChainedAt;
      var i := IndexOf(lbServices, id);
      AtIndex(lbServices, Resource(id, [], LbServiceSpec([], None)), i);
      if i == |lbServices| {
        return Failed(NotFound);
      }
      lbServices := lbServices[..i] + lbServices[i + 1..];
      Record(key, old(View()), old(log));
      r := Done;
    }

    // -------------------------------------------------------------- virtual servers

    method CreateLoadBalancerVirtualServer(ghost key: string, server: VirtualServer) returns (created: VirtualServer)
      requires Chained()
      modifies this
      ensures Chained()
      ensures View() == CreateServer(old(View()), server.tags, server.spec)
      ensures created == server.(id := SERVER_ID + Format(old(nextID)))
      ensures IdsOk(old(View())) ==> !HasId(old(lbVirtualServers), created.id) && IdsOk(View())
      ensures Wrote(key, old(View()), old(log), old(failures))
    {
      hide ChainedAt;
      created := server.(id := SERVER_ID + Format(nextID));
      nextID := nextID + 1;
      lbVirtualServers := lbVirtualServers + [created];
      if IdsOk(old(View())) {
        FreshAppend(SERVER_ID, old(lbVirtualServers), old(nextID), created);
      }
      Record(key, old(View()), old(log));
    }

    method UpdateLoadBalancerVirtualServer(ghost key: string, server: VirtualServer) returns (r: Outcome)
      requires Chained()
      modifies this
      ensures Chained()
      ensures r.Done? <==> HasId(old(lbVirtualServers), server.id)
      ensures r.Done? ==> View() == old(View()).(servers := Replace(old(lbVirtualServers), server))
      ensures r.Done? ==> Wrote(key, old(View()), old(log), old(failures))
      ensures !r.Done? ==> r == Failed(NotFound) && Idle(old(View()), old(log)) && failures == old(failures)
    {
      hide ChainedAt;
      var i := IndexOf(lbVirtualServers, server.id);
      AtIndex(lbVirtualServers, server, i);
      if i == |lbVirtualServers| {
        return Failed(NotFound);
      }
      lbVirtualServers := lbVirtualServers[i := server];
      Record(key, old(View()), old(log));
      r := Done;
    }

    method DeleteLoadBalancerVirtualServer(ghost key: string, id: string) returns (r: Outcome)
      requires Chained()
      modifies this
      ensures Chained()
      ensures r.Done? <==> HasId(old(lbVirtualServers), id)
      ensures r.Done? ==> View() == old(View()).(servers := Remove(old(lbVirtualServers), id))
      ensures r.Done? ==> Wrote(key, old(View()), old(log), old(failures))
      ensures !r.Done? ==> r == Failed(NotFound) && Idle(old(View()), old(log)) && failures == old(failures)
    {
      hide ChainedAt;
      var i := IndexOf(lbVirtualServers, id);
      AtIndex(lbVirtualServers, Resource(id, [], ServerSpec("", "", "", "", "")), i);
      if i == |lbVirtualServers| {
        return Failed(NotFound);
      }
      lbVirtualServers := lbVirtualServers[..i] + lbVirtualServers[i + 1..];
      Record(key, old(View()), old(log));
      r := Done;
    }

    // -------------------------------------------------------------- pools

    method CreateLoadBalancerPool(ghost key: string, pool: Pool) returns (created: Pool)
      requires Chained()
      modifies this
      ensures Chained()
      ensures View() == CreatePool(old(View()), pool.tags, pool.spec)
      ensures created == pool.(id := POOL_ID + Format(old(nextID)))
      ensures IdsOk(old(View())) ==> !HasId(old(lbPools), created.id) && IdsOk(View())
      ensures Wrote(key, old(View()), old(log), old(failures))
    {
      hide ChainedAt;
      created := pool.(id := POOL_ID + Format(nextID));
      nextID := nextID + 1;
      lbPools := lbPools + [created];
      if IdsOk(old(View())) {
        FreshAppend(POOL_ID, old(lbPools), old(nextID), created);
      }
      Record(key, old(View()), old(log));
    }

    method UpdateLoadBalancerPool(ghost key: string, pool: Pool) returns (r: Outcome)
      requires Chained()
      modifies this
      ensures Chained()
      ensures r.Done? <==> HasId(old(lbPools), pool.id)
      ensures r.Done? ==> View() == old(View()).(pools := Replace(old(lbPools), pool))
      ensures r.Done? ==> Wrote(key, old(View()), old(log), old(failures))
      ensures !r.Done? ==> r == Failed(NotFound) && Idle(old(View()), old(log)) && failures == old(failures)
    {
      hide ChainedAt;
      var i := IndexOf(lbPools, pool.id);
      AtIndex(lbPools, pool, i);
      if i == |lbPools| {
        return Failed(NotFound);
      }
      lbPools := lbPools[i := pool];
      Record(key, old(View()), old(log));
      r := Done;
    }

    method DeleteLoadBalancerPool(ghost key: string, id: string) returns (r: Outcome)
      requires Chained()
      modifies this
      ensures Chained()
      ensures r.Done? <==> HasId(old(lbPools), id)
      ensures r.Done? ==> View() == old(View()).(pools := Remove(old(lbPools), id))
      ensures r.Done? ==> Wrote(key, old(View()), old(log), old(failures))
      ensures !r.Done? ==> r == Failed(NotFound) && Idle(old(View()), old(log)) && failures == old(failures)
    {
      hide ChainedAt;
      var i := IndexOf(lbPools, id);
      AtIndex(lbPools, Resource(id, [], PoolSpec([], [])), i);
      if i == |lbPools| {
        return Failed(NotFound);
      }
      lbPools := lbPools[..i] + lbPools[i + 1..];
      Record(key, old(View()), old(log));
      r := Done;
    }

    // -------------------------------------------------------------- TCP monitors

    method CreateLoadBalancerTCPMonitor(ghost key: string, monitor: Monitor) returns (created: Monitor)
      requires Chained()
      modifies this
      ensures Chained()
      ensures View() == CreateMonitor(old(View()), monitor.tags, monitor.spec.(resourceType := monitorType))
      ensures created == Resource(MONITOR_ID + Format(old(nextID)), monitor.tags,
                                  monitor.spec.(resourceType := monitorType))
      ensures IdsOk(old(View())) ==> !HasId(old(lbMonitors), created.id) && IdsOk(View())
      ensures Wrote(key, old(View()), old(log), old(failures))
    {
      hide ChainedAt;
      created := Resource(MONITOR_ID + Format(nextID), monitor.tags, monitor.spec.(resourceType := monitorType));
      nextID := nextID + 1;
      lbMonitors := lbMonitors + [created];
      if IdsOk(old(View())) {
        FreshAppend(MONITOR_ID, old(lbMonitors), old(nextID), created);
      }
      Record(key, old(View()), old(log));
    }

    method ReadLoadBalancerTCPMonitor(id: string) returns (r: Result<Monitor>)
      ensures r == match Find(lbMonitors, id) case Some(m) => Ok(m) case None => Err(NotFound)
    {
      var i := IndexOf(lbMonitors, id);
      AtIndex(lbMonitors, Resource(id, [], MonitorSpec("", "")), i);
      r := if i < |lbMonitors| then Ok(lbMonitors[i]) else Err(NotFound);
    }

    method UpdateLoadBalancerTCPMonitor(ghost key: string, monitor: Monitor) returns (r: Outcome)
      requires Chained()
      modifies this
      ensures Chained()
      ensures r.Done? <==> HasId(old(lbMonitors), monitor.id)
      ensures r.Done? ==> View() == old(View()).(monitors := Replace(old(lbMonitors), monitor))
      ensures r.Done? ==> Wrote(key, old(View()), old(log), old(failures))
      ensures !r.Done? ==> r == Failed(NotFound) && Idle(old(View()), old(log)) && failures == old(failures)
    {
      hide ChainedAt;
      var i := IndexOf(lbMonitors, monitor.id);
      AtIndex(lbMonitors, monitor, i);
      if i == |lbMonitors| {
        return Failed(NotFound);
      }
      lbMonitors := lbMonitors[i := monitor];
      Record(key, old(View()), old(log));
      r := Done;
    }

    method DeleteLoadBalancerMonitor(ghost key: string, id: string) returns (r: Outcome)
      requires Chained()
      modifies this
      ensures Chained()
      ensures r.Done? <==> HasId(old(lbMonitors), id)
      ensures r.Done? ==> View() == old(View()).(monitors := Remove(old(lbMonitors), id))
      ensures r.Done? ==> Wrote(key, old(View()), old(log), old(failures))
      ensures !r.Done? ==> r == Failed(NotFound) && Idle(old(View()), old(log)) && failures == old(failures)
    {
      hide ChainedAt;
      var i := IndexOf(lbMonitors, id);
      AtIndex(lbMonitors, Resource(id, [], MonitorSpec("", "")), i);
      if i == |lbMonitors| {
        return Failed(NotFound);
      }
      lbMonitors := lbMonitors[..i] + lbMonitors[i + 1..];
      Record(key, old(View()), old(log));
      r := Done;
    }

    // -------------------------------------------------------------- IP pools

    /** Hands out the lowest free address. */
    method AllocateFromIPPool(ghost key: string, ipPoolId: string) returns (r: Result<string>)
      requires ipPoolId in ipPools ==> InRange(ipPools[ipPoolId])
      requires Chained()
      modifies this
      ensures Chained()
      ensures r.Ok? <==> HasFree(old(View()), ipPoolId)
      ensures r.Ok? ==>
                && IsLowestFree(old(ipPools)[ipPoolId], r.value)
                && View() == Allocate(old(View()), ipPoolId, r.value)
                && Wrote(key, old(View()), old(log), old(failures))
      ensures r.Err? ==> Idle(old(View()), old(log)) && failures == old(failures)
      ensures r.Err? ==> r == Err(if ipPoolId in old(ipPools) then PoolFull else NotFound)
    {
      hide ChainedAt;
      if ipPoolId !in ipPools {
        return Err(NotFound);
      }
      var pool := ipPools[ipPoolId];
      if pool.size == |pool.allocations| {
        return Err(PoolFull);
      }
      var address := FindFree(pool);
      ipPools := ipPools[ipPoolId := pool.(allocations := pool.allocations + {address})];
      Record(key, old(View()), old(log));
      r := Ok(address);
    }

    method ListIPPoolAllocations(ipPoolId: string) returns (r: Result<set<string>>)
      ensures r == if ipPoolId in ipPools then Ok(ipPools[ipPoolId].allocations) else Err(NotFound)
    {
      r := if ipPoolId in ipPools then Ok(ipPools[ipPoolId].allocations) else Err(NotFound);
    }

    method ReleaseFromIPPool(ghost key: string, ipPoolId: string, address: string) returns (r: Outcome)
      requires Chained()
      modifies this
      ensures Chained()
      ensures r.Done? <==> IsAllocated(old(View()), ipPoolId, address)
      ensures r.Done? ==> View() == Release(old(View()), ipPoolId, address)
      ensures r.Done? ==> Wrote(key, old(View()), old(log), old(failures))
      ensures !r.Done? ==> r == Failed(NotFound) && Idle(old(View()), old(log)) && failures == old(failures)
    {
      hide ChainedAt;
      if ipPoolId !in ipPools || address !in ipPools[ipPoolId].allocations {
        return Failed(NotFound);
      }
      var pool := ipPools[ipPoolId];
      ipPools := ipPools[ipPoolId := pool.(allocations := pool.allocations - {address})];
      Record(key, old(View()), old(log));
      r := Done;
    }
  }
}
