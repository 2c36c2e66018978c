/** The shared load balancer service: a read-modify-write of its server list under one lock. */
module LbServices {
  import opened Results
  import opened Tags
  import opened Resources
  import opened BrokerState
  import opened Ownership
  import opened Attachment
  import opened Broker
  import opened Access

  lemma ServiceIdsUnique(cfg: Config, st: Store)
    requires Base(cfg, st)
    ensures UniqueIds(st.services)
  {
  }

  lemma BaseIds(cfg: Config, st: Store)
    requires Base(cfg, st)
    ensures IdsOk(st)
  {
  }

  class LoadBalancerService {
    const access: NsxtAccess
    var lbServiceID: string
    const managed: bool

    /** What the other runs leave in `lbServiceID` when this run gets the lock. */
    const othersId: (nat, Store, string) -> string

    constructor (access: NsxtAccess, lbServiceID: string, othersId: (nat, Store, string) -> string)
      ensures this.access == access && this.lbServiceID == lbServiceID && this.othersId == othersId
      ensures managed == (lbServiceID == "")
    {
      this.access, this.lbServiceID, this.othersId := access, lbServiceID, othersId;
      this.managed := lbServiceID == "";
    }

    /** The other runs keep what this run keeps of the remembered id. */
    ghost predicate OthersIdOk()
    {
      forall n, st: Store, id :: CachedOk(access.cfg, st.services, st.nextId, id) ==>
                                   CachedOk(access.cfg, st.services, st.nextId, othersId(n, st, id))
    }

    /** Nobody else writes to the broker or changes the remembered id. */
    ghost predicate Undisturbed()
    {
      access.broker.Alone() && forall n, st: Store, id :: othersId(n, st, id) == id
    }

    lemma UndisturbedAlone()
      ensures Undisturbed() ==> access.broker.Alone()
    {
    }

    /** The standing assumptions of a run, and the invariants of all writes so far. */
    ghost predicate Ready(key: string)
      reads this, access.broker
    {
      && access.Ready(key) && OwnOk(access.cfg, key, access.broker.View())
      && AllOk(access.cfg, access.broker.log)
      && managed == access.cfg.managed && OthersIdOk()
      && CachedOk(access.cfg, access.broker.View().services, access.broker.View().nextId, lbServiceID)
    }

    /** What attaching and detaching leave alone. */
    ghost predicate OnlyServices(key: string, before: Store)
      reads access.broker
    {
      var st := access.broker.View();
      && SameOwn(access.cfg, key, before, st)
      && (access.broker.Alone() ==>
           st.servers == before.servers && st.pools == before.pools && st.monitors == before.monitors &&
           st.ipPools == before.ipPools)
      && access.broker.OthersAside(access.cfg, key, before)
    }

    /** Taking the lock: afterwards the services stay as they are until this run changes them. */
    method Lock(key: string)
      requires Ready(key)
      modifies this`lbServiceID, access.broker
      ensures old(access.broker.Down()) ==> access.broker.Down()
      ensures Ready(key) && OnlyServices(key, old(access.broker.View()))
      ensures forall id :: HasId(Servers(access.cfg, key, old(access.broker.View())), id) ==>
                (id in AllIds(access.broker.View().services) <==> id in AllIds(old(access.broker.View()).services))
      ensures access.broker.Alone() ==> access.broker.View() == old(access.broker.View())
      ensures Undisturbed() ==> lbServiceID == old(lbServiceID)
      ensures access.broker.log == old(access.broker.log)
      ensures access.broker.failures == old(access.broker.failures)
    {
      hide InMemoryBroker.AsideBetween, NoNewForeign, Guarantee, OtherRuns;
      hide Base, OwnOk, Rely, AllOk, CachedOk, InMemoryBroker.Alone;
      var broker, cfg := access.broker, access.cfg;
      ghost var st0 := broker.View();
      broker.Interleave(cfg, Some(key), false);
      AfterTurn(cfg, key, false, st0, broker.View());
      CachedStays(cfg, st0, broker.View(), lbServiceID);
      BaseIds(cfg, broker.View());
      broker.CallAside(cfg, key, false, st0, broker.View(), broker.log);
      lbServiceID := othersId(broker.calls, broker.View(), lbServiceID);
    }

    /** The service to attach to, under the lock: found, or created if this is the controller's job. */
    method FindOrCreate(key: string) returns (r: Result<LbService>)
      requires Ready(key)
      modifies this`lbServiceID, access.broker
      ensures old(access.broker.Down()) ==> r.Err? && access.broker.Down()
      ensures Ready(key) && OnlyServices(key, old(access.broker.View()))
      ensures AllIds(access.broker.View().services) == AllIds(old(access.broker.View()).services)
      ensures r.Ok? ==>
                && r.value in access.broker.View().services
                && (Covered(access.cfg) ==> Discoverable(access.cfg, r.value))
      ensures r.Ok? && access.broker.Alone() ==>
                var services := old(access.broker.View()).services;
                || (access.broker.View().services == services && lbServiceID == old(lbServiceID) &&
                    ServiceFor(access.cfg, services, lbServiceID) == Ok(Some(r.value)))
                || (&& managed && old(lbServiceID) == "" && FirstService(access.cfg, services, None).None?
                    && access.broker.View().services == services + [r.value] && lbServiceID == r.value.id
                    && r.value.spec == LbServiceSpec([], Some(access.cfg.routerId))
                    && CheckTags(r.value.tags, ClusterQuery(access.cfg)))
      ensures r.Err? ==> access.broker.failures > old(access.broker.failures) || Blocking(r.error)
      ensures r.Err? && access.broker.Alone() ==>
                access.broker.View().services == old(access.broker.View()).services && lbServiceID == old(lbServiceID)
      ensures access.broker.failures == old(access.broker.failures) ==>
                (r.Ok? <==> CanAttach(access.cfg, old(access.broker.View()).services, old(lbServiceID)))
      ensures Extends(key, old(access.broker.log), access.broker.log)
      ensures access.broker.failures >= old(access.broker.failures)
    {
      hide InMemoryBroker.AsideBetween, NoNewForeign, Guarantee, OtherRuns;
      hide Base, OwnOk, Rely, AllOk, OthersIdOk, InMemoryBroker.EnvOk, InMemoryBroker.Alone, CheckTags, CachedOk, Ready,
        NoNewForeign, SameOthers, Servers, Pools, Monitors;
      ghost var st0 := access.broker.View();
      PresentServices(key);
      var found := Lookup(key);
      ghost var st1 := access.broker.View();
      if found.Err? {
        return Err(found.error);
      }
      if found.value.Some? {
        return Ok(found.value.value);
      }
      if !managed {
        return Err(NoLoadBalancerService);
      }
      r := NewService(key);
      OnlySince(key, st0, st1);
    }

    /** The lookup by the remembered id, or of the first service of ours. */
    method Lookup(key: string) returns (r: Result<Option<LbService>>)
      requires Ready(key)
      modifies access.broker
      ensures old(access.broker.Down()) ==> r.Err? && access.broker.Down()
      ensures Ready(key) && OnlyServices(key, old(access.broker.View()))
      ensures access.broker.View().services == old(access.broker.View()).services
      ensures access.broker.log == old(access.broker.log)
      ensures if access.broker.failures == old(access.broker.failures)
              then r == ServiceFor(access.cfg, access.broker.View().services, lbServiceID)
              else r == Err(Fault) && access.broker.failures > old(access.broker.failures)
      ensures r.Err? ==> access.broker.failures > old(access.broker.failures) || Blocking(r.error)
      ensures r.Ok? && r.value.Some? ==>
                && r.value.value in access.broker.View().services
                && (Covered(access.cfg) ==> Discoverable(access.cfg, r.value.value))
    {
      hide Base, OwnOk, Rely, AllOk, OthersIdOk, InMemoryBroker.EnvOk, InMemoryBroker.Alone, CheckTags, CachedOk,
        InMemoryBroker.AsideBetween, NoNewForeign, SameOthers, Servers, Pools, Monitors, Discoverable, FirstService;
      var broker, cfg := access.broker, access.cfg;
      ghost var st0 := broker.View();
      ghost var at;
      r, at := access.FindLoadBalancerService(key, lbServiceID);
      AfterTurn(cfg, key, true, st0, at);
      BaseIds(cfg, at);
      broker.CallAside(cfg, key, true, st0, at, broker.log);
      CachedStays(cfg, st0, at, lbServiceID);
      if r.Ok? && r.value.Some? {
        FoundCovered(lbServiceID, at, r.value.value);
      }
    }

    /** Creates the service, and remembers its id. */
    method NewService(key: string) returns (r: Result<LbService>)
      requires Ready(key)
      modifies this`lbServiceID, access.broker
      ensures Ready(key) && OnlyServices(key, old(access.broker.View()))
      ensures AllIds(access.broker.View().services) == AllIds(old(access.broker.View()).services)
      ensures r.Ok? ==>
                && r.value in access.broker.View().services && lbServiceID == r.value.id
                && r.value.spec == LbServiceSpec([], Some(access.cfg.routerId))
                && CheckTags(r.value.tags, ClusterQuery(access.cfg))
                && access.broker.View().services == old(access.broker.View()).services + [r.value]
      ensures r.Err? ==> access.broker.failures > old(access.broker.failures) && lbServiceID == old(lbServiceID)
      ensures r.Err? ==> access.broker.View().services == old(access.broker.View()).services
      ensures Extends(key, old(access.broker.log), access.broker.log)
      ensures access.broker.failures >= old(access.broker.failures)
    {
      hide NoNewForeign, SameOthers, Servers, Pools, Monitors, OtherRuns;
      hide Base, OwnOk, Rely, EventOk, AllOk, OthersIdOk, InMemoryBroker.EnvOk, InMemoryBroker.Alone, CheckTags, CachedOk,
        InMemoryBroker.AsideBetween, Guarantee;
      var broker, cfg := access.broker, access.cfg;
      ghost var st0, log0 := broker.View(), broker.log;
      var created, at := access.CreateLoadBalancerService(key);
      AfterTurn(cfg, key, true, st0, at);
      BaseIds(cfg, at);
      CachedStays(cfg, st0, at, lbServiceID);
      if created.Ok? {
        CreateServiceOk(cfg, key, at, created.value.tags, Some(cfg.routerId));
        AfterWrite(cfg, log0, Event(key, at, broker.View()));
        CreatedCachedOk(cfg, at, created.value.tags, created.value.spec);
        lbServiceID := created.value.id;
      }
      SameOwnLists(cfg, key, at, broker.View());
      broker.CallAside(cfg, key, true, st0, at, log0);
      r := created;
    }

    lemma FoundCovered(id: string, st: Store, svc: LbService)
      requires ServiceFor(access.cfg, st.services, id) == Ok(Some(svc)) && CachedOk(access.cfg, st.services, st.nextId, id)
      ensures svc in st.services && (Covered(access.cfg) ==> Discoverable(access.cfg, svc))
    {
    }

    /** What was left alone before and since. */
    lemma OnlySince(key: string, before: Store, mid: Store)
      requires SameOwn(access.cfg, key, before, mid)
      requires access.broker.Alone() ==>
                 && mid.servers == before.servers && mid.pools == before.pools && mid.monitors == before.monitors
                 && mid.ipPools == before.ipPools
      requires access.broker.AsideBetween(access.cfg, key, before, mid) && OnlyServices(key, mid)
      ensures OnlyServices(key, before)
    {
      hide Servers, Pools, Monitors, InMemoryBroker.AsideBetween;
      access.broker.AsideSince(access.cfg, key, before, mid, access.broker.View());
    }

    lemma AttachedAfter(services: seq<LbService>, mid: seq<LbService>, svc: LbService, id: string)
      requires UniqueIds(mid) && managed == access.cfg.managed
      requires || (mid == services && ServiceFor(access.cfg, services, lbServiceID) == Ok(Some(svc)))
               || (&& managed && FirstService(access.cfg, services, None).None?
                   && mid == services + [svc] && lbServiceID == svc.id
                   && svc.spec == LbServiceSpec([], Some(access.cfg.routerId)) && CheckTags(svc.tags, ClusterQuery(access.cfg)))
      ensures IsAttached(access.cfg, services, lbServiceID, WithServer(mid, svc, id), id)
    {
      hide CheckTags, ServiceFor, FirstService;
      if mid == services + [svc] {
        var x := WithIds(svc, svc.spec.virtualServerIds + [id]);
        assert mid[|services|] == svc && StopsAt(mid, svc.id, |services|);
        ReplaceAt(mid, x, |services|);
        assert [] + [id] == [id];
      }
    }

    /** What an attach may leave beside its server: in managed mode, and if no id was remembered, that of a new service;
        which has no servers, if the attach failed. */
    ghost predicate Remembers(services: seq<LbService>, id: string, services': seq<LbService>, done: bool)
      reads this`lbServiceID
    {
      || (lbServiceID == id && (done || services' == services))
      || (managed && id == "" &&
           (done || exists svc :: services' == services + [svc] && svc.id == lbServiceID && svc.spec.virtualServerIds == []))
    }

    lemma RemembersSame(services: seq<LbService>)
      ensures Remembers(services, lbServiceID, services, false)
    {
    }

    lemma RemembersAfter(services: seq<LbService>, id: string, mid: seq<LbService>, svc: LbService, now: seq<LbService>)
      requires || (mid == services && lbServiceID == id)
               || (managed && id == "" && mid == services + [svc] && svc.id == lbServiceID && svc.spec.virtualServerIds == [])
      ensures Remembers(services, id, mid, false) && Remembers(services, id, now, true)
    {
    }

    /** Attaches a server. */
    method AddVirtualServer(key: string, serverId: string) returns (r: Outcome)
      requires Ready(key) && HasId(Servers(access.cfg, key, access.broker.View()), serverId)
      requires Covered(access.cfg) ==> serverId !in AllIds(access.broker.View().services)
      modifies this`lbServiceID, access.broker
      ensures old(access.broker.Down()) ==> !r.Done? && access.broker.Down()
      ensures Ready(key) && OnlyServices(key, old(access.broker.View()))
      ensures r.Done? ==> serverId in AllIds(access.broker.View().services)
      ensures Covered(access.cfg) && !r.Done? ==> serverId !in AllIds(access.broker.View().services)
      ensures !r.Done? ==> access.broker.failures > old(access.broker.failures) || Blocking(r.error)
      ensures r.Done? && access.broker.Alone() ==>
                IsAttached(access.cfg, old(access.broker.View()).services, lbServiceID, access.broker.View().services, serverId)
      ensures r.Done? && access.broker.Alone() ==>
                CanAttach(access.cfg, access.broker.View().services, lbServiceID)
      ensures Undisturbed() && access.broker.failures == old(access.broker.failures) ==>
                (r.Done? <==> CanAttach(access.cfg, old(access.broker.View()).services, old(lbServiceID)))
      ensures Undisturbed() ==>
                Remembers(old(access.broker.View()).services, old(lbServiceID), access.broker.View().services, r.Done?)
      ensures access.broker.Alone() ==>
                forall id :: id in AllIds(access.broker.View().services) <==>
                               id in AllIds(old(access.broker.View()).services) || (r.Done? && id == serverId)
      ensures Extends(key, old(access.broker.log), access.broker.log)
      ensures access.broker.failures >= old(access.broker.failures)
    {
      hide InMemoryBroker.AsideBetween, NoNewForeign, Guarantee, OtherRuns;
      hide Base, OwnOk, Rely, AllOk, OthersIdOk, InMemoryBroker.EnvOk, InMemoryBroker.Alone, CheckTags,
        Discoverable, CachedOk, WithServer, IsAttached, ServiceFor, FirstService, CanAttach, Ready, SameOthers, Servers, Pools,
        Monitors, Remembers, Undisturbed;
      UndisturbedAlone();
      var broker := access.broker;
      ghost var st0 := broker.View();
      PresentServices(key);
      Lock(key);
      ghost var st1 := broker.View();
      OwnById(key, st0, st1, serverId);
      var found := FindOrCreate(key);
      ghost var st2 := broker.View();
      PresentServices(key);
      OnlySince(key, st0, st1);
      if found.Err? {
        if Undisturbed() {
          RemembersSame(st0.services);
        }
        return Failed(found.error);
      }
      OwnById(key, st1, st2, serverId);
      r := Append(key, found.value, serverId);
      OnlySince(key, st0, st2);
      if Undisturbed() {
        RemembersAfter(st0.services, old(lbServiceID), st2.services, found.value, broker.View().services);
      }
      if r.Done? && broker.Alone() {
        AttachedAfter(st0.services, st2.services, found.value, serverId);
        PresentServices(key);
        AttachableAgain(access.cfg, st0.services, lbServiceID, broker.View().services, serverId);
      }
    }

    lemma PresentServices(key: string)
      requires Ready(key)
      ensures UniqueIds(access.broker.View().services)
      ensures managed == access.cfg.managed
    {
      hide Base, OwnOk, AllOk;
      ServiceIdsUnique(access.cfg, access.broker.View());
    }

    lemma OwnById(key: string, before: Store, now: Store, id: string)
      requires SameOwn(access.cfg, key, before, now) && HasId(Servers(access.cfg, key, before), id)
      ensures HasId(Servers(access.cfg, key, now), id)
    {
    }

    /** Writes the service back with the server at the end of its list. */
    method Append(key: string, service: LbService, serverId: string) returns (r: Outcome)
      requires Ready(key) && service in access.broker.View().services
      requires HasId(Servers(access.cfg, key, access.broker.View()), serverId)
      requires Covered(access.cfg) ==> Discoverable(access.cfg, service) && serverId !in AllIds(access.broker.View().services)
      modifies access.broker
      ensures Ready(key) && OnlyServices(key, old(access.broker.View()))
      ensures r.Done? ==> serverId in AllIds(access.broker.View().services)
      ensures Covered(access.cfg) && !r.Done? ==> serverId !in AllIds(access.broker.View().services)
      ensures !r.Done? ==> access.broker.failures > old(access.broker.failures)
      ensures access.broker.Alone() ==>
                && access.broker.View().services ==
                     (if r.Done? then WithServer(old(access.broker.View()).services, service, serverId)
                      else old(access.broker.View()).services)
                && forall id :: id in AllIds(access.broker.View().services) <==>
                                  id in AllIds(old(access.broker.View()).services) || (r.Done? && id == serverId)
      ensures Extends(key, old(access.broker.log), access.broker.log)
      ensures access.broker.failures >= old(access.broker.failures)
    {
      hide NoNewForeign, SameOthers, Servers, Pools, Monitors, OtherRuns;
      hide Base, OwnOk, Rely, EventOk, AllOk, OthersIdOk, InMemoryBroker.EnvOk, InMemoryBroker.Alone, CheckTags,
        Discoverable, CachedOk, Replace, Guarantee, InMemoryBroker.AsideBetween;
      var broker, cfg := access.broker, access.cfg;
      ghost var st0, log0 := broker.View(), broker.log;
      var updated, at := access.UpdateLoadBalancerService(key, WithIds(service, service.spec.virtualServerIds + [serverId]));
      AfterTurn(cfg, key, true, st0, at);
      BaseIds(cfg, at);
      CachedStays(cfg, st0, at, lbServiceID);
      AttachOk(cfg, key, at, service, serverId);
      if updated.Done? {
        AfterWrite(cfg, log0, Event(key, at, broker.View()));
        CachedStays(cfg, at, broker.View(), lbServiceID);
      }
      SameOwnLists(cfg, key, at, broker.View());
      broker.CallAside(cfg, key, true, st0, at, log0);
      r := updated;
    }

    /** The loop that splices a server id out of the list. */
    method Splice(ids: seq<string>, id: string) returns (r: seq<string>)
      ensures r == Without(ids, id)
    {
      for i := 0 to |ids|
        invariant id !in ids[..i]
      {
        if ids[i] == id {
          WithoutAt(ids, id, i);
          return ids[..i] + ids[i + 1..];
        }
      }
      assert ids[..|ids|] == ids;
      r := ids;
    }

    /** Detaches a server; in managed mode a service without servers is deleted. */
    method RemoveVirtualServer(key: string, server: VirtualServer) returns (r: Outcome)
      requires Ready(key) && server in Servers(access.cfg, key, access.broker.View())
      modifies this`lbServiceID, access.broker
      ensures Ready(key) && OnlyServices(key, old(access.broker.View()))
      ensures Covered(access.cfg) && r.Done? ==> server.id !in AllIds(access.broker.View().services)
      ensures access.broker.Alone() && Covered(access.cfg) ==>
                forall id :: id in AllIds(access.broker.View().services) <==>
                               id in AllIds(old(access.broker.View()).services) && !(r.Done? && id == server.id)
      ensures access.broker.Alone() ==>
                access.broker.View().services ==
                  if r.Done? then Detached(access.cfg, old(access.broker.View()).services, server.id)
                  else old(access.broker.View()).services
      ensures !r.Done? ==> access.broker.failures > old(access.broker.failures)
      ensures Undisturbed() ==> lbServiceID == old(lbServiceID)
      ensures Extends(key, old(access.broker.log), access.broker.log)
      ensures access.broker.failures >= old(access.broker.failures)
    {
      hide InMemoryBroker.AsideBetween, NoNewForeign, Guarantee, OtherRuns;
      hide Base, OwnOk, Rely, AllOk, OthersIdOk, InMemoryBroker.EnvOk, InMemoryBroker.Alone, CheckTags, Discoverable;
      hide CachedOk, WithoutServer, SameOthers, Undisturbed;
      var broker, cfg := access.broker, access.cfg;
      ghost var st0 := broker.View();
      Lock(key);
      ghost var locked := broker.View();
      var found, at := access.FindService(key, Some(server.id));
      AfterTurn(cfg, key, true, locked, at);
      BaseIds(cfg, at);
      CachedStays(cfg, locked, at, lbServiceID);
      broker.CallAside(cfg, key, true, locked, at, broker.log);
      OnlySince(key, st0, locked);
      assert server in at.servers;
      QueryTags(cfg, key, server.tags);
      if found.Err? {
        return Failed(found.error);
      }
      if found.value.None? {
        if Covered(cfg) {
          NothingToDetach(cfg, at, server);
        }
        return Done;
      }
      r := WriteBack(key, found.value.value, server.id);
      OnlySince(key, st0, at);
    }

    /** Takes the server out of the service that was found, and the service with it if it was the last one. */
    method WriteBack(key: string, service: LbService, serverId: string) returns (r: Outcome)
      requires Ready(key) && service in access.broker.View().services && serverId in service.spec.virtualServerIds
      requires HasId(Servers(access.cfg, key, access.broker.View()), serverId)
      modifies access.broker
      ensures Ready(key) && OnlyServices(key, old(access.broker.View()))
      ensures Covered(access.cfg) && r.Done? ==> serverId !in AllIds(access.broker.View().services)
      ensures access.broker.Alone() && Covered(access.cfg) ==>
                forall id :: id in AllIds(access.broker.View().services) <==>
                               id in AllIds(old(access.broker.View()).services) && !(r.Done? && id == serverId)
      ensures access.broker.Alone() ==>
                access.broker.View().services ==
                  if r.Done? then WithoutServer(access.cfg, old(access.broker.View()).services, service, serverId)
                  else old(access.broker.View()).services
      ensures !r.Done? ==> access.broker.failures > old(access.broker.failures)
      ensures Extends(key, old(access.broker.log), access.broker.log)
      ensures access.broker.failures >= old(access.broker.failures)
    {
      hide NoNewForeign, SameOthers, Servers, Pools, Monitors, OtherRuns;
      hide Base, OwnOk, Rely, EventOk, AllOk, OthersIdOk, InMemoryBroker.EnvOk, InMemoryBroker.Alone, CheckTags, Discoverable;
      hide CachedOk, Replace, Remove, Guarantee, InMemoryBroker.AsideBetween;
      var broker, cfg := access.broker, access.cfg;
      ghost var st0, log0 := broker.View(), broker.log;
      ghost var at: Store;
      var ids := Splice(service.spec.virtualServerIds, serverId);
      if managed && |ids| == 0 {
        r, at := access.DeleteLoadBalancerService(key, service.id);
        AfterTurn(cfg, key, true, st0, at);
        DeleteServiceOk(cfg, key, at, service, serverId);
      } else {
        r, at := access.UpdateLoadBalancerService(key, WithIds(service, ids));
        AfterTurn(cfg, key, true, st0, at);
        DetachOk(cfg, key, at, service, serverId);
      }
      BaseIds(cfg, at);
      CachedStays(cfg, st0, at, lbServiceID);
      if r.Done? {
        AfterWrite(cfg, log0, Event(key, at, broker.View()));
        CachedStays(cfg, at, broker.View(), lbServiceID);
      }
      SameOwnLists(cfg, key, at, broker.View());
      broker.CallAside(cfg, key, true, st0, at, log0);
    }
  }
}
