/** Any sequence of runs for any number of services, one after the other. */
module Workload {
  import opened Results
  import opened Tags
  import opened Names
  import opened Members
  import opened Resources
  import opened BrokerState
  import opened Ownership
  import opened Attachment
  import opened Broker
  import opened Access
  import opened LbServices
  import opened Addressing
  import opened Desired
  import opened Observed
  import opened Reconciler
  import opened Provider

  /** What Kubernetes asks of the controller. */
  datatype Request =
    | Ensure(name: ObjectName, ports: seq<ServicePort>, className: Option<string>, nodes: seq<Node>)
    | Update(name: ObjectName, ports: seq<ServicePort>, className: Option<string>, nodes: seq<Node>)
    | Delete(name: ObjectName, ports: seq<ServicePort>, className: Option<string>)

  /** The addresses that Kubernetes remembers in the status of its services. */
  type Statuses = map<string, string>

  function StatusOf(statuses: Statuses, key: string): string
  {
    if key in statuses then statuses[key] else ""
  }

  function ServiceOf(request: Request, statuses: Statuses): KubeService
  {
    KubeService(request.name, request.ports, StatusOf(statuses, Print(request.name)), request.className)
  }

  /** Every service has its objects in order. */
  ghost predicate AllOwnOk(cfg: Config, st: Store)
  {
    forall key :: OwnOk(cfg, key, st)
  }

  /** No status names an address without servers behind it. */
  ghost predicate AllHonest(cfg: Config, st: Store, statuses: Statuses)
  {
    forall key :: Servers(cfg, key, st) == [] ==> StatusOf(statuses, key) == ""
  }

  /** The controller is on its own, and everything it did so far was in order. */
  ghost predicate InOrder(p: LbProvider)
    reads p.lb, p.lb.access.broker
  {
    var broker := p.lb.access.broker;
    && p.lb.Undisturbed() && broker.monitorType == TCP_MONITOR_TYPE && broker.Chained()
    && Base(p.Cfg(), p.Now()) && AllOwnOk(p.Cfg(), p.Now()) && AllOk(p.Cfg(), broker.log)
    && p.lb.managed == p.Cfg().managed && CachedOk(p.Cfg(), p.Now().services, p.Now().nextId, p.lb.lbServiceID)
  }

  lemma ReadyForAny(p: LbProvider, key: string)
    requires InOrder(p)
    ensures p.Ready(key)
  {
    hide Base, OwnOk, AllOk, CachedOk, Rely;
    forall n, locked, st ensures Rely(p.Cfg(), key, locked, st, p.lb.access.broker.others(n, locked, Some(key), st)) {
      RelyReflexive(p.Cfg(), key, locked, st);
    }
  }

  /** A run for one service leaves the objects of all others in order. */
  lemma OthersStayOk(cfg: Config, key: string, st: Store, st': Store)
    requires SameOthers(cfg, key, st, st') && OwnOk(cfg, key, st') && AllOwnOk(cfg, st)
    ensures AllOwnOk(cfg, st')
    ensures forall other :: other != key ==> SameOwn(cfg, other, st, st')
  {
    hide OwnOk, Servers, Pools, Monitors;
    forall other | other != key
      ensures OwnOk(cfg, other, st') && SameOwn(cfg, other, st, st')
    {
      OthersSame(cfg, key, other, st, st');
    }
  }

  lemma OthersSame(cfg: Config, key: string, other: string, st: Store, st': Store)
    requires SameOthers(cfg, key, st, st') && other != key
    ensures SameOwn(cfg, other, st, st') && OwnOk(cfg, other, st') == OwnOk(cfg, other, st)
  {
    OthersUntouched(cfg, key, other, st.servers, st'.servers);
    OthersUntouched(cfg, key, other, st.pools, st'.pools);
    OthersUntouched(cfg, key, other, st.monitors, st'.monitors);
  }

  /** After a run for one service everything is in order again, and the objects of all others are the same. */
  lemma InOrderAgain(p: LbProvider, key: string, before: Store)
    requires p.Ready(key) && p.lb.Undisturbed() && AllOwnOk(p.Cfg(), before)
    requires p.lb.access.broker.OthersAside(p.Cfg(), key, before)
    ensures InOrder(p)
    ensures forall other :: other != key ==> SameOwn(p.Cfg(), other, before, p.Now())
  {
    hide Base, OwnOk, AllOk, CachedOk, Rely, SameOthers, SameOwn, AllOwnOk, InMemoryBroker.EnvOk, InMemoryBroker.Alone,
      InMemoryBroker.ChainedAt;
    OthersStayOk(p.Cfg(), key, before, p.Now());
  }

  /** What a served request has achieved at the broker. */
  ghost predicate Fulfilled(cfg: Config, st: Store, request: Request, statuses: Statuses)
  {
    var name, status := request.name, StatusOf(statuses, Print(request.name));
    match request
    case Ensure(_, ports, _, nodes) =>
      && (DistinctPorts(ports) ==> ServiceServed(cfg, name, ports, nodes, st))
      && (if ports == [] then NothingLeft(cfg, name, st) && status == ""
          else HasServers(cfg, name, st) && ServersAt(cfg, name, st, status) && status != "")
    case Update(_, ports, _, nodes) =>
      PoolsFollow(cfg, name, ports, nodes, st)
    case Delete(_, _, _) =>
      NothingLeft(cfg, name, st) && status == ""
  }

  /** Where things stand between two requests: the broker's objects, the remembered service id, the statuses, the calls
      that failed so far, and the addresses that are kept allocated for services without servers. */
  datatype Moment = Moment(st: Store, cached: string, statuses: Statuses, failures: nat, held: map<string, Lease>)

  ghost function Present(p: LbProvider, statuses: Statuses, held: map<string, Lease>): Moment
    reads p.lb, p.lb.access.broker
  {
    Moment(p.Now(), p.lb.lbServiceID, statuses, p.lb.access.broker.failures, held)
  }

  /** When a request is served, if no call fails. */
  ghost predicate CanServe(p: LbProvider, request: Request, m: Moment)
  {
    var service := ServiceOf(request, m.statuses);
    match request
    case Ensure(_, _, _, _) =>
      p.Configured(service) &&
      ServableAt(p.Cfg(), KeyOf(service), service, p.classes[ClassName(service.className)].ipPoolId, m.st, m.cached)
    case Update(_, _, _, _) => true
    case Delete(_, _, _) => p.Configured(service)
  }

  /** A request to set up a service is served exactly if its class is known, and there is a server for every port; or an
      address, from its servers or the status or the pool of the class, and a load balancer service to attach to. */
  lemma CanServeExact(p: LbProvider, request: Request, m: Moment)
    requires request.Ensure?
    ensures CanServe(p, request, m) <==>
            && ClassName(request.className) in p.classes
            && var poolId := p.classes[ClassName(request.className)].ipPoolId;
               || (forall i :: 0 <= i < |request.ports| ==> HasListener(p.Cfg(), request.name, request.ports[i], m.st))
               || (&& (|| HasServers(p.Cfg(), request.name, m.st)
                       || StatusOf(m.statuses, Print(request.name)) != ""
                       || (poolId in m.st.ipPools && |m.st.ipPools[poolId].allocations| != m.st.ipPools[poolId].size))
                   && CanAttach(p.Cfg(), m.st.services, m.cached))
  {
    hide ClassName, HasListener, Servers, CanAttach, HasServers, AllServed;
    ServersExact(p.Cfg(), request.name, m.st, "");
    AllServedExact(p.Cfg(), request.name, request.ports, m.st);
  }

  /** What a request has achieved does not depend on other services. */
  lemma StaysFulfilled(cfg: Config, st: Store, st': Store, request: Request, statuses: Statuses, statuses': Statuses)
    requires SameOwn(cfg, Print(request.name), st, st')
    requires StatusOf(statuses', Print(request.name)) == StatusOf(statuses, Print(request.name))
    ensures Fulfilled(cfg, st', request, statuses') == Fulfilled(cfg, st, request, statuses)
  {
    hide Servers, Pools, Monitors, Converged, HasSomePort, NodeAddresses, Addresses, ServiceServed, NothingLeft, PoolsFollow,
      HasServers, ServersAt, DistinctPorts;
    var name := request.name;
    if !request.Delete? {
      var nodes := request.nodes;
      ConvergedMeans(cfg, name, request.ports, nodes, st);
      ConvergedMeans(cfg, name, request.ports, nodes, st');
      PoolsFollowExact(cfg, name, request.ports, nodes, st);
      PoolsFollowExact(cfg, name, request.ports, nodes, st');
    }
    NothingLeftExact(cfg, name, st);
    NothingLeftExact(cfg, name, st');
    ServersExact(cfg, name, st, StatusOf(statuses, Print(name)));
    ServersExact(cfg, name, st', StatusOf(statuses, Print(name)));
  }

  // ---------------------------------------------------------------- the ledger of all services

  /** The allocated addresses are those of servers, and those that the status of a service without servers still names. */
  ghost predicate Accounted(p: LbProvider, m: Moment)
  {
    Ledger(p.Cfg(), m.st, m.held) && forall key :: key in m.held ==> Named(m, key)
  }

  ghost predicate Named(m: Moment, key: string)
    requires key in m.held
  {
    StatusOf(m.statuses, key) != "" && m.held[key].address == StatusOf(m.statuses, key)
  }

  /** The status of the service names the address held for it, in the pool of the requested class, or one that is nobody's. */
  ghost predicate StatusFits(p: LbProvider, service: KubeService, m: Moment)
  {
    var key := KeyOf(service);
    Servers(p.Cfg(), key, m.st) == [] ==>
      if service.statusIp == "" then key !in m.held
      else p.Configured(service) ==>
             if key in m.held then m.held[key] == p.StatusLease(service)
             else Unclaimed(p.Cfg(), m.st, m.held, p.StatusLease(service))
  }

  ghost predicate Fits(p: LbProvider, request: Request, m: Moment)
  {
    request.Update? || StatusFits(p, ServiceOf(request, m.statuses), m)
  }

  /** The servers of the service have their address allocated, and what is held without servers its status names. */
  ghost predicate Kept(p: LbProvider, key: string, m: Moment)
  {
    ServersLeased(p.Cfg(), key, m.st) && (key in m.held ==> Named(m, key))
  }

  /** When a run keeps that, whatever fails: with ports, if it finds servers or an address held for the service; without,
      if it finds no server. If no call fails, then also without either, unless the status names an address that is not
      held, which the new servers then share with the pool. */
  ghost predicate Safe(p: LbProvider, service: KubeService, m: Moment, calm: bool)
  {
    var key := KeyOf(service);
    var own := Servers(p.Cfg(), key, m.st);
    || !p.Configured(service)
    || if service.ports == [] then calm || own == []
       else own != [] || key in m.held || (calm && service.statusIp == "")
  }

  ghost predicate SafeRequest(p: LbProvider, request: Request, m: Moment, calm: bool)
  {
    match request
    case Ensure(_, _, _, _) => Safe(p, ServiceOf(request, m.statuses), m, calm)
    case Update(_, _, _, _) => true
    case Delete(_, _, _) => Safe(p, ServiceOf(request, m.statuses).(ports := []), m, calm)
  }

  /** What a run did to objects and status, as far as the ledger is concerned. */
  ghost predicate RunDone(p: LbProvider, service: KubeService, m: Moment, m': Moment, stake: Option<Lease>,
                          lease: Option<Lease>, done: bool)
  {
    var key, calm := KeyOf(service), m'.failures == m.failures;
    && p.Staked(service, m.st, m'.st, stake, calm)
    && (service.ports == [] ==> p.GivesUp(service, m.st, m'.st, stake, lease, done))
    && (done ==> if service.ports == [] then Servers(p.Cfg(), key, m'.st) == [] else Servers(p.Cfg(), key, m'.st) != [])
    && (service.ports == [] && calm && p.Configured(service) ==> done)
    && (!p.Configured(service) ==> m'.st == m.st && !done)
    && (!done ==> m'.statuses == m.statuses)
    && (forall other :: other != key ==> StatusOf(m'.statuses, other) == StatusOf(m.statuses, other))
    && m'.held == HeldSince(p.Cfg(), key, m'.st, m.held, stake)
  }

  /** A run with a fitting status keeps the ledger of all services, whatever failed in it, exactly if its own servers are
      left with an allocated address, or none are, and the status names what is left allocated. */
  lemma RunAccounted(p: LbProvider, service: KubeService, m: Moment, m': Moment, stake: Option<Lease>, lease: Option<Lease>,
                     done: bool)
    requires RunDone(p, service, m, m', stake, lease, done) && service.statusIp == StatusOf(m.statuses, KeyOf(service))
    requires Accounted(p, m) && StatusFits(p, service, m)
    ensures Accounted(p, m') <==> Kept(p, KeyOf(service), m')
  {
    hide Servers, AtStake, Leased, Accounts, InUse, MayChange, ServersLeased, LbProvider.GivesUp;
    var key := KeyOf(service);
    StakeIsRightful(p, service, m, m', stake, lease, done);
    LedgerStep(p.Cfg(), key, m.st, m'.st, m.held, stake);
    forall k | k in m'.held && k != key ensures k in m.held && m'.held[k] == m.held[k] && Named(m', k) {
    }
    forall k | k in m.held && k != key ensures k in m'.held {
    }
  }

  lemma StakeIsRightful(p: LbProvider, service: KubeService, m: Moment, m': Moment, stake: Option<Lease>,
                        lease: Option<Lease>, done: bool)
    requires RunDone(p, service, m, m', stake, lease, done) && Accounted(p, m) && StatusFits(p, service, m)
    ensures MayChange(p.Cfg(), KeyOf(service), m.st, m'.st, stake)
    ensures Rightful(p.Cfg(), KeyOf(service), m.st, m.held, stake)
  {
    hide Servers, AtStake, Leased, InUse, Exclusive, LbProvider.GivesUp, ClassName;
  }

  lemma SafeIsKept(p: LbProvider, service: KubeService, m: Moment, m': Moment, stake: Option<Lease>, lease: Option<Lease>,
                   done: bool)
    requires RunDone(p, service, m, m', stake, lease, done) && service.statusIp == StatusOf(m.statuses, KeyOf(service))
    requires Accounted(p, m) && StatusFits(p, service, m) && Safe(p, service, m, m'.failures == m.failures)
    ensures Kept(p, KeyOf(service), m')
  {
    hide Servers, AtStake, Leased, InUse, Exclusive, ClassName;
    var key := KeyOf(service);
    var own, own' := Servers(p.Cfg(), key, m.st), Servers(p.Cfg(), key, m'.st);
    PresentLeased(p.Cfg(), key, m.st, m.held);
    if p.Configured(service) && stake.Some? {
      StakeLeased(p.Cfg(), key, m.st, m'.st, stake.value);
      if own != [] {
        AddressOfServers(p.Cfg(), key, m.st, m'.st, stake.value, m.held.Values);
      }
      SameLeasedIf(m.st, m'.st);
    }
    if service.ports == [] {
      SomeOfNone(own', own);
    }
  }

  // ---------------------------------------------------------------- sequences of requests

  /** What serving one request means: whether it succeeds and what it then has achieved, that it is nobody else's concern,
      and what becomes of the ledger. */
  ghost predicate Served(p: LbProvider, request: Request, m: Moment, m': Moment, r: Outcome)
  {
    var key := Print(request.name);
    && m.failures <= m'.failures
    && (m'.failures == m.failures ==> (r.Done? <==> CanServe(p, request, m)))
    && (if r.Done? then Fulfilled(p.Cfg(), m'.st, request, m'.statuses) else m'.statuses == m.statuses)
    && (forall other :: other != key ==>
          SameOwn(p.Cfg(), other, m.st, m'.st) && StatusOf(m'.statuses, other) == StatusOf(m.statuses, other))
    && HonestServed(p, m, m') && LedgerServed(p, request, m, m')
  }

  /** As long as no call fails, no status is left without servers behind it, and no address without a server. */
  ghost predicate HonestServed(p: LbProvider, m: Moment, m': Moment)
  {
    m'.failures == m.failures && AllHonest(p.Cfg(), m.st, m.statuses) && Balanced(p.Cfg(), m.st, None) ==>
      AllHonest(p.Cfg(), m'.st, m'.statuses) && Balanced(p.Cfg(), m'.st, None)
  }

  ghost predicate LedgerServed(p: LbProvider, request: Request, m: Moment, m': Moment)
  {
    Accounted(p, m) && Fits(p, request, m) ==>
      && (Accounted(p, m') <==> Kept(p, Print(request.name), m'))
      && (SafeRequest(p, request, m, m'.failures == m.failures) ==> Accounted(p, m'))
  }

  lemma RunServed(p: LbProvider, request: Request, service: KubeService, m: Moment, m': Moment, stake: Option<Lease>,
                  lease: Option<Lease>, done: bool)
    requires RunDone(p, service, m, m', stake, lease, done) && request.name == service.name
    requires if request.Delete? then service == ServiceOf(request, m.statuses).(ports := [])
             else request.Ensure? && service == ServiceOf(request, m.statuses)
    ensures LedgerServed(p, request, m, m')
  {
    hide Servers, RunDone, Accounted, Kept, Safe, ServersLeased, Unclaimed, ClassName;
    if Accounted(p, m) && Fits(p, request, m) {
      RunAccounted(p, service, m, m', stake, lease, done);
      if Safe(p, service, m, m'.failures == m.failures) {
        SafeIsKept(p, service, m, m', stake, lease, done);
      }
    }
  }

  lemma UpdateServed(p: LbProvider, request: Request, m: Moment, m': Moment)
    requires request.Update? && m'.held == m.held && m'.statuses == m.statuses
    requires m'.st.servers == m.st.servers && m'.st.ipPools == m.st.ipPools
    ensures LedgerServed(p, request, m, m')
  {
    hide Uses;
    if Accounted(p, m) {
      assert Accounts(p.Cfg(), m'.st, m'.held.Values);
      PresentLeased(p.Cfg(), Print(request.name), m'.st, m'.held);
    }
  }

  lemma EnsureServable(p: LbProvider, request: Request, service: KubeService, m: Moment)
    requires request.Ensure? && service == ServiceOf(request, m.statuses)
    ensures CanServe(p, request, m) <==>
            p.Configured(service) &&
            ServableAt(p.Cfg(), KeyOf(service), service, p.classes[ClassName(service.className)].ipPoolId, m.st, m.cached)
  {
    hide ServableAt, ClassName;
  }

  lemma HonestStatus(cfg: Config, key: string, st: Store, statuses: Statuses)
    ensures AllHonest(cfg, st, statuses) && Servers(cfg, key, st) == [] ==> StatusOf(statuses, key) == ""
  {
  }

  lemma HonestAgain(cfg: Config, key: string, st: Store, st': Store, statuses: Statuses, statuses': Statuses)
    requires forall other :: other != key ==>
               SameOwn(cfg, other, st, st') && StatusOf(statuses', other) == StatusOf(statuses, other)
    requires (Servers(cfg, key, st) == [] ==> StatusOf(statuses, key) == "") && Servers(cfg, key, st') == [] ==>
               StatusOf(statuses', key) == ""
    ensures AllHonest(cfg, st, statuses) ==> AllHonest(cfg, st', statuses')
  {
    hide Servers, Pools, Monitors;
    if AllHonest(cfg, st, statuses) {
      forall k | Servers(cfg, k, st') == [] ensures StatusOf(statuses', k) == "" {
        assert k != key ==> SameOwn(cfg, k, st, st');
      }
    }
  }

  /** What such a run has reached is what the request was for. */
  lemma EnsureFulfilled(p: LbProvider, request: Request, service: KubeService, status: Option<string>, statuses: Statuses)
    requires request.Ensure? && request.name == service.name && request.ports == service.ports
    requires p.Reached(service, request.nodes, status)
    requires StatusOf(statuses, Print(request.name)) == if status.Some? then status.value else ""
    ensures Fulfilled(p.Cfg(), p.Now(), request, statuses)
  {
    hide ServiceServed, NothingLeft, HasServers, ServersAt, DistinctPorts;
  }

  method ServeEnsure(p: LbProvider, request: Request, statuses: Statuses, ghost held: map<string, Lease>)
    returns (statuses': Statuses, r: Outcome, ghost held': map<string, Lease>)
    requires InOrder(p) && request.Ensure?
    modifies p.lb`lbServiceID, p.lb.access.broker
    ensures InOrder(p)
    ensures Served(p, request, old(Present(p, statuses, held)), Present(p, statuses', held'), r)
  {
    hide InMemoryBroker.EnvOk, InMemoryBroker.AsideBetween, InMemoryBroker.ChainedAt;
    hide NoNewForeign, Guarantee, CachedOk, OtherRuns;
    hide Base, OwnOk, AllOk, Rely, SameOthers, Servers, Pools, Monitors, Balanced, InMemoryBroker.Alone;
    hide ServiceServed, NothingLeft, PoolsFollow, HasServers, ServersAt, ElsewhereSame;
    hide LbProvider.Staked, LbProvider.GivesUp, LbProvider.LedgerExact, ServableAt, LedgerServed, HeldSince, ClassName, AllHonest,
      CanServe, AllAttached, NeededAttached, CarriedOver, Extends, Blocking, Fulfilled, LbProvider.Reached, LbProvider.Settled,
      DistinctPorts;
    var service := ServiceOf(request, statuses);
    ghost var m := Present(p, statuses, held);
    HonestStatus(p.Cfg(), KeyOf(service), m.st, statuses);
    ReadyForAny(p, KeyOf(service));
    var status, outcome, lease, stake := p.EnsureLoadBalancer(service, request.nodes);
    r := outcome;
    statuses' := if r.Done? then statuses[KeyOf(service) := if status.Some? then status.value else ""] else statuses;
    held' := HeldSince(p.Cfg(), KeyOf(service), p.Now(), held, stake);
    if r.Done? {
      EnsureFulfilled(p, request, service, status, statuses');
    }
    EnsureServable(p, request, service, m);
    RunServed(p, request, service, m, Present(p, statuses', held'), stake, lease, r.Done?);
    InOrderAgain(p, KeyOf(service), m.st);
    if p.lb.access.broker.failures == m.failures {
      HonestAgain(p.Cfg(), KeyOf(service), m.st, p.Now(), statuses, statuses');
    }
  }

  method ServeUpdate(p: LbProvider, request: Request, statuses: Statuses, ghost held: map<string, Lease>)
    returns (r: Outcome)
    requires InOrder(p) && request.Update?
    modifies p.lb`lbServiceID, p.lb.access.broker
    ensures InOrder(p)
    ensures Served(p, request, old(Present(p, statuses, held)), Present(p, statuses, held), r)
  {
    hide InMemoryBroker.EnvOk, InMemoryBroker.AsideBetween, InMemoryBroker.ChainedAt;
    hide NoNewForeign, Guarantee, CachedOk, OtherRuns;
    hide Base, OwnOk, AllOk, Rely, SameOthers, Servers, Pools, Monitors, Balanced, InMemoryBroker.Alone;
    hide ServiceServed, NothingLeft, PoolsFollow, HasServers, ServersAt, ElsewhereSame;
    hide LedgerServed, AllHonest;
    var service := ServiceOf(request, statuses);
    ghost var m := Present(p, statuses, held);
    ReadyForAny(p, KeyOf(service));
    r := p.UpdateLoadBalancer(service, request.nodes, request.nodes);
    UpdateServed(p, request, m, Present(p, statuses, held));
    InOrderAgain(p, KeyOf(service), m.st);
    HonestAgain(p.Cfg(), KeyOf(service), m.st, p.Now(), statuses, statuses);
  }

  method ServeDelete(p: LbProvider, request: Request, statuses: Statuses, ghost held: map<string, Lease>)
    returns (statuses': Statuses, r: Outcome, ghost held': map<string, Lease>)
    requires InOrder(p) && request.Delete?
    modifies p.lb`lbServiceID, p.lb.access.broker
    ensures InOrder(p)
    ensures Served(p, request, old(Present(p, statuses, held)), Present(p, statuses', held'), r)
  {
    hide InMemoryBroker.EnvOk, InMemoryBroker.AsideBetween, InMemoryBroker.ChainedAt;
    hide NoNewForeign, Guarantee, CachedOk, OtherRuns;
    hide Base, OwnOk, AllOk, Rely, SameOthers, Servers, Pools, Monitors, Balanced, InMemoryBroker.Alone;
    hide ServiceServed, NothingLeft, PoolsFollow, HasServers, ServersAt, ElsewhereSame;
    hide LbProvider.Staked, LbProvider.GivesUp, LbProvider.LedgerExact, ServableAt, LedgerServed, HeldSince, ClassName, AllHonest;
    var service := ServiceOf(request, statuses);
    ghost var m := Present(p, statuses, held);
    HonestStatus(p.Cfg(), KeyOf(service), m.st, statuses);
    ReadyForAny(p, KeyOf(service));
    var outcome, lease, stake := p.EnsureLoadBalancerDeleted(service);
    r := outcome;
    statuses' := if r.Done? then statuses - {KeyOf(service)} else statuses;
    held' := HeldSince(p.Cfg(), KeyOf(service), p.Now(), held, stake);
    RunServed(p, request, service.(ports := []), m, Present(p, statuses', held'), stake, lease, r.Done?);
    InOrderAgain(p, KeyOf(service), m.st);
    if p.lb.access.broker.failures == m.failures {
      HonestAgain(p.Cfg(), KeyOf(service), m.st, p.Now(), statuses, statuses');
    }
  }

  /** Serves one request and keeps the status that Kubernetes would. */
  method ServeOne(p: LbProvider, request: Request, statuses: Statuses, ghost held: map<string, Lease>)
    returns (statuses': Statuses, r: Outcome, ghost held': map<string, Lease>)
    requires InOrder(p)
    modifies p.lb`lbServiceID, p.lb.access.broker
    ensures InOrder(p)
    ensures Served(p, request, old(Present(p, statuses, held)), Present(p, statuses', held'), r)
  {
    hide Served, InOrder;
    match request {
      case Ensure(_, _, _, _) =>
        statuses', r, held' := ServeEnsure(p, request, statuses, held);
      case Update(_, _, _, _) =>
        statuses', held' := statuses, held;
        r := ServeUpdate(p, request, statuses, held);
      case Delete(_, _, _) =>
        statuses', r, held' := ServeDelete(p, request, statuses, held);
    }
  }

  /** No later request is for the same service. */
  predicate IsLast(requests: seq<Request>, i: nat, n: nat)
    requires i < n <= |requests|
  {
    forall j :: i < j < n ==> Print(requests[j].name) != Print(requests[i].name)
  }

  /** The moments before and after the first `n` requests. */
  ghost predicate Trail(p: LbProvider, requests: seq<Request>, outcomes: seq<Outcome>, trail: seq<Moment>, n: nat)
    requires n <= |requests|
  {
    |outcomes| == n && |trail| == n + 1 &&
    forall i :: 0 <= i < n ==> Served(p, requests[i], trail[i], trail[i + 1], outcomes[i])
  }

  /** Over any sequence of requests each is served as it should be, whatever failed before, and the last one for a service
      that was served has done what it was for. If no broker call fails, the allocated addresses are exactly those of the
      existing servers, no two services sharing one. */
  method Serve(p: LbProvider, requests: seq<Request>, statuses0: Statuses, ghost held0: map<string, Lease>)
    returns (statuses: Statuses, outcomes: seq<Outcome>, ghost trail: seq<Moment>)
    requires InOrder(p)
    modifies p.lb`lbServiceID, p.lb.access.broker
    ensures InOrder(p) && Trail(p, requests, outcomes, trail, |requests|)
    ensures trail[0] == old(Present(p, statuses0, held0))
    ensures trail[|requests|] == Present(p, statuses, trail[|requests|].held)
    ensures forall i :: 0 <= i < |requests| && outcomes[i].Done? &&
                        (forall j :: i < j < |requests| ==> Print(requests[j].name) != Print(requests[i].name)) ==>
              Fulfilled(p.Cfg(), p.Now(), requests[i], statuses)
    ensures (p.lb.access.broker.failures == old(p.lb.access.broker.failures) &&
             old(AllHonest(p.Cfg(), p.Now(), statuses0)) && AllocatedAre(p.Cfg(), old(p.Now()), {})) ==>
              AllocatedAre(p.Cfg(), p.Now(), {}) && AllHonest(p.Cfg(), p.Now(), statuses)
  {
    hide InMemoryBroker.EnvOk, InMemoryBroker.AsideBetween, InMemoryBroker.ChainedAt;
    hide Base, OwnOk, AllOk, Rely, SameOthers, Servers, Pools, Monitors, Balanced, InMemoryBroker.Alone, CachedOk, InOrder;
    hide Fulfilled, AllHonest, SameOwn, CanServe, LedgerServed, AllocatedAre;
    BalancedExact(p.Cfg(), p.Now());
    ghost var failures0 := p.lb.access.broker.failures;
    statuses, outcomes, trail := statuses0, [], [Present(p, statuses0, held0)];
    ghost var held := held0;
    for i := 0 to |requests|
      invariant InOrder(p) && p.lb.access.broker.failures >= failures0
      invariant Trail(p, requests, outcomes, trail, i)
      invariant trail[0] == old(Present(p, statuses0, held0)) && trail[i] == Present(p, statuses, held)
      invariant forall j :: 0 <= j < i && outcomes[j].Done? && IsLast(requests, j, i) ==>
                  Fulfilled(p.Cfg(), p.Now(), requests[j], statuses)
      invariant p.lb.access.broker.failures == failures0 && old(AllHonest(p.Cfg(), p.Now(), statuses0)) &&
                Balanced(p.Cfg(), old(p.Now()), None) ==>
                  Balanced(p.Cfg(), p.Now(), None) && AllHonest(p.Cfg(), p.Now(), statuses)
    {
      ghost var st, before := p.Now(), statuses;
      var r;
      statuses, r, held := ServeOne(p, requests[i], statuses, held);
      outcomes, trail := outcomes + [r], trail + [Present(p, statuses, held)];
      forall j | 0 <= j < i + 1 && outcomes[j].Done? && IsLast(requests, j, i + 1)
        ensures Fulfilled(p.Cfg(), p.Now(), requests[j], statuses)
      {
        if j < i {
          assert IsLast(requests, j, i) && Print(requests[i].name) != Print(requests[j].name);
          StaysFulfilled(p.Cfg(), st, p.Now(), requests[j], before, statuses);
        }
      }
    }
    BalancedExact(p.Cfg(), p.Now());
  }

  /** The ledger of all services holds at the end of a sequence of requests, whatever failed on the way, if every request
      found a fitting status and kept it. Which it did, if it was safe. */
  lemma {:induction false} LedgerHolds(p: LbProvider, requests: seq<Request>, outcomes: seq<Outcome>, trail: seq<Moment>,
                                       n: nat)
    requires n <= |requests| && Trail(p, requests, outcomes, trail, n)
    requires Accounted(p, trail[0]) && forall i :: 0 <= i < n ==> Fits(p, requests[i], trail[i])
    requires forall i :: 0 <= i < n ==>
               || Kept(p, Print(requests[i].name), trail[i + 1])
               || SafeRequest(p, requests[i], trail[i], trail[i + 1].failures == trail[i].failures)
    ensures Accounted(p, trail[n])
  {
    hide Accounted, Fits, Kept, SafeRequest, Fulfilled, CanServe, SameOwn;
    if n > 0 {
      LedgerHolds(p, requests, outcomes[..n - 1], trail[..n], n - 1);
      assert Served(p, requests[n - 1], trail[n - 1], trail[n], outcomes[n - 1]);
    }
  }

  /** What the ledger of all services says of a moment: allocated are the addresses of servers, and for services without
      servers, each its own, those that their statuses name. */
  lemma AccountedMeans(p: LbProvider, m: Moment)
    ensures Accounted(p, m) <==>
            && AllocatedAre(p.Cfg(), m.st, m.held.Values)
            && (forall key :: key in m.held ==>
                  && StatusOf(m.statuses, key) != "" && m.held[key].address == StatusOf(m.statuses, key)
                  && forall v :: v in m.st.servers ==> !CheckTags(v.tags, Query(p.Cfg(), key)))
            && (forall key, other :: key in m.held && other in m.held && m.held[key] == m.held[other] ==> key == other)
  {
    hide AllocatedAre, Accounts, CheckTags;
    AccountsExact(p.Cfg(), m.st, m.held.Values);
    forall key ensures Servers(p.Cfg(), key, m.st) == [] <==>
      forall v :: v in m.st.servers ==> !CheckTags(v.tags, Query(p.Cfg(), key))
    {
      var own := Servers(p.Cfg(), key, m.st);
      assert own != [] ==> own[0] in own;
    }
  }

  // ---------------------------------------------------------------- possible starts

  lemma {:induction false} NothingAttached(services: seq<LbService>)
    requires forall svc :: svc in services ==> svc.spec.virtualServerIds == []
    ensures AllIds(services) == []
  {
    if services != [] {
      NothingAttached(services[1..]);
      assert services[0] in services;
    }
  }

  /** A broker that has load balancer services without servers, and no address allocated, is a possible start. */
  lemma FreshStart(cfg: Config, services: seq<LbService>, ipPools: map<string, IpPool>, nextId: nat)
    requires UniqueIds(services) && Fresh(SERVICE_ID, services, nextId)
    requires forall svc :: svc in services ==> svc.spec.virtualServerIds == []
    requires forall id :: id in ipPools ==> ipPools[id].allocations == {}
    ensures var st := Store(services, [], [], [], ipPools, nextId);
            && Base(cfg, st) && AllOwnOk(cfg, st)
            && Balanced(cfg, st, None) && Ledger(cfg, st, map[]) && AllHonest(cfg, st, map[])
  {
    var st := Store(services, [], [], [], ipPools, nextId);
    NothingAttached(services);
    forall id | id in st.ipPools ensures InRange(st.ipPools[id]) {
    }
    forall key ensures OwnOk(cfg, key, st) {
    }
  }

  /** From there an unmanaged controller sets up a first service exactly if its load balancer service is there, on its
      router if it has one, and an address is free. */
  lemma UnmanagedServes(p: LbProvider, request: Request, services: seq<LbService>, ipPools: map<string, IpPool>, nextId: nat,
                        id: string)
    requires !p.Cfg().managed && id != "" && request.Ensure? && request.ports != [] && ClassName(request.className) in p.classes
    ensures var st := Store(services, [], [], [], ipPools, nextId);
            CanServe(p, request, Moment(st, id, map[], 0, map[])) <==>
              && (exists svc :: Find(services, id) == Some(svc) && AcceptedById(p.Cfg(), svc))
              && HasFree(st, p.classes[ClassName(request.className)].ipPoolId)
  {
    hide ClassName, AcceptedById, HasFree;
    var st := Store(services, [], [], [], ipPools, nextId);
    assert !HasServer(NewMapping(request.ports[0]), Servers(p.Cfg(), Print(request.name), st));
    assert !AllServed(request.ports, Servers(p.Cfg(), Print(request.name), st));
  }

  /** A controller on its own at a broker in order is in order, managed or not, whichever of its calls fail. */
  method Start(cfg: Config, lbServiceID: string, classes: Classes, st: Store, faults: nat -> bool) returns (p: LbProvider)
    requires cfg.managed <==> lbServiceID == ""
    requires Base(cfg, st) && AllOwnOk(cfg, st)
    ensures fresh(p) && fresh(p.lb) && fresh(p.lb.access) && fresh(p.lb.access.broker)
    ensures p.Cfg() == cfg && p.classes == classes && p.lb.access.broker.faults == faults
    ensures InOrder(p) && p.Now() == st && p.lb.lbServiceID == lbServiceID
  {
    hide Base, OwnOk, AllOwnOk, InMemoryBroker.ChainedAt, InMemoryBroker.EnvOk;
    var broker := new InMemoryBroker(st, TCP_MONITOR_TYPE, faults, (n, locked, run, st) => st);
    var access := new NsxtAccess(broker, cfg);
    var lb := new LoadBalancerService(access, lbServiceID, (n, st, id) => id);
    p := new LbProvider(lb, classes);
  }
}
