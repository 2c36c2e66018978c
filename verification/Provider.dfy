/** The controller's entry points for one Kubernetes service. */
module Provider {
  import opened Results
  import opened Text
  import opened Tags
  import opened Names
  import opened Members
  import opened Resources
  import opened BrokerState
  import opened Ownership
  import opened Attachment
  import opened ServiceSearch
  import opened Broker
  import opened Access
  import opened LbServices
  import opened Addressing
  import opened Moves
  import opened Desired
  import opened Observed
  import opened Reconciler

  const DEFAULT_CLASS := "default"

  /** The configured classes; there is always a default one. */
  type Classes = m: map<string, LbClass> | DEFAULT_CLASS in m
    witness map[DEFAULT_CLASS := LbClass(DEFAULT_CLASS, "")]

  /** The class a service asks for. */
  function ClassName(annotation: Option<string>): string
  {
    var name := if annotation.Some? then Trim(annotation.value) else "";
    if name == "" then DEFAULT_CLASS else name
  }

  predicate Blank(s: string)
  {
    forall c :: c in s ==> IsSpace(c)
  }

  /** A missing or blank annotation asks for the default class, any other for the class of its trimmed name. */
  lemma ClassNameExact(annotation: Option<string>)
    ensures annotation.None? || Blank(annotation.value) ==> ClassName(annotation) == "default"
    ensures annotation.Some? && !Blank(annotation.value) ==>
              ClassName(annotation) != "" && ClassName(annotation) == Trim(annotation.value)
  {
    hide Trim;
    if annotation.Some? {
      var r := Trim(annotation.value);
      var a, b :| Trims(annotation.value, a, r, b);
      assert r != "" ==> r[0] in annotation.value;
      assert r == "" ==> forall c :: c in annotation.value ==> c in a + b;
    }
  }

  function KeyOf(service: KubeService): string
  {
    Print(service.name)
  }

  /** The servers after a run have the address and class of those before it, which keep their ids while they have a port.
      If there were none, they have the class asked for, and the address of the status, if it names one. */
  ghost predicate CarriedOver(service: KubeService, requested: LbClass, before: seq<VirtualServer>, now: seq<VirtualServer>)
  {
    && (forall w :: w in before ==>
          (forall v :: v in now ==> SameAddress(v, w)) && (ForSomePort(service.ports, w) ==> HasId(now, w.id)))
    && (before == [] ==>
          forall v :: v in now ==>
            && GetTag(v.tags, "lbclass") == requested.className && GetTag(v.tags, "ippoolid") == requested.ipPoolId
            && (service.statusIp != "" ==> v.spec.ipAddress == service.statusIp))
  }

  class LbProvider {
    const lb: LoadBalancerService
    const classes: Classes

    constructor (lb: LoadBalancerService, classes: Classes)
      ensures this.lb == lb && this.classes == classes
    {
      this.lb, this.classes := lb, classes;
    }

    function Cfg(): Config
    {
      lb.access.cfg
    }

    function Now(): Store
      reads lb.access.broker
    {
      lb.access.broker.View()
    }

    ghost predicate Ready(key: string)
      reads lb, lb.access.broker
    {
      lb.Ready(key) && lb.access.broker.monitorType == TCP_MONITOR_TYPE
    }

    function OwnServers(key: string): seq<VirtualServer>
      reads lb.access.broker
    {
      Servers(Cfg(), key, Now())
    }

    ghost predicate Settled(service: KubeService, nodes: seq<Node>)
      reads lb.access.broker
    {
      var key := KeyOf(service);
      Converged(service.ports, nodes, Servers(Cfg(), key, Now()), Pools(Cfg(), key, Now()), Monitors(Cfg(), key, Now()))
    }

    /** What a run that gets through has reached, in terms of ports, nodes and what is at the broker: the objects that
        belong to the service serve its ports, and nothing else does, at the address that is reported. */
    ghost predicate Reached(service: KubeService, nodes: seq<Node>, status: Option<string>)
      reads lb.access.broker
    {
      && (service.ports == [] ==> NothingLeft(Cfg(), service.name, Now()) && status == None)
      && (service.ports != [] ==>
           && HasServers(Cfg(), service.name, Now())
           && status.Some? && status.value != "" && ServersAt(Cfg(), service.name, Now(), status.value))
      && (DistinctPorts(service.ports) ==> ServiceServed(Cfg(), service.name, service.ports, nodes, Now()))
    }

    /** The status of a service without servers is empty. */
    ghost predicate StatusHonest(service: KubeService)
      reads lb.access.broker
    {
      OwnServers(KeyOf(service)) == [] ==> service.statusIp == ""
    }

    /** Nothing of the service is left at the broker. */
    ghost predicate Gone(key: string)
      reads lb.access.broker
    {
      Servers(Cfg(), key, Now()) == [] && Pools(Cfg(), key, Now()) == [] && Monitors(Cfg(), key, Now()) == []
    }

    /** Every server of the service is attached to a load balancer service. */
    ghost predicate Serving(key: string)
      reads lb.access.broker
    {
      AllAttached(Cfg(), key, Now())
    }

    /** Which is to say that some load balancer service lists it. */
    lemma ServingExact(name: ObjectName)
      ensures Serving(Print(name)) <==>
              forall v :: v in Now().servers && Belongs(Cfg(), name, v.tags) ==>
                exists svc :: svc in Now().services && v.id in svc.spec.virtualServerIds
    {
      hide Servers, Belongs;
      OwnLists(Cfg(), name, Now());
      forall id ensures id in AllIds(Now().services) <==> exists svc :: svc in Now().services && id in svc.spec.virtualServerIds {
        AllIdsExact(Now().services, id);
      }
    }

    ghost predicate CalmSince(failures0: nat)
      reads lb.access.broker
    {
      lb.access.broker.Alone() && lb.access.broker.failures == failures0
    }

    /** The run was on its own, and no call failed. */
    twostate predicate Calm()
      reads lb.access.broker
    {
      CalmSince(old(lb.access.broker.failures))
    }

    /** Calm, and nobody else changed the remembered service id. */
    twostate predicate Quiet()
      reads lb.access.broker
    {
      lb.Undisturbed() && lb.access.broker.failures == old(lb.access.broker.failures)
    }

    /** A call failed. */
    twostate predicate Failing()
      reads lb.access.broker
    {
      lb.access.broker.failures > old(lb.access.broker.failures)
    }

    /** No write call was made. */
    twostate predicate Silent()
      reads lb.access.broker
    {
      lb.access.broker.Silent(old(lb.access.broker.log), old(lb.access.broker.attempts))
    }

    predicate Configured(service: KubeService)
    {
      ClassName(service.className) in classes
    }

    /** What a run needs if no call fails: a server for every port, or an address and a load balancer service. */
    ghost predicate Servable(service: KubeService)
      reads lb, lb.access.broker
      requires Configured(service)
    {
      ServableAt(Cfg(), KeyOf(service), service, classes[ClassName(service.className)].ipPoolId, Now(), lb.lbServiceID)
    }

    /** The run left alone what is not its own, and extended the log by its writes only. */
    twostate predicate Since(key: string)
      reads lb.access.broker
    {
      && lb.access.broker.OthersAside(Cfg(), key, old(Now()))
      && Extends(key, old(lb.access.broker.log), lb.access.broker.log)
      && old(lb.access.broker.failures) <= lb.access.broker.failures
    }

    method ClassFromService(service: KubeService) returns (r: Result<LbClass>)
      ensures var name := ClassName(service.className);
              r == if name in classes then Ok(classes[name]) else Err(UnknownClass)
    {
      var name := ClassName(service.className);
      r := if name in classes then Ok(classes[name]) else Err(UnknownClass);
    }

    /** The status, as far as servers exist. */
    method GetLoadBalancer(service: KubeService) returns (r: Result<Option<string>>)
      requires Ready(KeyOf(service))
      modifies lb.access.broker
      ensures Ready(KeyOf(service)) && SameOwn(Cfg(), KeyOf(service), old(Now()), Now())
      ensures Silent()
      ensures r.Ok? ==> (r.value.Some? <==> OwnServers(KeyOf(service)) != [])
      ensures r.Ok? && r.value.Some? ==>
                forall v :: v in OwnServers(KeyOf(service)) ==> v.spec.ipAddress == r.value.value
      ensures r.Err? ==> Failing()
      ensures r.Ok? ==> (r.value.Some? <==> HasServers(Cfg(), service.name, Now()))
      ensures r.Ok? && r.value.Some? ==> ServersAt(Cfg(), service.name, Now(), r.value.value)
    {
      hide InMemoryBroker.EnvOk, InMemoryBroker.Alone, InMemoryBroker.AsideBetween, LoadBalancerService.OthersIdOk;
      hide NoNewForeign, Guarantee, CachedOk, OtherRuns;
      hide Base, OwnOk, AllOk, Rely, SameOthers, Servers, Pools, Monitors, HasServers, ServersAt;
      var key := KeyOf(service);
      var found, at := lb.access.FindVirtualServers(key);
      IdleMove(Cfg(), key, lb.lbServiceID, old(lb.access.broker.log), old(Now()), at);
      if found.Err? {
        return Err(found.error);
      }
      if |found.value| == 0 {
        ServersExact(Cfg(), service.name, Now(), "");
        return Ok(None);
      }
      Ownership.OwnServers(Cfg(), key, at);
      assert found.value[0] in found.value;
      r := Ok(Some(found.value[0].spec.ipAddress));
      ServersExact(Cfg(), service.name, Now(), r.value.value);
    }

    /** The address that the status of a service names, in the pool of the class it asks for. */
    function StatusLease(service: KubeService): Lease
      requires Configured(service)
    {
      Lease(classes[ClassName(service.className)].ipPoolId, service.statusIp)
    }

    /** What a run that was on its own did to servers and allocations, whatever failed in it: all that is at stake is one
        address, that of the servers, or of the status, or else a free one. With ports a run gives up no server without
        having another, and allocates none beside that of servers or status, and if no call fails, a new one is allocated
        exactly if servers have it; without ports it creates no server. */
    ghost predicate Staked(service: KubeService, st: Store, st': Store, stake: Option<Lease>, calm: bool)
    {
      var own, own' := Servers(Cfg(), KeyOf(service), st), Servers(Cfg(), KeyOf(service), st');
      && MayChange(Cfg(), KeyOf(service), st, st', stake)
      && (own == [] && stake.Some? ==>
           Configured(service) &&
           if service.statusIp != "" then stake.value == StatusLease(service)
           else && stake.value.poolId in st.ipPools && !Leased(st, stake.value)
                && (calm ==> (Leased(st', stake.value) <==> own' != [])))
      && (service.ports != [] && own != [] ==> own' != [])
      && (service.ports != [] && (own != [] || service.statusIp != "") ==> st'.ipPools == st.ipPools)
      && (service.ports == [] ==> forall v :: v in own' ==> v in own)
    }

    /** A run without ports either gives up the address at stake, as one that gets through does, or releases nothing. */
    ghost predicate GivesUp(service: KubeService, st: Store, st': Store, stake: Option<Lease>, lease: Option<Lease>, done: bool)
    {
      && (if lease.Some? then lease == stake && !Leased(st', lease.value) else st'.ipPools == st.ipPools)
      && (done ==> lease == stake && (Servers(Cfg(), KeyOf(service), st) != [] || service.statusIp != "" ==> stake.Some?))
      && (Servers(Cfg(), KeyOf(service), st) == [] && service.statusIp == "" ==> stake == None)
    }

    /** What a run for a service without servers does to the ledger, where the status still names an address. That may be
        held for the service: then it is so until a server has it or it is given up. Or it is not: then giving it up is
        right exactly if no other service has it, and creating servers with it never. */
    ghost predicate LedgerExact(service: KubeService, st: Store, st': Store, given: bool)
      requires Configured(service)
    {
      var l, none := StatusLease(service), Servers(Cfg(), KeyOf(service), st') == [];
      && (Balanced(Cfg(), st, Some(l)) ==> Balanced(Cfg(), st', if none && !given then Some(l) else None))
      && (Balanced(Cfg(), st, None) && l.poolId in st.ipPools ==>
           (Balanced(Cfg(), st', None) <==> none && (given ==> !InUse(Cfg(), st.servers, l))))
    }

    lemma StatusLedger(service: KubeService, st: Store, st': Store, stake: Option<Lease>, calm: bool, lease: Option<Lease>,
        done: bool)
      requires Configured(service) && Staked(service, st, st', stake, calm)
      requires if service.ports == [] then GivesUp(service, st, st', stake, lease, done) else lease == None
      requires Servers(Cfg(), KeyOf(service), st) == [] && service.statusIp != ""
      ensures LedgerExact(service, st, st', lease.Some?)
    {
      hide Balanced, Servers, Leased, InUse, AtStake, SameOthers;
      var key, l := KeyOf(service), StatusLease(service);
      if service.ports == [] {
        SomeOfNone(Servers(Cfg(), key, st'), Servers(Cfg(), key, st));
      }
      if stake.None? {
        NoneAtStake(Cfg(), key, st, st', l);
      }
      if lease.None? {
        StatusTaken(Cfg(), key, st, st', l);
      } else {
        StatusGivenUp(Cfg(), key, st, st', l);
      }
    }

    /** Giving up the address of the servers is right exactly if none of them is left. */
    lemma ServersGone(service: KubeService, st: Store, st': Store, stake: Option<Lease>, calm: bool, lease: Option<Lease>,
        done: bool)
      requires Staked(service, st, st', stake, calm) && GivesUp(service, st, st', stake, lease, done) && Balanced(Cfg(), st, None)
      requires stake.Some? && Servers(Cfg(), KeyOf(service), st) != []
      ensures lease.Some? && lease.value.poolId in st'.ipPools ==>
                (Balanced(Cfg(), st', None) <==> Servers(Cfg(), KeyOf(service), st') == [])
      ensures lease.Some? && Servers(Cfg(), KeyOf(service), st') == [] ==> Balanced(Cfg(), st', None)
    {
      hide Servers, Leased, SameOthers, Accounts, UsedByOthers, AllHave;
      assert SetOf(None) == {};
      AddressOfServers(Cfg(), KeyOf(service), st, st', stake.value, {});
      StakeExact(Cfg(), KeyOf(service), st, st', stake.value, {});
      assert {} - {stake.value} == {};
    }

    /** The ledger after a run that was on its own. */
    lemma Ledger(service: KubeService, st: Store, st': Store, stake: Option<Lease>, calm: bool, lease: Option<Lease>,
        done: bool)
      requires Configured(service) && Staked(service, st, st', stake, calm)
      requires if service.ports == [] then GivesUp(service, st, st', stake, lease, done) else lease == None
      requires service.ports == [] && done ==> Servers(Cfg(), KeyOf(service), st') == []
      ensures Servers(Cfg(), KeyOf(service), st) == [] && service.statusIp != "" ==> LedgerExact(service, st, st', lease.Some?)
      ensures Servers(Cfg(), KeyOf(service), st) != [] && service.ports != [] && Balanced(Cfg(), st, None) ==>
                Balanced(Cfg(), st', None)
      ensures service.ports == [] && Balanced(Cfg(), st, None) &&
              (Servers(Cfg(), KeyOf(service), st) == [] ==> service.statusIp == "") ==>
                && (done ==> Balanced(Cfg(), st', None))
                && (lease.Some? && lease.value.poolId in st'.ipPools ==>
                     (Balanced(Cfg(), st', None) <==> Servers(Cfg(), KeyOf(service), st') == []))
    {
      hide Accounts, Servers, Leased, AtStake, SameOthers, LedgerExact, Trim;
      if Servers(Cfg(), KeyOf(service), st) == [] {
        if service.statusIp != "" {
          StatusLedger(service, st, st', stake, calm, lease, done);
        } else if service.ports == [] && Balanced(Cfg(), st, None) {
          NothingAtStake(Cfg(), KeyOf(service), st, st', {});
        }
      } else if Balanced(Cfg(), st, None) {
        if service.ports != [] {
          AddressInUse(Cfg(), KeyOf(service), st, st', stake.value);
        } else {
          ServersGone(service, st, st', stake, calm, lease, done);
        }
      }
    }

    /** `lease` is the address that was given up, if any, and `stake` the one the run worked with. */
    method EnsureLoadBalancer(service: KubeService, nodes: seq<Node>)
      returns (status: Option<string>, r: Outcome, ghost lease: Option<Lease>, ghost stake: Option<Lease>)
      requires Ready(KeyOf(service))
      modifies lb`lbServiceID, lb.access.broker
      ensures Ready(KeyOf(service))
      ensures r.Done? && DistinctPorts(service.ports) ==> Settled(service, nodes)
      ensures r.Done? && service.ports != [] ==>
                && status.Some? && status.value != "" && OwnServers(KeyOf(service)) != []
                && forall v :: v in OwnServers(KeyOf(service)) ==> v.spec.ipAddress == status.value
      ensures r.Done? && service.ports == [] ==> status == None && Gone(KeyOf(service))
      ensures old(Settled(service, nodes)) && (service.ports != [] || service.statusIp == "") ==>
                && Silent() && SameOwn(Cfg(), KeyOf(service), old(Now()), Now())
                && (lb.access.broker.Alone() ==> Now() == old(Now()))
      ensures !Configured(service) ==> r == Failed(UnknownClass) && Now() == old(Now()) && Silent()
      ensures !r.Done? ==> Failing() || Blocking(r.error) || !Configured(service)
      ensures service.ports == [] && !r.Done? ==> Failing() || r == Failed(NotFound) || !Configured(service)
      ensures service.ports == [] && Calm() ==> (r.Done? <==> Configured(service))
      ensures Quiet() ==> (r.Done? <==> Configured(service) && old(Servable(service)))
      ensures old(Settled(service, nodes)) && (service.ports != [] || service.statusIp == "") && !r.Done? ==>
                !Configured(service) || Failing()
      ensures Calm() && old(StatusHonest(service)) && Balanced(Cfg(), old(Now()), None) ==> Balanced(Cfg(), Now(), None)
      ensures service.ports == [] && lb.access.broker.Alone() &&
              old(StatusHonest(service)) && Balanced(Cfg(), old(Now()), None) ==>
                && (r.Done? ==> Balanced(Cfg(), Now(), None))
                && (lease.Some? && lease.value.poolId in Now().ipPools ==>
                     (Balanced(Cfg(), Now(), None) <==> OwnServers(KeyOf(service)) == []))
      ensures Calm() && old(StatusHonest(service)) && !r.Done? ==> StatusHonest(service)
      ensures Calm() && Covered(Cfg()) && r.Done? ==>
                (Serving(KeyOf(service)) <==> NeededAttached(Cfg(), KeyOf(service), service.ports, old(Now())))
      ensures Calm() && Covered(Cfg()) && old(Serving(KeyOf(service))) ==> Serving(KeyOf(service))
      ensures r.Done? && service.ports != [] ==>
                Configured(service) && CarriedOver(service, classes[ClassName(service.className)],
                                                   old(OwnServers(KeyOf(service))), OwnServers(KeyOf(service)))
      ensures lb.access.broker.Alone() ==> Staked(service, old(Now()), Now(), stake, Calm())
      ensures lb.access.broker.Alone() && service.ports == [] ==>
                GivesUp(service, old(Now()), Now(), stake, lease, r.Done?)
      ensures lb.access.broker.Alone() && Configured(service) &&
              old(OwnServers(KeyOf(service))) == [] && service.statusIp != "" ==>
                LedgerExact(service, old(Now()), Now(), lease.Some?)
      ensures lb.access.broker.Alone() && service.ports != [] && old(OwnServers(KeyOf(service))) != [] &&
              Balanced(Cfg(), old(Now()), None) ==>
                Balanced(Cfg(), Now(), None)
      ensures Since(KeyOf(service))
      ensures lb.access.broker.Alone() ==> ElsewhereSame(Cfg(), old(Now()), Now())
      ensures r.Done? ==> Reached(service, nodes, status)
    {
      hide InMemoryBroker.EnvOk, InMemoryBroker.Alone, InMemoryBroker.AsideBetween, LoadBalancerService.OthersIdOk;
      hide NoNewForeign, Guarantee, CachedOk, OtherRuns;
      hide Base, OwnOk, AllOk, Rely, SameOthers, Servers, Pools, Monitors;
      hide Balanced, Converged, LoadBalancerService.Ready, ForSomePort, Grown, Trim, Staked, GivesUp, LedgerExact, CarriedOver;
      hide ServableAt, Reached, ElsewhereSame, DistinctPorts;
      InOrder(KeyOf(service));
      var found := ClassFromService(service);
      if found.Err? {
        lb.access.broker.NothingAside(Cfg(), KeyOf(service));
        stake := NothingDone(service);
        SettledEmpty(service, nodes);
        ElsewhereAside(KeyOf(service), Now());
        return None, Failed(found.error), None, stake;
      }
      ghost var st0 := Now();
      var state := new State(lb, service, nodes);
      ghost var half, reached, given;
      status, r, half, reached, given := Run(state, service, nodes, found.value);
      stake := state.Stake(st0);
      lease := if service.ports == [] && given && state.ipAddress != "" then Some(state.Held()) else None;
      ElsewhereAside(KeyOf(service), st0);
      if r.Done? {
        ReachedByLists(service, nodes, status);
      }
      if Calm() && !r.Done? {
        StillThere(KeyOf(service), st0, Now());
      }
      if lb.access.broker.Alone() {
        RunStaked(service, state, st0, half.st, half.failures == old(lb.access.broker.failures), Calm(), given, r.Done?);
        Ledger(service, st0, Now(), stake, Calm(), lease, r.Done?);
      }
    }

    /** The run for a service whose class is known. `half` is where it stood before it gave up the address or not,
        `reached` and `given` whether the two halves got through. */
    method Run(state: State, service: KubeService, nodes: seq<Node>, requested: LbClass)
      returns (status: Option<string>, r: Outcome, ghost half: Mark, ghost reached: bool, ghost given: bool)
      requires state.lb == lb && state.service == service && state.nodes == nodes && state.key == KeyOf(service)
      requires state.ipAddress == "" && state.lbClass == None
      requires Ready(KeyOf(service)) && Configured(service) && requested == classes[ClassName(service.className)]
      modifies state, lb`lbServiceID, lb.access.broker
      ensures Ready(KeyOf(service))
      ensures r.Done? && DistinctPorts(service.ports) ==> Settled(service, nodes)
      ensures r.Done? && service.ports != [] ==>
                && status.Some? && status.value != "" && OwnServers(KeyOf(service)) != []
                && forall v :: v in OwnServers(KeyOf(service)) ==> v.spec.ipAddress == status.value
      ensures r.Done? && service.ports == [] ==> status == None && Gone(KeyOf(service))
      ensures old(Settled(service, nodes)) && (service.ports != [] || service.statusIp == "") ==>
                && Silent() && SameOwn(Cfg(), KeyOf(service), old(Now()), Now())
                && (lb.access.broker.Alone() ==> Now() == old(Now())) && (!r.Done? ==> Failing())
      ensures !r.Done? ==> Failing() || Blocking(r.error)
      ensures service.ports == [] && !r.Done? ==> Failing() || (r == Failed(NotFound) && !lb.access.broker.Alone())
      ensures (r.Done? <==> reached && given) && (reached ==> state.lbClass.Some?)
      ensures old(lb.access.broker.failures) <= half.failures <= lb.access.broker.failures
      ensures lb.Undisturbed() && half.failures == old(lb.access.broker.failures) ==>
                (reached <==> ServableAt(Cfg(), state.key, service, requested.ipPoolId, old(Now()), old(lb.lbServiceID)))
      ensures lb.access.broker.Alone() && lb.access.broker.failures == half.failures ==> given
      ensures service.ports != [] && Calm() && old(StatusHonest(service)) && Balanced(Cfg(), old(Now()), None) ==>
                Balanced(Cfg(), Now(), None)
      ensures Calm() && !r.Done? ==> Grown(Cfg(), KeyOf(service), old(Now()), Now())
      ensures Calm() && Covered(Cfg()) && r.Done? ==>
                (Serving(KeyOf(service)) <==> NeededAttached(Cfg(), KeyOf(service), service.ports, old(Now())))
      ensures r.Done? && service.ports != [] ==>
                CarriedOver(service, requested, old(OwnServers(KeyOf(service))), OwnServers(KeyOf(service)))
      ensures state.Halfway(requested, old(Now()), half.st, half.failures == old(lb.access.broker.failures))
      ensures lb.access.broker.Alone() ==>
                Now() == if service.ports == [] && given && state.ipAddress != "" && Leased(half.st, state.Held())
                         then Release(half.st, state.Held().poolId, state.ipAddress) else half.st
      ensures Since(KeyOf(service))
    {
      hide InMemoryBroker.EnvOk, InMemoryBroker.Alone, InMemoryBroker.AsideBetween, LoadBalancerService.OthersIdOk;
      hide NoNewForeign, Guarantee, CachedOk, OtherRuns;
      hide Base, OwnOk, AllOk, Rely, SameOthers, Servers, Pools, Monitors;
      hide Balanced, Converged, LoadBalancerService.Ready, Leased, ForSomePort, Release, Grown, CanAttach, HasFree, AllServed,
        ClassOf, Trim, Staked, GivesUp, CarriedOver, State.Halfway, HasId, Extends, ServableAt, AllAttached, NeededAttached;
      hide DistinctPorts, LoadBalancerService.Undisturbed, InMemoryBroker.Chained, InMemoryBroker.View, ClassName,
        Print, State.Stake, State.Held, State.PoolId, State.Anchor, LeaseOf, AllIds;
      InOrder(KeyOf(service));
      SettledEmpty(service, nodes);
      lb.UndisturbedAlone();
      ghost var st0 := Now();
      var processed := state.Process(requested);
      ghost var st1, here := Now(), state.Here();
      if processed.Done? {
        ServersCarriedOver(state, requested, st0, st1, here.failures == old(lb.access.broker.failures));
      }
      state.NothingToGiveUp(requested, st0, st1, here.failures == old(lb.access.broker.failures));
      var finished := state.Finish();
      assert service.ports != [] || state.ipAddress == "" ==> finished.Ok? && state.Here() == here;
      status := if finished.Ok? then finished.value else None;
      r := if !processed.Done? then processed else if finished.Ok? then Done else Failed(finished.error);
      half, reached, given := here, processed.Done?, finished.Ok?;
      state.OthersAsideSince(st0, st1);
      ExtendsTransitive(state.key, old(lb.access.broker.log), here.log, lb.access.broker.log);
      if lb.access.broker.Alone() {
        SameAttached(Cfg(), state.key, st1, Now());
      }
      SettledEmpty(service, nodes);
    }

    /** What there was at stake in the run of `state`, by what its two halves ensure. */
    lemma RunStaked(service: KubeService, state: State, st0: Store, mid: Store, halfway: bool, calm: bool, given: bool,
        done: bool)
      requires (done ==> given && state.lbClass.Some?) && (calm ==> halfway)
      requires state.lb == lb && state.service == service && state.key == KeyOf(service) && Configured(service)
      requires lb.access.broker.Alone() && state.OthersAside(st0) && OwnOk(Cfg(), state.key, st0)
      requires state.Halfway(classes[ClassName(service.className)], st0, mid, halfway)
      requires Now() == if service.ports == [] && given && state.ipAddress != "" && Leased(mid, state.Held())
                        then Release(mid, state.Held().poolId, state.ipAddress) else mid
      ensures Staked(service, st0, Now(), state.Stake(st0), calm)
      ensures AllAttached(Cfg(), state.key, Now()) == AllAttached(Cfg(), state.key, mid)
      ensures var lease := if service.ports == [] && given && state.ipAddress != "" then Some(state.Held()) else None;
              service.ports == [] ==> GivesUp(service, st0, Now(), state.Stake(st0), lease, done)
    {
      hide Servers, OwnOk, PoolsBut, SameOthers, AllHave, InMemoryBroker.Alone, Leased, AtStake, Base, ClassOf, Trim;
      var own := Servers(Cfg(), state.key, st0);
      state.WholeRun(classes[ClassName(service.className)], st0, mid, halfway, service.ports == [] && given);
      Ownership.OwnServers(Cfg(), state.key, st0);
      SameOwnLists(Cfg(), state.key, mid, Now());
      SameAttached(Cfg(), state.key, mid, Now());
      assert own != [] ==> own[0] in own;
      if service.ports == [] && given && state.ipAddress != "" && Leased(mid, state.Held()) {
        UnknownPool(mid, state.Held());
        PoolsButReleased(mid, Release(mid, state.Held().poolId, state.ipAddress), state.Held());
      }
    }

    lemma NothingDone(service: KubeService) returns (stake: Option<Lease>)
      requires OwnOk(Cfg(), KeyOf(service), Now()) && !Configured(service)
      ensures Staked(service, Now(), Now(), stake, true) && GivesUp(service, Now(), Now(), stake, None, false)
    {
      hide Servers, OwnOk, PoolsBut, AllHave, Leased, Trim;
      var key := KeyOf(service);
      var own := Servers(Cfg(), key, Now());
      SameOthersReflexive(Cfg(), key, Now());
      Ownership.OwnServers(Cfg(), key, Now());
      if own == [] {
        stake := None;
      } else {
        assert own[0] in own;
        stake := Some(LeaseOf(own[0]));
        SameLeases(own, own, own[0]);
        PoolsButSame(Now(), Now(), LeaseOf(own[0]));
      }
    }

    lemma InOrder(key: string)
      requires Ready(key)
      ensures OwnOk(Cfg(), key, Now())
    {
    }

    lemma ServersCarriedOver(state: State, requested: LbClass, st0: Store, mid: Store, calm: bool)
      requires state.lb == lb && state.lbClass.Some? && state.Halfway(requested, st0, mid, calm)
      requires forall v :: v in Servers(Cfg(), state.key, mid) ==>
                             v.spec.ipAddress == state.ipAddress && ClassOf(v) == state.lbClass.value
      requires forall w :: w in Servers(Cfg(), state.key, st0) && ForSomePort(state.service.ports, w) ==>
                             HasId(Servers(Cfg(), state.key, mid), w.id)
      ensures CarriedOver(state.service, requested, Servers(Cfg(), state.key, st0), Servers(Cfg(), state.key, mid))
    {
      hide Servers, State.StakedAt, HasId, ForSomePort;
    }

    lemma SettledEmpty(service: KubeService, nodes: seq<Node>)
      ensures service.ports == [] ==> DistinctPorts(service.ports) && (Settled(service, nodes) <==> Gone(KeyOf(service)))
    {
      hide Servers, Pools, Monitors;
      ConvergedEmpty(nodes, Servers(Cfg(), KeyOf(service), Now()), Pools(Cfg(), KeyOf(service), Now()),
                     Monitors(Cfg(), KeyOf(service), Now()));
    }

    /** What the lists of the service mean for what is at the broker. */
    lemma ListsMean(service: KubeService, nodes: seq<Node>)
      ensures Settled(service, nodes) <==> ServiceServed(Cfg(), service.name, service.ports, nodes, Now())
      ensures Gone(KeyOf(service)) <==> NothingLeft(Cfg(), service.name, Now())
    {
      hide Servers, Pools, Monitors, Converged, ServiceServed, NothingLeft;
      ConvergedMeans(Cfg(), service.name, service.ports, nodes, Now());
      NothingLeftExact(Cfg(), service.name, Now());
    }

    lemma ReachedByLists(service: KubeService, nodes: seq<Node>, status: Option<string>)
      requires DistinctPorts(service.ports) ==> Settled(service, nodes)
      requires service.ports == [] ==> status == None && Gone(KeyOf(service))
      requires service.ports != [] ==>
                 && status.Some? && status.value != "" && OwnServers(KeyOf(service)) != []
                 && forall v :: v in OwnServers(KeyOf(service)) ==> v.spec.ipAddress == status.value
      ensures Reached(service, nodes, status)
    {
      hide Servers, Pools, Monitors, Settled, Gone, ServiceServed, NothingLeft, HasServers, ServersAt, DistinctPorts;
      ListsMean(service, nodes);
      if service.ports != [] {
        ServersExact(Cfg(), service.name, Now(), status.value);
      }
    }

    /** A run on its own leaves alone what belongs to other clusters and owners. */
    lemma ElsewhereAside(key: string, before: Store)
      requires lb.access.broker.OthersAside(Cfg(), key, before)
      ensures lb.access.broker.Alone() ==> ElsewhereSame(Cfg(), before, Now())
    {
      hide SameOthers, ElsewhereSame;
      if lb.access.broker.Alone() {
        OthersIncludeElsewhere(Cfg(), key, before, Now());
      }
    }

    /** A run that stopped half way has lost no server and no attachment. */
    lemma StillThere(key: string, before: Store, now: Store)
      requires Grown(Cfg(), key, before, now)
      ensures Servers(Cfg(), key, now) == [] ==> Servers(Cfg(), key, before) == []
      ensures AllAttached(Cfg(), key, before) ==> AllAttached(Cfg(), key, now)
    {
      hide Servers;
      var own := Servers(Cfg(), key, before);
      assert own != [] ==> own[0] in own;
    }

    /** Lets the pools follow the nodes; what was converged for other nodes is then converged for these. */
    method UpdateLoadBalancer(service: KubeService, nodes: seq<Node>, ghost nodes0: seq<Node>) returns (r: Outcome)
      requires Ready(KeyOf(service))
      modifies lb.access.broker
      ensures Ready(KeyOf(service)) && OwnServers(KeyOf(service)) == old(OwnServers(KeyOf(service)))
      ensures r.Done? && old(Settled(service, nodes0)) ==> Settled(service, nodes)
      ensures r.Done? ==>
                forall p :: p in Pools(Cfg(), KeyOf(service), Now()) && HasSomePort(service.ports, p.tags) ==>
                  Addresses(p.spec.members) == NodeAddresses(nodes)
      ensures !r.Done? ==> Failing()
      ensures lb.access.broker.Alone() && Balanced(Cfg(), old(Now()), None) ==> Balanced(Cfg(), Now(), None)
      ensures lb.access.broker.Alone() ==> Now().servers == old(Now()).servers && Now().ipPools == old(Now()).ipPools
      ensures Since(KeyOf(service))
      ensures lb.access.broker.Alone() ==> ElsewhereSame(Cfg(), old(Now()), Now())
      ensures r.Done? ==> PoolsFollow(Cfg(), service.name, service.ports, nodes, Now())
    {
      hide InMemoryBroker.EnvOk, InMemoryBroker.Alone, InMemoryBroker.AsideBetween, LoadBalancerService.OthersIdOk;
      hide NoNewForeign, Guarantee, CachedOk, OtherRuns;
      hide Base, OwnOk, AllOk, Rely, SameOthers, Servers, Pools, Monitors;
      hide Balanced, Converged, LoadBalancerService.Ready, HasSomePort, State.OnlyMembersChanged;
      hide PoolsFollow, ElsewhereSame, Addresses, NodeAddresses;
      ghost var before := Now();
      var state := new State(lb, service, nodes);
      r := state.UpdatePoolMembers();
      state.StillBalanced(before, None);
      PoolsFollowExact(Cfg(), service.name, service.ports, nodes, Now());
      ElsewhereAside(KeyOf(service), before);
      if r.Done? && old(Settled(service, nodes0)) {
        state.StillConverged(nodes0, Servers(Cfg(), state.key, before), Pools(Cfg(), state.key, before),
                             Monitors(Cfg(), state.key, before));
      }
    }

    /** Deletion is a run for the service without its ports. */
    method EnsureLoadBalancerDeleted(service: KubeService)
      returns (r: Outcome, ghost lease: Option<Lease>, ghost stake: Option<Lease>)
      requires Ready(KeyOf(service))
      modifies lb`lbServiceID, lb.access.broker
      ensures Ready(KeyOf(service))
      ensures r.Done? ==> Gone(KeyOf(service))
      ensures !Configured(service) ==> r == Failed(UnknownClass) && Now() == old(Now()) && Silent()
      ensures !r.Done? ==> Failing() || r == Failed(NotFound) || !Configured(service)
      ensures Calm() ==> (r.Done? <==> Configured(service))
      ensures lb.access.broker.Alone() && old(StatusHonest(service)) && Balanced(Cfg(), old(Now()), None) ==>
                && (r.Done? ==> Balanced(Cfg(), Now(), None))
                && (lease.Some? && lease.value.poolId in Now().ipPools ==>
                     (Balanced(Cfg(), Now(), None) <==> OwnServers(KeyOf(service)) == []))
      ensures Calm() && old(StatusHonest(service)) && Balanced(Cfg(), old(Now()), None) ==> Balanced(Cfg(), Now(), None)
      ensures Calm() && old(StatusHonest(service)) && !r.Done? ==> StatusHonest(service)
      ensures lb.access.broker.Alone() ==>
                && Staked(service.(ports := []), old(Now()), Now(), stake, Calm())
                && GivesUp(service.(ports := []), old(Now()), Now(), stake, lease, r.Done?)
      ensures lb.access.broker.Alone() && Configured(service) &&
              old(OwnServers(KeyOf(service))) == [] && service.statusIp != "" ==>
                LedgerExact(service, old(Now()), Now(), lease.Some?)
      ensures Since(KeyOf(service))
      ensures lb.access.broker.Alone() ==> ElsewhereSame(Cfg(), old(Now()), Now())
      ensures r.Done? ==> NothingLeft(Cfg(), service.name, Now())
    {
      hide InMemoryBroker.EnvOk, InMemoryBroker.Alone, InMemoryBroker.AsideBetween, LoadBalancerService.OthersIdOk;
      hide NoNewForeign, Guarantee, CachedOk, OtherRuns;
      hide Base, OwnOk, AllOk, Rely, SameOthers, Servers, Pools, Monitors;
      hide Balanced, Converged, LoadBalancerService.Ready;
      hide Staked, GivesUp, Leased, InUse, NothingLeft, ElsewhereSame, ServiceServed, HasServers, ServersAt;
      var emptyService := service.(ports := []);
      assert DistinctPorts(emptyService.ports);
      var status;
      status, r, lease, stake := EnsureLoadBalancer(emptyService, []);
    }

    /** The status names the address of the servers, or one that is held, or at least one that no other service has. */
    ghost predicate StatusTrue(service: KubeService, st: Store, held: Option<Lease>)
      requires Configured(service)
    {
      var own, l := Servers(Cfg(), KeyOf(service), st), StatusLease(service);
      if own != [] then service.statusIp != "" && AllHave(own, l) && held == None
      else if service.statusIp == "" then held == None
      else held == Some(l) || (held == None && !InUse(Cfg(), st.servers, l))
    }

    /** What a deletion, repeated until it gets through, has touched. */
    ghost predicate DeletedSince(service: KubeService, st0: Store, st: Store)
      requires Configured(service)
    {
      if service.statusIp == "" then MayChange(Cfg(), KeyOf(service), st0, st, None)
      else AtStake(Cfg(), KeyOf(service), st0, st, StatusLease(service))
    }

    lemma DeletedFurther(service: KubeService, st0: Store, mid: Store, st: Store, stake: Option<Lease>, calm: bool,
        lease: Option<Lease>, done: bool)
      requires Configured(service) && DeletedSince(service, st0, mid)
      requires Staked(service.(ports := []), mid, st, stake, calm) && GivesUp(service.(ports := []), mid, st, stake, lease, done)
      ensures DeletedSince(service, st0, st)
      ensures done && service.statusIp != "" ==> !Leased(st, StatusLease(service))
    {
      hide SameOthers, PoolsBut, Servers, AllHave, Leased, Trim, AtStake;
      var key, l := KeyOf(service), StatusLease(service);
      if service.statusIp == "" {
        SameOthersTransitive(Cfg(), key, st0, mid, st);
      } else {
        if stake.None? {
          NoneAtStake(Cfg(), key, mid, st, l);
        } else if Servers(Cfg(), key, mid) != [] {
          OneStake(Cfg(), key, st0, mid, st, l, stake.value);
        }
        AtStakeTransitive(Cfg(), key, st0, mid, st, l);
      }
    }

    /** A deletion that fails is tried again. Once it gets through nothing is left of the service, and the ledger is
        balanced, whatever failed before, and however often. */
    method DeleteUntilDone(service: KubeService, attempts: nat, ghost held: Option<Lease>) returns (r: Outcome)
      requires Ready(KeyOf(service)) && lb.access.broker.Alone() && Configured(service)
      requires Balanced(Cfg(), Now(), held) && StatusTrue(service, Now(), held)
      modifies lb`lbServiceID, lb.access.broker
      ensures Ready(KeyOf(service)) && lb.access.broker.Alone()
      ensures r.Done? ==> Gone(KeyOf(service)) && Balanced(Cfg(), Now(), None)
      ensures attempts > 0 && lb.access.broker.failures == old(lb.access.broker.failures) ==> r.Done?
    {
      hide Reached, NothingLeft, ElsewhereSame;
      hide InMemoryBroker.EnvOk, InMemoryBroker.AsideBetween, LoadBalancerService.OthersIdOk, InMemoryBroker.Alone;
      hide NoNewForeign, Guarantee, CachedOk, OtherRuns;
      hide Base, OwnOk, AllOk, Rely, SameOthers, Servers, Pools, Monitors;
      hide Balanced, LoadBalancerService.Ready, Staked, GivesUp, DeletedSince, Leased, StatusTrue, LedgerExact;
      ghost var st0 := Now();
      NothingDeletedYet(service, st0, held);
      r := Failed(NotFound);
      for i := 0 to attempts
        invariant Ready(KeyOf(service)) && !r.Done? && DeletedSince(service, st0, Now())
        invariant lb.access.broker.failures >= old(lb.access.broker.failures)
        invariant i > 0 ==> lb.access.broker.failures > old(lb.access.broker.failures)
      {
        ghost var mid, failures1 := Now(), lb.access.broker.failures;
        ghost var lease, stake;
        r, lease, stake := EnsureLoadBalancerDeleted(service);
        ghost var calm := CalmSince(failures1);
        DeletedFurther(service, st0, mid, Now(), stake, calm, lease, r.Done?);
        if r.Done? {
          AllGivenUp(service, st0, held);
          return;
        }
      }
    }

    lemma NothingDeletedYet(service: KubeService, st0: Store, held: Option<Lease>)
      requires Configured(service) && StatusTrue(service, st0, held)
      ensures DeletedSince(service, st0, st0)
    {
      hide Servers;
      SameOthersReflexive(Cfg(), KeyOf(service), st0);
      PoolsButSame(st0, st0, StatusLease(service));
    }

    lemma AllGivenUp(service: KubeService, st0: Store, held: Option<Lease>)
      requires Configured(service) && StatusTrue(service, st0, held) && Balanced(Cfg(), st0, held)
      requires DeletedSince(service, st0, Now()) && Gone(KeyOf(service))
      requires service.statusIp != "" ==> !Leased(Now(), StatusLease(service))
      ensures Balanced(Cfg(), Now(), None)
    {
      hide Servers, Balanced, AtStake, Leased, InUse, Trim;
      if service.statusIp == "" {
        StillAccounted(service, st0);
      } else {
        GivenUpSince(Cfg(), KeyOf(service), st0, Now(), StatusLease(service), held);
      }
    }

    lemma StillAccounted(service: KubeService, st0: Store)
      requires MayChange(Cfg(), KeyOf(service), st0, Now(), None) && Balanced(Cfg(), st0, None)
      ensures Balanced(Cfg(), Now(), None)
    {
      hide Accounts;
      NothingAtStake(Cfg(), KeyOf(service), st0, Now(), {});
    }

    /** A server that lost its attachment is not attached again: the run for a converged service leaves it alone. */
    method EnsureDetached(service: KubeService, nodes: seq<Node>) returns (r: Outcome)
      requires Ready(KeyOf(service)) && service.ports != [] && lb.access.broker.Alone()
      requires Settled(service, nodes) && !Serving(KeyOf(service))
      modifies lb`lbServiceID, lb.access.broker
      ensures !Serving(KeyOf(service))
    {
      hide Reached, NothingLeft, ElsewhereSame;
      hide InMemoryBroker.EnvOk, InMemoryBroker.Alone, InMemoryBroker.AsideBetween, LoadBalancerService.OthersIdOk;
      hide NoNewForeign, Guarantee, CachedOk, OtherRuns;
      hide Base, OwnOk, AllOk, Rely, SameOthers, Servers, Pools, Monitors, Converged, LoadBalancerService.Ready;
      ghost var lease, stake;
      var status;
      status, r, lease, stake := EnsureLoadBalancer(service, nodes);
    }

    /** Nor does a run that gets through without a failed call attach a server that the attach and the clean-up of an
        earlier run left behind: it only brings the service to where `EnsureDetached` starts from. */
    method EnsureLeftBehind(service: KubeService, nodes: seq<Node>, ghost v: VirtualServer) returns (r: Outcome)
      requires Ready(KeyOf(service)) && Covered(Cfg())
      requires v in OwnServers(KeyOf(service)) && ForSomePort(service.ports, v) && v.id !in AllIds(Now().services)
      modifies lb`lbServiceID, lb.access.broker
      ensures Ready(KeyOf(service))
      ensures r.Done? && Calm() ==> !Serving(KeyOf(service)) && (DistinctPorts(service.ports) ==> Settled(service, nodes))
      ensures r.Done? ==> HasId(OwnServers(KeyOf(service)), v.id)
    {
      hide Reached, NothingLeft, ElsewhereSame;
      hide InMemoryBroker.EnvOk, InMemoryBroker.Alone, InMemoryBroker.AsideBetween, LoadBalancerService.OthersIdOk;
      hide NoNewForeign, Guarantee, CachedOk, OtherRuns;
      hide Base, OwnOk, AllOk, Rely, SameOthers, Servers, Pools, Monitors, Converged, LoadBalancerService.Ready;
      hide Staked, GivesUp, LedgerExact, HasId, SameAddress;
      ghost var lease, stake;
      var status;
      status, r, lease, stake := EnsureLoadBalancer(service, nodes);
    }

    /** A run for a converged service writes nothing, and reports the address again unless a call fails. */
    method EnsureAgain(service: KubeService, nodes: seq<Node>) returns (status: Option<string>, r: Outcome)
      requires Ready(KeyOf(service)) && service.ports != [] && Configured(service) && Settled(service, nodes)
      modifies lb`lbServiceID, lb.access.broker
      ensures Ready(KeyOf(service)) && Silent()
      ensures SameOwn(Cfg(), KeyOf(service), old(Now()), Now())
      ensures !r.Done? ==> Failing()
      ensures r.Done? ==>
                && status.Some? && OwnServers(KeyOf(service)) != []
                && forall v :: v in OwnServers(KeyOf(service)) ==> v.spec.ipAddress == status.value
    {
      hide Reached, NothingLeft, ElsewhereSame;
      hide InMemoryBroker.EnvOk, InMemoryBroker.Alone, InMemoryBroker.AsideBetween, LoadBalancerService.OthersIdOk;
      hide NoNewForeign, Guarantee, CachedOk, OtherRuns;
      hide Base, OwnOk, AllOk, Rely, SameOthers, Servers, Pools, Monitors, Converged, LoadBalancerService.Ready, Balanced;
      ghost var lease, stake;
      status, r, lease, stake := EnsureLoadBalancer(service, nodes);
    }

    /** After a successful run, one for the same service and nodes reports the same status, unless a call fails. */
    method EnsureTwice(service: KubeService, nodes: seq<Node>) returns (first: Option<string>, again: Option<string>, r: Outcome)
      requires Ready(KeyOf(service)) && DistinctPorts(service.ports) && service.ports != []
      modifies lb`lbServiceID, lb.access.broker
      ensures Ready(KeyOf(service))
      ensures r.Done? ==> again == first && Settled(service, nodes)
      ensures first.Some? && !r.Done? ==> Failing()
    {
      hide Reached, NothingLeft, ElsewhereSame;
      hide InMemoryBroker.EnvOk, InMemoryBroker.Alone, InMemoryBroker.AsideBetween, LoadBalancerService.OthersIdOk;
      hide NoNewForeign, Guarantee, CachedOk, OtherRuns;
      hide Base, OwnOk, AllOk, Rely, SameOthers, Servers, Pools, Monitors, Converged, LoadBalancerService.Ready, Balanced;
      ghost var lease, stake;
      first, r, lease, stake := EnsureLoadBalancer(service, nodes);
      if !r.Done? {
        return None, None, r;
      }
      ghost var own := OwnServers(KeyOf(service));
      again, r := EnsureAgain(service.(statusIp := first.value), nodes);
      assert own[0] in own;
    }
  }
}
