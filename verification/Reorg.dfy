/** Collection of what services that no longer exist left behind. */
module Reorg {
  import opened Results
  import opened Tags
  import opened Names
  import opened Members
  import opened Resources
  import opened BrokerState
  import opened Ownership
  import opened Broker
  import opened Access
  import opened LbServices
  import opened Addressing
  import opened Moves
  import opened Observed
  import opened Reconciler
  import opened Provider
  import opened Workload

  /** A service in the Kubernetes listing. */
  datatype KubeItem = KubeItem(name: ObjectName, isLoadBalancer: bool)

  /** The service an object is tagged with, as the collection reads the tag. */
  function TaggedName(tags: seq<Tag>): Option<ObjectName>
  {
    ParseObjectName(GetTag(tags, SCOPE_SERVICE))
  }

  ghost predicate Tagged<T>(s: seq<Resource<T>>, n: ObjectName)
  {
    exists x :: x in s && TaggedName(x.tags) == Some(n)
  }

  /** A service tag that cannot be split, on which the process panics. */
  predicate BadTag(tags: seq<Tag>)
  {
    var tag := GetTag(tags, SCOPE_SERVICE);
    tag != "" && '/' !in tag
  }

  /** It has a service tag, which is not empty, and in which there is no separator. */
  lemma BadTagExact(tags: seq<Tag>)
    ensures BadTag(tags) <==> exists tag :: Lookup(tags, "service") == Some(tag) && tag != "" && '/' !in tag
  {
    assert BadTag(tags) ==> Lookup(tags, "service") == Some(GetTag(tags, "service"));
  }

  ghost predicate HasBadTag(cfg: Config, st: Store)
  {
    || (exists x :: x in st.servers && CheckTags(x.tags, ClusterQuery(cfg)) && BadTag(x.tags))
    || (exists x :: x in st.pools && CheckTags(x.tags, ClusterQuery(cfg)) && BadTag(x.tags))
    || (exists x :: x in TypedMonitors(Select(ClusterQuery(cfg), st.monitors)) && BadTag(x.tags))
  }

  /** The names of the services that have objects in the listing, added to those already known. */
  method AddNames<T(!new)>(s: seq<Resource<T>>, lbs: set<ObjectName>) returns (r: Result<set<ObjectName>>)
    ensures r.Ok? <==> forall x :: x in s ==> !BadTag(x.tags)
    ensures r.Ok? ==> forall n :: n in r.value <==> n in lbs || Tagged(s, n)
    ensures r.Err? ==> r.error == BadServiceTag
  {
    var names := lbs;
    for i := 0 to |s|
      invariant forall n :: n in names <==> n in lbs || Tagged(s[..i], n)
      invariant forall x :: x in s[..i] ==> !BadTag(x.tags)
    {
      assert s[..i + 1] == s[..i] + [s[i]];
      var tag := GetTag(s[i].tags, SCOPE_SERVICE);
      if tag != "" {
        var parsed := ParseObjectName(tag);
        if parsed.None? {
          assert s[i] in s && BadTag(s[i].tags);
          return Err(BadServiceTag);
        }
        names := names + {parsed.value};
      }
    }
    assert s[..|s|] == s;
    r := Ok(names);
  }

  /** The objects of a service with a valid name give its name away. */
  lemma OwnTagged<T(!new)>(cfg: Config, own: seq<Resource<T>>, listed: seq<Resource<T>>, n: ObjectName)
    requires ValidName(n) && own != []
    requires forall x :: x in own ==> CheckTags(x.tags, Query(cfg, Print(n))) && x in listed
    ensures Tagged(listed, n)
  {
    var x := own[0];
    assert x in own;
    QueryTags(cfg, Print(n), x.tags);
    ParsePrint(n);
    assert x in listed && TaggedName(x.tags) == Some(n);
  }

  lemma TaggedIsValid<T(!new)>(s: seq<Resource<T>>, n: ObjectName)
    requires Tagged(s, n)
    ensures ValidName(n)
  {
    var x :| x in s && TaggedName(x.tags) == Some(n);
    ParsedIsValid(GetTag(x.tags, SCOPE_SERVICE));
  }

  ghost predicate NothingOf(cfg: Config, st: Store, n: ObjectName)
  {
    Servers(cfg, Print(n), st) == [] && Pools(cfg, Print(n), st) == [] && Monitors(cfg, Print(n), st) == []
  }

  ghost predicate Exists(items: seq<KubeItem>, n: ObjectName)
  {
    exists item :: item in items && item.isLoadBalancer && item.name == n
  }

  /** A service that is not in the Kubernetes listing. */
  ghost predicate Unlisted(items: seq<KubeItem>, n: ObjectName)
  {
    ValidName(n) && !Exists(items, n)
  }

  ghost predicate UnlistedKey(items: seq<KubeItem>, key: string)
  {
    exists n :: Unlisted(items, n) && Print(n) == key
  }

  lemma ListedKey(items: seq<KubeItem>, n: ObjectName)
    requires ValidName(n)
    ensures UnlistedKey(items, Print(n)) <==> !Exists(items, n)
  {
    if u :| Unlisted(items, u) && Print(u) == Print(n) {
      PrintInjective(u, n);
    }
    assert !Exists(items, n) ==> Unlisted(items, n);
  }

  /** What the collection assumes of the runs beside it: they work for listed services as they like, and for an unlisted
      one they only delete, and not while the collection works for it. */
  ghost predicate CanCollect(p: LbProvider, items: seq<KubeItem>)
    reads p.lb, p.lb.access.broker
  {
    p.lb.access.ListReady() &&
    forall n :: Unlisted(items, n) ==> p.Ready(Print(n)) && p.lb.access.broker.OnlyDeleted(p.Cfg(), Print(n))
  }

  /** Since `before`, whatever no other run works for is the same, unless it belongs to an unlisted service. */
  ghost predicate ListedAsideAt(p: LbProvider, items: seq<KubeItem>, before: Store, now: Store)
  {
    && (forall key :: p.lb.access.broker.Unshared(p.Cfg(), key) && !UnlistedKey(items, key) ==>
                        Rely(p.Cfg(), key, false, before, now))
    && (p.lb.access.broker.Alone() ==> ElsewhereSame(p.Cfg(), before, now))
  }

  ghost predicate ListedAside(p: LbProvider, items: seq<KubeItem>, before: Store)
    reads p.lb.access.broker
  {
    ListedAsideAt(p, items, before, p.Now())
  }

  lemma AsideTransitive(p: LbProvider, items: seq<KubeItem>, before: Store, mid: Store)
    requires ListedAsideAt(p, items, before, mid) && ListedAside(p, items, mid)
    ensures ListedAside(p, items, before)
  {
    hide Rely, InMemoryBroker.Unshared, InMemoryBroker.Alone, UnlistedKey, ElsewhereSame;
    if p.lb.access.broker.Alone() {
      ElsewhereTransitive(p.Cfg(), before, mid, p.Now());
    }
    forall key | p.lb.access.broker.Unshared(p.Cfg(), key) && !UnlistedKey(items, key)
      ensures Rely(p.Cfg(), key, false, before, p.Now())
    {
      RelyTransitive(p.Cfg(), key, before, mid, p.Now());
    }
  }

  /** The log was extended by the runs for unlisted services. */
  ghost predicate OnlyUnlisted(items: seq<KubeItem>, log0: seq<Event>, log: seq<Event>)
  {
    log0 <= log && forall i :: |log0| <= i < |log| ==> UnlistedKey(items, log[i].run)
  }

  lemma OwnWrites(items: seq<KubeItem>, name: ObjectName, log0: seq<Event>, log1: seq<Event>, log: seq<Event>)
    requires Unlisted(items, name) && OnlyUnlisted(items, log0, log1) && Extends(Print(name), log1, log)
    ensures OnlyUnlisted(items, log0, log)
  {
    hide OtherRuns, Unlisted;
    ExtendedByOwn(Print(name), log1, log);
    assert UnlistedKey(items, Print(name));
  }

  /** After the others took their turn the run for `key` is ready again. */
  lemma ReadyAgain(p: LbProvider, key: string, before: Store)
    requires Good(p.Cfg(), key, p.lb.lbServiceID, p.lb.access.broker.log, before)
    requires Base(p.Cfg(), p.Now()) && Dwindles(p.Cfg(), key, before, p.Now())
    requires p.lb.access.broker.EnvOk(p.Cfg(), key) && p.lb.access.broker.Chained()
    requires p.lb.access.broker.monitorType == TCP_MONITOR_TYPE
    requires p.lb.managed == p.Cfg().managed && p.lb.OthersIdOk()
    ensures p.Ready(key) && FewerOwn(p.Cfg(), key, before, p.Now())
  {
    hide Base, OwnOk, AllOk, Rely, CachedOk, NoNewForeign, FewerOwn, InMemoryBroker.EnvOk, InMemoryBroker.ChainedAt,
      LoadBalancerService.OthersIdOk;
    CachedStays(p.Cfg(), before, p.Now(), p.lb.lbServiceID);
  }

  lemma ReadyMeans(p: LbProvider, key: string)
    requires p.Ready(key)
    ensures Good(p.Cfg(), key, p.lb.lbServiceID, p.lb.access.broker.log, p.Now())
    ensures p.lb.access.broker.EnvOk(p.Cfg(), key)
    ensures p.lb.access.broker.monitorType == TCP_MONITOR_TYPE
    ensures p.lb.managed == p.Cfg().managed && p.lb.OthersIdOk()
  {
    hide Base, OwnOk, AllOk, CachedOk, InMemoryBroker.EnvOk, InMemoryBroker.ChainedAt, LoadBalancerService.OthersIdOk;
  }

  /** A name that none of the three listings gives away has no objects at all. */
  lemma NothingCollected(cfg: Config, n: ObjectName, at1: Store, at2: Store, at3: Store)
    requires ValidName(n) && OwnOk(cfg, Print(n), at3)
    requires FewerOwn(cfg, Print(n), at1, at3) && FewerOwn(cfg, Print(n), at2, at3)
    requires var q := ClusterQuery(cfg);
             !Tagged(Select(q, at1.servers), n) && !Tagged(Select(q, at2.pools), n) &&
             !Tagged(TypedMonitors(Select(q, at3.monitors)), n)
    ensures NothingOf(cfg, at3, n)
  {
    hide OwnOk, CheckTags, Tagged, ValidName;
    var key, q := Print(n), ClusterQuery(cfg);
    forall tags ensures CheckTags(tags, Query(cfg, key)) ==> CheckTags(tags, q) {
      QueryTags(cfg, key, tags);
    }
    OwnMonitors(cfg, key, at3);
    var vs, ps := Servers(cfg, key, at3), Pools(cfg, key, at3);
    assert vs != [] ==> vs[0] in vs;
    assert ps != [] ==> ps[0] in ps;
    if Servers(cfg, key, at1) != [] {
      OwnTagged(cfg, Servers(cfg, key, at1), Select(q, at1.servers), n);
    }
    if Pools(cfg, key, at2) != [] {
      OwnTagged(cfg, Pools(cfg, key, at2), Select(q, at2.pools), n);
    }
    if Monitors(cfg, key, at3) != [] {
      OwnTagged(cfg, Monitors(cfg, key, at3), TypedMonitors(Select(q, at3.monitors)), n);
    }
  }

  ghost predicate AllValid(lbs: set<ObjectName>)
  {
    forall n :: n in lbs ==> ValidName(n)
  }

  /** Adds the names of one listing. */
  method AddValidNames<T(!new)>(s: seq<Resource<T>>, lbs: set<ObjectName>) returns (r: Result<set<ObjectName>>)
    requires AllValid(lbs)
    ensures r.Ok? <==> forall x :: x in s ==> !BadTag(x.tags)
    ensures r.Ok? ==> AllValid(r.value) && forall n :: n in r.value <==> n in lbs || Tagged(s, n)
    ensures r.Err? ==> r.error == BadServiceTag
  {
    hide BadTag, Tagged, ValidName;
    r := AddNames(s, lbs);
    if r.Ok? {
      forall n | n in r.value ensures ValidName(n) {
        if Tagged(s, n) {
          TaggedIsValid(s, n);
        }
      }
    }
  }

  // ---------------------------------------------------------------- the three listings

  ghost predicate FewerForUnlisted(cfg: Config, items: seq<KubeItem>, before: Store, now: Store)
  {
    forall n :: Unlisted(items, n) ==> FewerOwn(cfg, Print(n), before, now)
  }

  lemma UnlistedTransitive(cfg: Config, items: seq<KubeItem>, before: Store, mid: Store, now: Store)
    requires FewerForUnlisted(cfg, items, before, mid) && FewerForUnlisted(cfg, items, mid, now)
    ensures FewerForUnlisted(cfg, items, before, now)
  {
    hide FewerOwn, Unlisted;
    forall n | Unlisted(items, n) ensures FewerOwn(cfg, Print(n), before, now) {
      FewerTransitive(cfg, Print(n), before, mid, now);
    }
  }

  lemma FewerTransitive(cfg: Config, key: string, before: Store, mid: Store, now: Store)
    requires FewerOwn(cfg, key, before, mid) && FewerOwn(cfg, key, mid, now)
    ensures FewerOwn(cfg, key, before, now)
  {
    hide Servers, Pools, Monitors;
  }

  /** Nothing was written since, and what belongs to unlisted services has become no more. */
  ghost predicate Collecting(p: LbProvider, items: seq<KubeItem>, before: Store, log0: seq<Event>)
    reads p.lb, p.lb.access.broker
  {
    && CanCollect(p, items) && p.lb.access.broker.log == log0
    && FewerForUnlisted(p.Cfg(), items, before, p.Now()) && ListedAside(p, items, before)
    && (p.lb.access.broker.Alone() ==> p.Now() == before)
  }

  /** What `Ready` said in the state before. */
  ghost predicate Known(p: LbProvider, key: string, before: Store)
    reads p.lb, p.lb.access.broker
  {
    && Good(p.Cfg(), key, p.lb.lbServiceID, p.lb.access.broker.log, before)
    && p.lb.access.broker.EnvOk(p.Cfg(), key) && p.lb.access.broker.OnlyDeleted(p.Cfg(), key)
    && p.lb.access.broker.monitorType == TCP_MONITOR_TYPE && p.lb.managed == p.Cfg().managed && p.lb.OthersIdOk()
  }

  lemma AllKnown(p: LbProvider, items: seq<KubeItem>)
    requires CanCollect(p, items)
    ensures forall n :: Unlisted(items, n) ==> Known(p, Print(n), p.Now())
  {
    hide Good, Base, OwnOk, InMemoryBroker.EnvOk, InMemoryBroker.OnlyDeleted, LoadBalancerService.OthersIdOk, Unlisted,
      LbProvider.Ready;
    forall n | Unlisted(items, n) ensures Known(p, Print(n), p.Now()) {
      ReadyMeans(p, Print(n));
    }
  }

  lemma CollectingStarts(p: LbProvider, items: seq<KubeItem>)
    requires CanCollect(p, items)
    ensures Collecting(p, items, p.Now(), p.lb.access.broker.log)
  {
    hide Rely, InMemoryBroker.Unshared, InMemoryBroker.Alone, UnlistedKey, CanCollect, Servers, Pools, Monitors, ElsewhereSame;
    ElsewhereReflexive(p.Cfg(), p.Now());
    forall key ensures Rely(p.Cfg(), key, false, p.Now(), p.Now()) {
      RelyReflexive(p.Cfg(), key, false, p.Now());
    }
  }

  /** A listing found what the other runs left. */
  lemma StillCollecting(p: LbProvider, items: seq<KubeItem>, before: Store, mid: Store, log0: seq<Event>)
    requires p.lb.access.broker.Moved(p.Cfg(), None, false, mid, p.Now()) && p.lb.access.ListReady()
    requires forall n :: Unlisted(items, n) ==> Known(p, Print(n), mid)
    requires FewerForUnlisted(p.Cfg(), items, before, mid) && (p.lb.access.broker.Alone() ==> mid == before)
    requires ListedAsideAt(p, items, before, mid) && p.lb.access.broker.log == log0
    ensures Collecting(p, items, before, log0) && FewerForUnlisted(p.Cfg(), items, mid, p.Now())
  {
    hide Base, OwnOk, AllOk, Rely, Dwindles, CachedOk, InMemoryBroker.EnvOk, InMemoryBroker.Alone, InMemoryBroker.ChainedAt,
      InMemoryBroker.Unshared, InMemoryBroker.OnlyDeleted, LoadBalancerService.OthersIdOk, Unlisted, UnlistedKey,
      LbProvider.Ready, FewerOwn, InMemoryBroker.KeepsBase, ElsewhereSame;
    ElsewhereReflexive(p.Cfg(), p.Now());
    forall n | Unlisted(items, n) ensures p.Ready(Print(n)) && FewerOwn(p.Cfg(), Print(n), mid, p.Now()) {
      assert Known(p, Print(n), mid) && p.lb.access.broker.Apart(p.Cfg(), Print(n), false, mid, p.Now());
      ReadyAgain(p, Print(n), mid);
    }
    UnlistedTransitive(p.Cfg(), items, before, mid, p.Now());
    forall key ensures p.lb.access.broker.Unshared(p.Cfg(), key) ==> Rely(p.Cfg(), key, false, mid, p.Now()) {
      assert p.lb.access.broker.Apart(p.Cfg(), key, false, mid, p.Now());
    }
    AsideTransitive(p, items, before, mid);
  }

  lemma MovedKeepsBase(p: LbProvider, before: Store)
    requires p.lb.access.broker.Moved(p.Cfg(), None, false, before, p.Now())
    ensures Base(p.Cfg(), p.Now())
  {
  }

  method ListServers(p: LbProvider, ghost items: seq<KubeItem>, ghost before: Store, ghost log0: seq<Event>)
    returns (r: Result<seq<VirtualServer>>)
    requires Collecting(p, items, before, log0)
    modifies p.lb.access.broker
    ensures Collecting(p, items, before, log0) && FewerForUnlisted(p.Cfg(), items, old(p.Now()), p.Now())
    ensures r.Ok? ==> r.value == Select(ClusterQuery(p.Cfg()), p.Now().servers)
    ensures r.Ok? ==> p.lb.access.broker.failures == old(p.lb.access.broker.failures)
    ensures r.Err? ==> p.lb.access.broker.failures > old(p.lb.access.broker.failures)
  {
    hide InMemoryBroker.EnvOk, InMemoryBroker.Alone, InMemoryBroker.ChainedAt, InMemoryBroker.KeepsBase, InMemoryBroker.Moved;
    hide Base, Unlisted, UnlistedKey, Rely, LbProvider.Ready, FewerForUnlisted, Good, TypedMonitors,
      LoadBalancerService.OthersIdOk;
    ghost var mid := p.Now();
    AllKnown(p, items);
    ghost var at;
    r, at := p.lb.access.ListVirtualServers();
    MovedKeepsBase(p, mid);
    StillCollecting(p, items, before, mid, log0);
  }

  method ListPools(p: LbProvider, ghost items: seq<KubeItem>, ghost before: Store, ghost log0: seq<Event>)
    returns (r: Result<seq<Pool>>)
    requires Collecting(p, items, before, log0)
    modifies p.lb.access.broker
    ensures Collecting(p, items, before, log0) && FewerForUnlisted(p.Cfg(), items, old(p.Now()), p.Now())
    ensures r.Ok? ==> r.value == Select(ClusterQuery(p.Cfg()), p.Now().pools)
    ensures r.Ok? ==> p.lb.access.broker.failures == old(p.lb.access.broker.failures)
    ensures r.Err? ==> p.lb.access.broker.failures > old(p.lb.access.broker.failures)
  {
    hide InMemoryBroker.EnvOk, InMemoryBroker.Alone, InMemoryBroker.ChainedAt, InMemoryBroker.KeepsBase, InMemoryBroker.Moved;
    hide Base, Unlisted, UnlistedKey, Rely, LbProvider.Ready, FewerForUnlisted, Good, TypedMonitors,
      LoadBalancerService.OthersIdOk;
    ghost var mid := p.Now();
    AllKnown(p, items);
    ghost var at;
    r, at := p.lb.access.ListPools();
    MovedKeepsBase(p, mid);
    StillCollecting(p, items, before, mid, log0);
  }

  method ListMonitors(p: LbProvider, ghost items: seq<KubeItem>, ghost before: Store, ghost log0: seq<Event>)
    returns (r: Result<seq<Monitor>>)
    requires Collecting(p, items, before, log0)
    modifies p.lb.access.broker
    ensures Collecting(p, items, before, log0) && FewerForUnlisted(p.Cfg(), items, old(p.Now()), p.Now())
    ensures r.Ok? ==> r.value == TypedMonitors(Select(ClusterQuery(p.Cfg()), p.Now().monitors))
    ensures r.Ok? ==> p.lb.access.broker.failures == old(p.lb.access.broker.failures)
    ensures r.Err? ==> p.lb.access.broker.failures > old(p.lb.access.broker.failures)
  {
    hide InMemoryBroker.EnvOk, InMemoryBroker.Alone, InMemoryBroker.ChainedAt, InMemoryBroker.KeepsBase, InMemoryBroker.Moved;
    hide Base, Unlisted, UnlistedKey, Rely, LbProvider.Ready, FewerForUnlisted, Good, TypedMonitors,
      LoadBalancerService.OthersIdOk;
    ghost var mid := p.Now();
    AllKnown(p, items);
    ghost var at;
    r, at := p.lb.access.ListTCPMonitorLight();
    MovedKeepsBase(p, mid);
    StillCollecting(p, items, before, mid, log0);
  }

  lemma BadTagSeen(cfg: Config, st: Store)
    ensures var q := ClusterQuery(cfg);
            HasBadTag(cfg, st) <==>
              (exists x :: x in Select(q, st.servers) && BadTag(x.tags)) ||
              (exists x :: x in Select(q, st.pools) && BadTag(x.tags)) ||
              (exists x :: x in TypedMonitors(Select(q, st.monitors)) && BadTag(x.tags))
  {
    hide CheckTags, BadTag;
  }

  /** The names of all services with servers, pools or monitors at the broker: of the unlisted ones none is missed,
      whatever the runs for listed services write, and others delete, between the listings. */
  method CollectNames(p: LbProvider, ghost items: seq<KubeItem>) returns (r: Result<set<ObjectName>>)
    requires CanCollect(p, items)
    modifies p.lb.access.broker
    ensures Collecting(p, items, old(p.Now()), old(p.lb.access.broker.log))
    ensures r.Ok? ==> AllValid(r.value) && forall n :: Unlisted(items, n) && n !in r.value ==> NothingOf(p.Cfg(), p.Now(), n)
    ensures r.Ok? && p.lb.access.broker.Alone() ==> !HasBadTag(p.Cfg(), old(p.Now()))
    ensures r.Ok? ==> p.lb.access.broker.failures == old(p.lb.access.broker.failures)
    ensures r.Err? ==> p.lb.access.broker.failures > old(p.lb.access.broker.failures) ||
                       (r.error == BadServiceTag && (p.lb.access.broker.Alone() ==> HasBadTag(p.Cfg(), old(p.Now()))))
    ensures p.lb.access.broker.failures >= old(p.lb.access.broker.failures)
  {
    hide InMemoryBroker.EnvOk, InMemoryBroker.Alone, InMemoryBroker.ChainedAt;
    hide BadTag, Tagged, Unlisted, AllValid, NothingOf, TypedMonitors, CanCollect, ListedAsideAt, HasBadTag, Select,
      FewerForUnlisted;
    ghost var st0, log0 := p.Now(), p.lb.access.broker.log;
    CollectingStarts(p, items);
    BadTagSeen(p.Cfg(), st0);
    NoNames();
    var servers := ListServers(p, items, st0, log0);
    ghost var at1 := p.Now();
    if servers.Err? {
      return Err(servers.error);
    }
    r := AddValidNames(servers.value, {});
    if r.Err? {
      return;
    }
    var pools := ListPools(p, items, st0, log0);
    ghost var at2 := p.Now();
    if pools.Err? {
      return Err(pools.error);
    }
    r := AddValidNames(pools.value, r.value);
    if r.Err? {
      return;
    }
    var monitors := ListMonitors(p, items, st0, log0);
    if monitors.Err? {
      return Err(monitors.error);
    }
    r := AddValidNames(monitors.value, r.value);
    if r.Ok? {
      AllCollected(p, items, r.value, at1, at2);
    }
  }

  lemma NoNames()
    ensures AllValid({})
  {
  }

  lemma AllCollected(p: LbProvider, items: seq<KubeItem>, lbs: set<ObjectName>, at1: Store, at2: Store)
    requires CanCollect(p, items)
    requires FewerForUnlisted(p.Cfg(), items, at1, at2) && FewerForUnlisted(p.Cfg(), items, at2, p.Now())
    requires var q := ClusterQuery(p.Cfg());
             forall n :: n !in lbs ==>
               !Tagged(Select(q, at1.servers), n) && !Tagged(Select(q, at2.pools), n) &&
               !Tagged(TypedMonitors(Select(q, p.Now().monitors)), n)
    ensures forall n :: Unlisted(items, n) && n !in lbs ==> NothingOf(p.Cfg(), p.Now(), n)
  {
    hide Tagged, Select, TypedMonitors, NothingOf, FewerOwn, InMemoryBroker.EnvOk, Base, OwnOk, AllOk, CachedOk, Exists,
      InMemoryBroker.OnlyDeleted,
      LoadBalancerService.OthersIdOk;
    UnlistedTransitive(p.Cfg(), items, at1, at2, p.Now());
    forall n | Unlisted(items, n) && n !in lbs ensures NothingOf(p.Cfg(), p.Now(), n) {
      assert p.Ready(Print(n));
      NothingCollected(p.Cfg(), n, at1, at2, p.Now());
    }
  }

  /** The names of the listed services of type LoadBalancer. */
  method LoadBalancerNames(items: seq<KubeItem>) returns (services: set<ObjectName>)
    ensures forall n :: n in services <==> Exists(items, n)
  {
    services := {};
    for i := 0 to |items|
      invariant forall n :: n in services <==> Exists(items[..i], n)
    {
      assert items[..i + 1] == items[..i] + [items[i]];
      if items[i].isLoadBalancer {
        services := services + {items[i].name};
      }
    }
    assert items[..|items|] == items;
  }

  // ---------------------------------------------------------------- the collection

  /** Deletes what is left of every service that is not listed. Beside it runs for listed services may write, and others
      for unlisted ones may delete: its own writes are by runs for unlisted services alone, and leave alone whatever
      no other run works for. */
  method ReorgStep(p: LbProvider, listed: Result<seq<KubeItem>>) returns (r: Outcome)
    requires listed.Ok? ==> CanCollect(p, listed.value)
    modifies p.lb`lbServiceID, p.lb.access.broker
    ensures listed.Ok? ==> CanCollect(p, listed.value)
    ensures listed.Err? ==>
              r == Failed(listed.error) && p.Now() == old(p.Now()) && p.lb.access.broker.log == old(p.lb.access.broker.log)
    ensures listed.Ok? ==>
              && OnlyUnlisted(listed.value, old(p.lb.access.broker.log), p.lb.access.broker.log)
              && ListedAside(p, listed.value, old(p.Now()))
    ensures r.Done? ==> listed.Ok? && forall n :: Unlisted(listed.value, n) ==> NothingOf(p.Cfg(), p.Now(), n)
    ensures r.Done? ==> OnlyListedLeft(p.Cfg(), listed.value, p.Now())
    ensures listed.Ok? && p.lb.access.broker.Alone() ==> ElsewhereSame(p.Cfg(), old(p.Now()), p.Now())
    ensures r.Done? ==>
              forall n :: ValidName(n) && (Exists(listed.value, n) ==> p.lb.access.broker.Unshared(p.Cfg(), Print(n))) ==>
                          (SameOwn(p.Cfg(), Print(n), old(p.Now()), p.Now()) <==>
                            Exists(listed.value, n) || NothingOf(p.Cfg(), old(p.Now()), n))
    ensures listed.Ok? && !r.Done? ==>
              || p.lb.access.broker.failures > old(p.lb.access.broker.failures)
              || r == Failed(NotFound) || r == Failed(BadServiceTag)
    ensures listed.Ok? && p.CalmSince(old(p.lb.access.broker.failures)) ==> (r.Done? <==> !HasBadTag(p.Cfg(), old(p.Now())))
    ensures listed.Ok? && p.CalmSince(old(p.lb.access.broker.failures)) && Balanced(p.Cfg(), old(p.Now()), None) ==>
              Balanced(p.Cfg(), p.Now(), None)
  {
    hide InMemoryBroker.EnvOk, InMemoryBroker.Alone, InMemoryBroker.ChainedAt;
    hide OnlyListedLeft, ElsewhereSame;
    hide HasBadTag, Balanced, SameOthers, Servers, Pools, Monitors, UnlistedKey, CanCollect, NothingOf,
      FewerForUnlisted, Rely, SameOwn, Exists, ValidName;
    if listed.Err? {
      return Failed(listed.error);
    }
    ghost var items, st0, log0, failures0 := listed.value, p.Now(), p.lb.access.broker.log, p.lb.access.broker.failures;
    var services := LoadBalancerNames(listed.value);
    var collected := CollectNames(p, items);
    if collected.Err? {
      return Failed(collected.error);
    }
    var lbs := collected.value;
    var left := lbs;
    while left != {}
      invariant left <= lbs && Collected(p, items, left, st0, log0)
      invariant p.lb.access.broker.failures >= failures0
      invariant p.CalmSince(failures0) && Balanced(p.Cfg(), st0, None) ==> Balanced(p.Cfg(), p.Now(), None)
      decreases left
    {
      var lb :| lb in left;
      assert left - {lb} + {lb} == left;
      left := left - {lb};
      if lb !in services {
        r := DeleteArtefacts(p, lb, items, left, st0, log0);
        if !r.Done? {
          return;
        }
      } else {
        ListedSkipped(p, items, left, lb, st0, log0);
      }
    }
    CollectedExactly(p, items, st0);
    OnlyListedExact(p.Cfg(), items, p.Now());
    r := Done;
  }

  /** The unlisted services whose names are not in `left` have nothing left. */
  ghost predicate Collected(p: LbProvider, items: seq<KubeItem>, left: set<ObjectName>, before: Store, log0: seq<Event>)
    reads p.lb, p.lb.access.broker
  {
    && CanCollect(p, items) && OnlyUnlisted(items, log0, p.lb.access.broker.log) && ListedAside(p, items, before)
    && forall n :: Unlisted(items, n) && n !in left ==> NothingOf(p.Cfg(), p.Now(), n)
  }

  lemma ListedSkipped(p: LbProvider, items: seq<KubeItem>, left: set<ObjectName>, lb: ObjectName, before: Store, log0: seq<Event>)
    requires Collected(p, items, left + {lb}, before, log0) && Exists(items, lb)
    ensures Collected(p, items, left, before, log0)
  {
    hide CanCollect, NothingOf, OnlyUnlisted, ListedAsideAt;
  }

  /** What is left at the broker of services with valid names belongs to services of type LoadBalancer in the listing. */
  ghost predicate OnlyListedLeft(cfg: Config, items: seq<KubeItem>, st: Store)
  {
    forall n: ObjectName :: '/' !in n.namespace && '/' !in n.name && KubeItem(n, true) !in items ==> NothingLeft(cfg, n, st)
  }

  lemma OnlyListedExact(cfg: Config, items: seq<KubeItem>, st: Store)
    ensures OnlyListedLeft(cfg, items, st) <==> forall n :: Unlisted(items, n) ==> NothingOf(cfg, st, n)
  {
    hide NothingLeft, Servers, Pools, Monitors;
    forall n: ObjectName
      ensures NothingLeft(cfg, n, st) <==> NothingOf(cfg, st, n)
      ensures Exists(items, n) <==> KubeItem(n, true) in items
    {
      NothingLeftExact(cfg, n, st);
    }
  }

  /** Afterwards exactly those services have other objects than before that are not listed and had some. */
  lemma CollectedExactly(p: LbProvider, items: seq<KubeItem>, before: Store)
    requires ListedAside(p, items, before)
    requires forall n :: Unlisted(items, n) ==> NothingOf(p.Cfg(), p.Now(), n)
    ensures forall n :: ValidName(n) && (Exists(items, n) ==> p.lb.access.broker.Unshared(p.Cfg(), Print(n))) ==>
              (SameOwn(p.Cfg(), Print(n), before, p.Now()) <==> Exists(items, n) || NothingOf(p.Cfg(), before, n))
  {
    hide InMemoryBroker.Unshared, Servers, Pools, Monitors, Rely, ValidName, Exists, UnlistedKey;
    forall n | ValidName(n) && (Exists(items, n) ==> p.lb.access.broker.Unshared(p.Cfg(), Print(n)))
      ensures SameOwn(p.Cfg(), Print(n), before, p.Now()) <==> Exists(items, n) || NothingOf(p.Cfg(), before, n)
    {
      ListedKey(items, n);
      if Exists(items, n) {
        AfterTurn(p.Cfg(), Print(n), false, before, p.Now());
      } else {
        assert Unlisted(items, n);
      }
    }
  }

  /** The deletion run for a service that only its objects still name. */
  method DeleteArtefacts(p: LbProvider, name: ObjectName, ghost items: seq<KubeItem>, ghost left: set<ObjectName>,
                         ghost before: Store, ghost log0: seq<Event>)
    returns (r: Outcome)
    requires Collected(p, items, left + {name}, before, log0) && Unlisted(items, name)
    modifies p.lb`lbServiceID, p.lb.access.broker
    ensures CanCollect(p, items) && OnlyUnlisted(items, log0, p.lb.access.broker.log) && ListedAside(p, items, before)
    ensures r.Done? ==> Collected(p, items, left, before, log0)
    ensures forall n :: Unlisted(items, n) && n != name ==> FewerOwn(p.Cfg(), Print(n), old(p.Now()), p.Now())
    ensures !r.Done? ==> p.lb.access.broker.failures > old(p.lb.access.broker.failures) || r == Failed(NotFound)
    ensures p.CalmSince(old(p.lb.access.broker.failures)) ==> r.Done?
    ensures p.lb.access.broker.failures >= old(p.lb.access.broker.failures)
    ensures p.CalmSince(old(p.lb.access.broker.failures)) && Balanced(p.Cfg(), old(p.Now()), None) ==>
              Balanced(p.Cfg(), p.Now(), None)
  {
    hide InMemoryBroker.EnvOk, InMemoryBroker.Alone, InMemoryBroker.ChainedAt, InMemoryBroker.AsideBetween,
      InMemoryBroker.KeepsBase;
    hide Balanced, SameOthers, Servers, Pools, Monitors, Unlisted, UnlistedKey, ListedAsideAt, FewerOwn, Rely, Good, Base,
      Extends, LbProvider.Ready, LoadBalancerService.OthersIdOk, Exists, InMemoryBroker.OnlyDeleted;
    var service := KubeService(name, [], "", None);
    ghost var st0, log1 := p.Now(), p.lb.access.broker.log;
    AllOwned(p, items);
    ghost var lease, stake;
    r, lease, stake := p.EnsureLoadBalancerDeleted(service);
    OwnWrites(items, name, log0, log1, p.lb.access.broker.log);
    AfterDeletion(p, items, name, st0);
    AsideTransitive(p, items, before, st0);
    if r.Done? {
      StillNothing(p.Cfg(), items, name, left, st0, p.Now());
    }
  }

  lemma AllOwned(p: LbProvider, items: seq<KubeItem>)
    requires CanCollect(p, items)
    ensures forall n :: Unlisted(items, n) ==>
              && p.Ready(Print(n)) && p.lb.access.broker.EnvOk(p.Cfg(), Print(n))
              && p.lb.access.broker.OnlyDeleted(p.Cfg(), Print(n)) && OwnOk(p.Cfg(), Print(n), p.Now())
  {
    hide Base, OwnOk, AllOk, CachedOk, InMemoryBroker.EnvOk, InMemoryBroker.OnlyDeleted, InMemoryBroker.ChainedAt,
      LoadBalancerService.OthersIdOk, Unlisted;
  }

  /** After a run for one unlisted service those for the others are ready as before. */
  lemma AfterDeletion(p: LbProvider, items: seq<KubeItem>, name: ObjectName, before: Store)
    requires p.Ready(Print(name)) && Unlisted(items, name) && p.lb.access.broker.KeepsBase(p.Cfg(), None)
    requires p.lb.access.broker.OthersAside(p.Cfg(), Print(name), before)
    requires forall n :: Unlisted(items, n) ==>
               && p.lb.access.broker.EnvOk(p.Cfg(), Print(n)) && p.lb.access.broker.OnlyDeleted(p.Cfg(), Print(n))
               && OwnOk(p.Cfg(), Print(n), before)
    ensures CanCollect(p, items) && ListedAside(p, items, before)
    ensures forall n :: Unlisted(items, n) && n != name ==> FewerOwn(p.Cfg(), Print(n), before, p.Now())
  {
    hide Base, OwnOk, AllOk, CachedOk, Rely, InMemoryBroker.EnvOk, InMemoryBroker.Alone, InMemoryBroker.ChainedAt,
      InMemoryBroker.KeepsBase, InMemoryBroker.OnlyDeleted, InMemoryBroker.Unshared, LoadBalancerService.OthersIdOk,
      SameOthers, Exists, ValidName, FewerOwn, NoNewForeign, ElsewhereSame;
    p.ElsewhereAside(Print(name), before);
    forall n | Unlisted(items, n) && n != name
      ensures p.Ready(Print(n)) && FewerOwn(p.Cfg(), Print(n), before, p.Now())
    {
      if Print(n) == Print(name) {
        PrintInjective(n, name);
      }
      assert p.lb.access.broker.Apart(p.Cfg(), Print(n), false, before, p.Now());
    }
    assert UnlistedKey(items, Print(name));
    forall key | key != Print(name)
      ensures p.lb.access.broker.Unshared(p.Cfg(), key) ==> Rely(p.Cfg(), key, false, before, p.Now())
    {
      assert p.lb.access.broker.Apart(p.Cfg(), key, false, before, p.Now());
    }
  }

  lemma StillNothing(cfg: Config, items: seq<KubeItem>, name: ObjectName, left: set<ObjectName>, before: Store, now: Store)
    requires NothingOf(cfg, now, name)
    requires forall n :: Unlisted(items, n) && n !in left + {name} ==> NothingOf(cfg, before, n)
    requires forall n :: Unlisted(items, n) && n != name ==> FewerOwn(cfg, Print(n), before, now)
    ensures forall n :: Unlisted(items, n) && n !in left ==> NothingOf(cfg, now, n)
  {
    hide Servers, Pools, Monitors, Unlisted, FewerOwn, NothingOf;
    forall n | Unlisted(items, n) && n !in left ensures NothingOf(cfg, now, n) {
      if n != name {
        NoneOfNothing(cfg, n, before, now);
      }
    }
  }

  lemma NoneOfNothing(cfg: Config, n: ObjectName, before: Store, now: Store)
    requires NothingOf(cfg, before, n) && FewerOwn(cfg, Print(n), before, now)
    ensures NothingOf(cfg, now, n)
  {
    hide Servers, Pools, Monitors;
    SomeOfNone(Servers(cfg, Print(n), now), Servers(cfg, Print(n), before));
    SomeOfNone(Pools(cfg, Print(n), now), Pools(cfg, Print(n), before));
    SomeOfNone(Monitors(cfg, Print(n), now), Monitors(cfg, Print(n), before));
  }

  // ---------------------------------------------------------------- a service that appears after the listing

  lemma CollectorReady(p: LbProvider, items: seq<KubeItem>)
    requires InOrder(p)
    ensures CanCollect(p, items)
    ensures forall n: ObjectName :: p.lb.access.broker.Unshared(p.Cfg(), Print(n))
  {
    hide Base, OwnOk, AllOk, CachedOk, InMemoryBroker.Alone, InMemoryBroker.ChainedAt, InMemoryBroker.EnvOk, Unlisted,
      InMemoryBroker.Unshared, InMemoryBroker.OnlyDeleted;
    forall n: ObjectName
      ensures p.Ready(Print(n)) && p.lb.access.broker.Unshared(p.Cfg(), Print(n)) &&
              p.lb.access.broker.OnlyDeleted(p.Cfg(), Print(n))
    {
      ReadyForAny(p, Print(n));
      NobodyElse(p, Print(n));
    }
    EverythingKept(p);
  }

  lemma NobodyElse(p: LbProvider, key: string)
    requires p.lb.access.broker.Alone()
    ensures p.lb.access.broker.Unshared(p.Cfg(), key) && p.lb.access.broker.OnlyDeleted(p.Cfg(), key)
  {
    hide Base, Rely, Dwindles;
    forall locked, st ensures Rely(p.Cfg(), key, locked, st, st) && Dwindles(p.Cfg(), key, st, st) {
      RelyReflexive(p.Cfg(), key, locked, st);
      RelyReflexive(p.Cfg(), key, false, st);
      RelyDwindles(p.Cfg(), key, st, st);
    }
  }

  lemma EverythingKept(p: LbProvider)
    requires InOrder(p)
    ensures p.lb.access.broker.KeepsBase(p.Cfg(), None)
  {
    hide Base, OwnOk, AllOk, CachedOk, InMemoryBroker.ChainedAt;
  }

  /** A service set up after the listing was taken keeps its servers exactly if the listing names it already. */
  method EnsuredAfterListing(p: LbProvider, service: KubeService, nodes: seq<Node>, items: seq<KubeItem>)
    returns (ensured: Outcome, collected: Outcome, ghost servers: seq<VirtualServer>)
    requires InOrder(p) && ValidName(service.name) && service.ports != []
    modifies p.lb`lbServiceID, p.lb.access.broker
    ensures ensured.Done? ==> servers != []
    ensures ensured.Done? && collected.Done? ==>
              && (p.OwnServers(KeyOf(service)) == servers <==> Exists(items, service.name))
              && (!Exists(items, service.name) ==> p.OwnServers(KeyOf(service)) == [])
  {
    hide Base, OwnOk, AllOk, CachedOk, InMemoryBroker.Alone, InMemoryBroker.ChainedAt, InMemoryBroker.EnvOk, Balanced, AllOwnOk,
      HasBadTag, OnlyUnlisted, ListedAsideAt, CanCollect, Exists, ValidName, Rely, SameOwn, NothingOf, Unlisted,
      InMemoryBroker.Unshared, Servers, Pools, Monitors, SameOthers,
      InMemoryBroker.AsideBetween, LoadBalancerService.OthersIdOk, LbProvider.Ready, Extends;
    var status;
    ghost var lease, stake;
    ghost var before := p.Now();
    ReadyForAny(p, KeyOf(service));
    status, ensured, lease, stake := p.EnsureLoadBalancer(service, nodes);
    servers, collected := p.OwnServers(KeyOf(service)), Done;
    InOrderAgain(p, KeyOf(service), before);
    CollectorReady(p, items);
    ghost var mid := p.Now();
    collected := ReorgStep(p, Ok(items));
    if ensured.Done? && collected.Done? {
      KeptExactly(p.Cfg(), items, service.name, mid, p.Now());
    }
  }

  lemma KeptExactly(cfg: Config, items: seq<KubeItem>, n: ObjectName, before: Store, now: Store)
    requires ValidName(n) && Servers(cfg, Print(n), before) != []
    requires SameOwn(cfg, Print(n), before, now) <==> Exists(items, n) || NothingOf(cfg, before, n)
    requires Unlisted(items, n) ==> NothingOf(cfg, now, n)
    ensures Servers(cfg, Print(n), now) == Servers(cfg, Print(n), before) <==> Exists(items, n)
    ensures !Exists(items, n) ==> Servers(cfg, Print(n), now) == []
  {
    hide Servers, Pools, Monitors, Exists, ValidName;
  }
}
