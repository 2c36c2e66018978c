/** Which objects belong to which Kubernetes service, what a run may assume, keep and change. */
module Ownership {
  import opened Results
  import opened Text
  import opened Tags
  import opened Names
  import opened Members
  import opened Resources
  import opened BrokerState

  datatype ConfigRecord = ConfigRecord(standardTags: TagMap, cluster: string, routerId: string, managed: bool)

  type Config = c: ConfigRecord | SCOPE_OWNER in c.standardTags
    witness ConfigRecord(map[SCOPE_OWNER := Tag(SCOPE_OWNER, "")], "", "", false)

  function OwnerTag(cfg: Config): Tag
  {
    cfg.standardTags[SCOPE_OWNER]
  }

  function ClusterQuery(cfg: Config): seq<Tag>
  {
    [OwnerTag(cfg), Tag(SCOPE_CLUSTER, cfg.cluster)]
  }

  /** The tags by which the objects of one Kubernetes service are listed; `key` is its printed name. */
  function Query(cfg: Config, key: string): seq<Tag>
  {
    [OwnerTag(cfg), Tag(SCOPE_CLUSTER, cfg.cluster), Tag(SCOPE_SERVICE, key)]
  }

  function Servers(cfg: Config, key: string, st: Store): seq<VirtualServer>
  {
    Select(Query(cfg, key), st.servers)
  }

  function Pools(cfg: Config, key: string, st: Store): seq<Pool>
  {
    Select(Query(cfg, key), st.pools)
  }

  function Monitors(cfg: Config, key: string, st: Store): seq<Monitor>
  {
    Select(Query(cfg, key), st.monitors)
  }

  lemma QueryTags(cfg: Config, key: string, tags: seq<Tag>)
    ensures CheckTags(tags, Query(cfg, key)) <==>
            CheckTags(tags, ClusterQuery(cfg)) && Lookup(tags, SCOPE_SERVICE) == Some(key)
  {
  }

  /** What the queries ask for, written out: the first tag of each scope has the right value. */
  lemma QueryExact(cfg: Config, key: string, tags: seq<Tag>)
    ensures CheckTags(tags, Query(cfg, key)) <==>
            && Lookup(tags, "owner") == Some(cfg.standardTags["owner"].value)
            && Lookup(tags, "cluster") == Some(cfg.cluster) && Lookup(tags, "service") == Some(key)
  {
    var q := Query(cfg, key);
    assert q[0] in q && q[1] in q && q[2] in q;
  }

  lemma ClusterQueryExact(cfg: Config, tags: seq<Tag>)
    ensures CheckTags(tags, ClusterQuery(cfg)) <==>
            && Lookup(tags, "owner") == Some(cfg.standardTags["owner"].value) && Lookup(tags, "cluster") == Some(cfg.cluster)
  {
    var q := ClusterQuery(cfg);
    assert q[0] in q && q[1] in q;
  }

  /** A controller for another cluster, or under another owner. */
  predicate Elsewhere(cfg: Config, other: Config)
  {
    other.cluster != cfg.cluster || other.standardTags["owner"].value != cfg.standardTags["owner"].value
  }

  lemma ElsewhereDisjoint(cfg: Config, key: string, other: Config, k: string, tags: seq<Tag>)
    requires Elsewhere(cfg, other)
    ensures !(CheckTags(tags, Query(cfg, key)) && CheckTags(tags, Query(other, k)))
  {
    QueryExact(cfg, key, tags);
    QueryExact(other, k, tags);
  }

  lemma TagsOf(owner: string, cluster: string) returns (tags: seq<Tag>)
    ensures Lookup(tags, "owner") == Some(owner) && Lookup(tags, "cluster") == Some(cluster)
    ensures Lookup(tags, "service") == Some("")
  {
    var last := [Tag("service", "")];
    var two := [Tag("cluster", cluster)] + last;
    tags := [Tag("owner", owner)] + two;
    assert tags[1..] == two && two[1..] == last;
    assert Lookup(last, "service") == Some("");
    assert Lookup(two, "service") == Some("") && Lookup(two, "cluster") == Some(cluster);
  }

  /** Which are exactly those none of whose objects can be ours. */
  lemma ElsewhereExact(cfg: Config, other: Config)
    ensures Elsewhere(cfg, other) <==>
            forall key, k, tags :: !(CheckTags(tags, Query(cfg, key)) && CheckTags(tags, Query(other, k)))
  {
    if Elsewhere(cfg, other) {
      forall key, k, tags ensures !(CheckTags(tags, Query(cfg, key)) && CheckTags(tags, Query(other, k))) {
        ElsewhereDisjoint(cfg, key, other, k, tags);
      }
    } else {
      var tags := TagsOf(cfg.standardTags["owner"].value, cfg.cluster);
      QueryExact(cfg, "", tags);
      QueryExact(other, "", tags);
      assert CheckTags(tags, Query(cfg, "")) && CheckTags(tags, Query(other, ""));
    }
  }

  lemma SelectElsewhere<T(!new)>(cfg: Config, key: string, other: Config, k: string,
                                 s: seq<Resource<T>>, s': seq<Resource<T>>)
    requires Elsewhere(cfg, other) && Reject(Query(cfg, key), s') == Reject(Query(cfg, key), s)
    ensures Select(Query(other, k), s') == Select(Query(other, k), s)
  {
    var q, o := Query(cfg, key), Query(other, k);
    forall x: Resource<T> ensures !(CheckTags(x.tags, o) && CheckTags(x.tags, q)) {
      ElsewhereDisjoint(cfg, key, other, k, x.tags);
    }
    SelectOfReject(q, o, s);
    SelectOfReject(q, o, s');
  }

  /** The objects of every service of every other cluster and owner are the same. */
  ghost predicate ElsewhereSame(cfg: Config, st: Store, st': Store)
  {
    forall other: Config, k :: Elsewhere(cfg, other) ==> SameOwn(other, k, st, st')
  }

  /** What leaves alone all that is not its own leaves alone what other clusters and owners have. */
  lemma OthersIncludeElsewhere(cfg: Config, key: string, st: Store, st': Store)
    requires SameOthers(cfg, key, st, st')
    ensures ElsewhereSame(cfg, st, st')
  {
    forall other: Config, k | Elsewhere(cfg, other) ensures SameOwn(other, k, st, st') {
      SelectElsewhere(cfg, key, other, k, st.servers, st'.servers);
      SelectElsewhere(cfg, key, other, k, st.pools, st'.pools);
      SelectElsewhere(cfg, key, other, k, st.monitors, st'.monitors);
    }
  }

  lemma ElsewhereReflexive(cfg: Config, st: Store)
    ensures ElsewhereSame(cfg, st, st)
  {
  }

  lemma ElsewhereTransitive(cfg: Config, st: Store, mid: Store, st': Store)
    requires ElsewhereSame(cfg, st, mid) && ElsewhereSame(cfg, mid, st')
    ensures ElsewhereSame(cfg, st, st')
  {
    hide Elsewhere, Servers, Pools, Monitors;
    forall other: Config, k | Elsewhere(cfg, other) ensures SameOwn(other, k, st, st') {
      SameOwnTransitive(other, k, st, mid, st');
    }
  }

  lemma QueriesDisjoint(cfg: Config, key: string, other: string, tags: seq<Tag>)
    requires key != other
    ensures !(CheckTags(tags, Query(cfg, key)) && CheckTags(tags, Query(cfg, other)))
  {
  }

  function PortOf(tags: seq<Tag>): string
  {
    GetTag(tags, SCOPE_PORT)
  }

  /** The port tag value that belongs to a server. */
  function ServerPort(v: VirtualServer): string
  {
    v.spec.ipProtocol + "/" + v.spec.port
  }

  predicate MatchVirtualServer(m: Mapping, v: VirtualServer)
  {
    v.spec.port == Format(m.sourcePort) && v.spec.ipProtocol == m.protocol
  }

  predicate MatchTags(m: Mapping, tags: seq<Tag>)
    ensures MatchTags(m, tags) <==> PortOf(tags) == PortValue(m)
  {
    assert PortValue(m)[|m.protocol|] == '/';
    assert PortTag(m) in [PortTag(m)];
    CheckTags(tags, [PortTag(m)])
  }

  predicate MatchNodePort(m: Mapping, v: VirtualServer)
  {
    v.spec.memberPort == Format(m.nodePort)
  }

  // ---------------------------------------------------------------- well-formed broker states

  ghost predicate Fresh<T>(kind: string, s: seq<Resource<T>>, n: nat)
  {
    forall r, j: nat :: r in s && j >= n ==> r.id != kind + Format(j)
  }

  ghost predicate IdsOk(st: Store)
  {
    && UniqueIds(st.services) && Fresh(SERVICE_ID, st.services, st.nextId)
    && UniqueIds(st.servers) && Fresh(SERVER_ID, st.servers, st.nextId)
    && UniqueIds(st.pools) && Fresh(POOL_ID, st.pools, st.nextId)
    && UniqueIds(st.monitors) && Fresh(MONITOR_ID, st.monitors, st.nextId)
  }

  ghost predicate AddressesOk(st: Store)
  {
    forall id :: id in st.ipPools ==> InRange(st.ipPools[id])
  }

  /** The searches for a load balancer service can return `svc`. */
  predicate Discoverable(cfg: Config, svc: LbService)
  {
    (cfg.routerId != "" && svc.spec.attachment == Some(cfg.routerId)) || CheckTags(svc.tags, ClusterQuery(cfg))
  }

  /** Every service the controller may attach to is one it would search for a detach. */
  predicate Covered(cfg: Config)
  {
    cfg.managed || cfg.routerId != ""
  }

  /** The id was given to a service, if at all, before the id counter reached `n`. */
  ghost predicate Issued(n: nat, id: string)
  {
    forall j: nat :: j >= n ==> id != SERVICE_ID + Format(j)
  }

  /** In managed mode the remembered id names, if anything, a service the detach search covers, now and later. */
  ghost predicate CachedOk(cfg: Config, services: seq<LbService>, nextId: nat, cached: string)
  {
    cfg.managed && cached != "" ==>
      Issued(nextId, cached) && forall svc :: svc in services && svc.id == cached ==> Discoverable(cfg, svc)
  }

  /** `v` is a server of ours, and `svc` has it attached. */
  predicate Attaches(cfg: Config, svc: LbService, v: VirtualServer)
  {
    v.id in svc.spec.virtualServerIds && CheckTags(v.tags, ClusterQuery(cfg))
  }

  /** No server id is attached twice, none dangles, and ours can be detached again. */
  ghost predicate AttachmentsOk(cfg: Config, st: Store)
  {
    && NoDuplicates(AllIds(st.services))
    && (forall id :: id in AllIds(st.services) ==> HasId(st.servers, id))
    && (forall svc, v :: svc in st.services && v in st.servers && Attaches(cfg, svc, v) ==> Discoverable(cfg, svc))
  }

  /** What every broker call, of whatever run, keeps. */
  ghost predicate Base(cfg: Config, st: Store)
  {
    IdsOk(st) && AddressesOk(st) && (Covered(cfg) ==> AttachmentsOk(cfg, st))
  }

  // ---------------------------------------------------------------- the objects of one service

  ghost predicate RefersToPool(v: VirtualServer, pools: seq<Pool>)
  {
    exists p :: p in pools && p.id == v.spec.poolId && PortOf(p.tags) == ServerPort(v)
  }

  ghost predicate RefersToMonitor(id: string, port: string, monitors: seq<Monitor>)
  {
    exists x :: x in monitors && x.id == id && PortOf(x.tags) == port
  }

  ghost predicate PoolRefersToMonitors(p: Pool, monitors: seq<Monitor>)
  {
    forall id :: id in p.spec.activeMonitorIds ==> RefersToMonitor(id, PortOf(p.tags), monitors)
  }

  predicate SamePort(v: VirtualServer, w: VirtualServer)
  {
    v.spec.port == w.spec.port && v.spec.ipProtocol == w.spec.ipProtocol
  }

  predicate SameAddress(v: VirtualServer, w: VirtualServer)
  {
    && v.spec.ipAddress == w.spec.ipAddress
    && GetTag(v.tags, SCOPE_LB_CLASS) == GetTag(w.tags, SCOPE_LB_CLASS)
    && GetTag(v.tags, SCOPE_IP_POOL) == GetTag(w.tags, SCOPE_IP_POOL)
  }

  ghost predicate ServersOk(servers: seq<VirtualServer>)
  {
    && (forall v, w :: v in servers && w in servers && SamePort(v, w) ==> v == w)
    && (forall v, w :: v in servers && w in servers ==> SameAddress(v, w))
    && (forall v :: v in servers ==> v.spec.ipAddress != "")
  }

  ghost predicate OnePerPort<T>(s: seq<Resource<T>>)
  {
    forall p, r :: p in s && r in s && PortOf(p.tags) == PortOf(r.tags) ==> p == r
  }

  /** Referential integrity and uniqueness of the objects of one service. */
  ghost predicate Consistent(servers: seq<VirtualServer>, pools: seq<Pool>, monitors: seq<Monitor>)
  {
    && ServersOk(servers) && OnePerPort(pools) && OnePerPort(monitors)
    && (forall v :: v in servers ==> RefersToPool(v, pools))
    && (forall p :: p in pools ==> PoolRefersToMonitors(p, monitors))
    && (forall p :: p in pools ==> DistinctAddresses(p.spec.members))
    && (forall m :: m in monitors ==> m.spec.resourceType == TCP_MONITOR_TYPE)
  }

  ghost predicate OwnOk(cfg: Config, key: string, st: Store)
  {
    Consistent(Servers(cfg, key, st), Pools(cfg, key, st), Monitors(cfg, key, st))
  }

  // ---------------------------------------------------------------- rely and guarantee

  /** A service that our searches do not cover was there before, or has a fresh id. */
  ghost predicate NoNewForeign(cfg: Config, st: Store, st': Store)
  {
    forall svc :: svc in st'.services && !Discoverable(cfg, svc) ==>
                    !Issued(st.nextId, svc.id) ||
                    exists w :: w in st.services && w.id == svc.id && !Discoverable(cfg, w)
  }

  lemma CachedStays(cfg: Config, st: Store, st': Store, cached: string)
    requires CachedOk(cfg, st.services, st.nextId, cached) && NoNewForeign(cfg, st, st') && st.nextId <= st'.nextId
    ensures CachedOk(cfg, st'.services, st'.nextId, cached)
  {
  }

  /** A run leaves the objects of every other service and cluster alone, and keeps the attached ids of
      other servers in their order. */
  ghost predicate Guarantee(cfg: Config, key: string, st: Store, st': Store)
  {
    var q := Query(cfg, key);
    var own := Ids(Select(q, st.servers));
    && st.nextId <= st'.nextId && NoNewForeign(cfg, st, st')
    && SameOthers(cfg, key, st, st')
    && (st'.services == st.services ||
        (st'.servers == st.servers && Drop(AllIds(st'.services), own) == Drop(AllIds(st.services), own)))
  }

  /** What a run may assume of the others; `locked` while it holds the load balancer service lock. */
  ghost predicate Rely(cfg: Config, key: string, locked: bool, st: Store, st': Store)
  {
    var own := Ids(Servers(cfg, key, st));
    && st.nextId <= st'.nextId && NoNewForeign(cfg, st, st')
    && Servers(cfg, key, st') == Servers(cfg, key, st)
    && Pools(cfg, key, st') == Pools(cfg, key, st)
    && Monitors(cfg, key, st') == Monitors(cfg, key, st)
    && Keep(AllIds(st'.services), own) == Keep(AllIds(st.services), own)
    && (locked ==> st'.services == st.services)
  }

  /** The objects of one service are the same. */
  ghost predicate SameOwn(cfg: Config, key: string, st: Store, st': Store)
  {
    && Servers(cfg, key, st') == Servers(cfg, key, st)
    && Pools(cfg, key, st') == Pools(cfg, key, st)
    && Monitors(cfg, key, st') == Monitors(cfg, key, st)
  }

  /** The objects of everybody else are the same. */
  ghost predicate SameOthers(cfg: Config, key: string, st: Store, st': Store)
  {
    var q := Query(cfg, key);
    && Reject(q, st'.servers) == Reject(q, st.servers)
    && Reject(q, st'.pools) == Reject(q, st.pools)
    && Reject(q, st'.monitors) == Reject(q, st.monitors)
  }

  /** A write to the broker, by the run for service `run`. */
  datatype Event = Event(run: string, before: Store, after: Store)

  /** What is proved of every single write. */
  ghost predicate EventOk(cfg: Config, e: Event)
  {
    Base(cfg, e.after) && OwnOk(cfg, e.run, e.after) && Guarantee(cfg, e.run, e.before, e.after)
  }

  /** The state after the writes. */
  function Last(st: Store, writes: seq<Event>): Store
  {
    if writes == [] then st else writes[|writes| - 1].after
  }

  /** Every write is made on the state the one before it left. */
  ghost predicate Linked(st: Store, writes: seq<Event>)
  {
    forall i :: 0 <= i < |writes| ==> writes[i].before == Last(st, writes[..i])
  }

  lemma LinkedAppend(st: Store, writes: seq<Event>, e: Event)
    requires Linked(st, writes) && e.before == Last(st, writes)
    ensures Linked(st, writes + [e]) && Last(st, writes + [e]) == e.after
  {
    var all := writes + [e];
    forall i | 0 <= i < |all| ensures all[i].before == Last(st, all[..i]) {
      assert i < |writes| ==> all[..i] == writes[..i];
      assert i == |writes| ==> all[..i] == writes;
    }
  }

  /** The writes of other runs than that for `key`. */
  function OtherRuns(key: string, log: seq<Event>): seq<Event>
  {
    if log == [] then []
    else
      var last := log[|log| - 1];
      OtherRuns(key, log[..|log| - 1]) + if last.run == key then [] else [last]
  }

  /** The log was extended by writes of the run for `key` only. */
  ghost predicate Extends(key: string, log0: seq<Event>, log: seq<Event>)
  {
    log0 <= log && OtherRuns(key, log) == OtherRuns(key, log0)
  }

  lemma ExtendsByWrite(key: string, log: seq<Event>, e: Event)
    requires e.run == key
    ensures Extends(key, log, log + [e])
  {
    assert (log + [e])[..|log|] == log;
  }

  lemma ExtendsReflexive(key: string, log: seq<Event>)
    ensures Extends(key, log, log)
  {
  }

  lemma ExtendsTransitive(key: string, log0: seq<Event>, log1: seq<Event>, log: seq<Event>)
    requires Extends(key, log0, log1) && Extends(key, log1, log)
    ensures Extends(key, log0, log)
  {
  }

  lemma {:induction false} ExtendedByOwn(key: string, log0: seq<Event>, log: seq<Event>)
    requires Extends(key, log0, log)
    ensures forall i :: |log0| <= i < |log| ==> log[i].run == key
    decreases |log|
  {
    if |log0| < |log| {
      var before := log[..|log| - 1];
      assert log0 <= before;
      OtherRunsGrow(key, log0, before);
      ExtendedByOwn(key, log0, before);
    }
  }

  lemma {:induction false} OtherRunsGrow(key: string, log0: seq<Event>, log: seq<Event>)
    requires log0 <= log
    ensures OtherRuns(key, log0) <= OtherRuns(key, log)
    decreases |log|
  {
    if |log0| == |log| {
      assert log0 == log;
    } else {
      assert log0 <= log[..|log| - 1];
      OtherRunsGrow(key, log0, log[..|log| - 1]);
    }
  }

  ghost predicate AllOk(cfg: Config, log: seq<Event>)
  {
    forall e :: e in log ==> EventOk(cfg, e)
  }

  lemma OthersUntouched<T(!new)>(cfg: Config, key: string, other: string, s: seq<Resource<T>>, s': seq<Resource<T>>)
    requires key != other
    requires Reject(Query(cfg, key), s') == Reject(Query(cfg, key), s)
    ensures Select(Query(cfg, other), s') == Select(Query(cfg, other), s)
  {
    var q, o := Query(cfg, key), Query(cfg, other);
    forall x: Resource<T> ensures !(CheckTags(x.tags, o) && CheckTags(x.tags, q)) {
      QueriesDisjoint(cfg, key, other, x.tags);
    }
    SelectOfReject(q, o, s);
    SelectOfReject(q, o, s');
  }

  /** What one run guarantees is what the runs for other services rely on. */
  lemma GuaranteeImpliesRely(cfg: Config, key: string, other: string, st: Store, st': Store)
    requires key != other && IdsOk(st)
    requires Guarantee(cfg, key, st, st')
    ensures Rely(cfg, other, false, st, st')
    ensures st'.services == st.services ==> Rely(cfg, other, true, st, st')
  {
    OthersUntouched(cfg, key, other, st.servers, st'.servers);
    OthersUntouched(cfg, key, other, st.pools, st'.pools);
    OthersUntouched(cfg, key, other, st.monitors, st'.monitors);
    var own, theirs := Ids(Servers(cfg, key, st)), Ids(Servers(cfg, other, st));
    if st'.services != st.services {
      forall id | id in own ensures id !in theirs {
        var v :| v in Servers(cfg, key, st) && v.id == id;
        if id in theirs {
          var w :| w in Servers(cfg, other, st) && w.id == id;
          SameId(st.servers, v, w);
          QueriesDisjoint(cfg, key, other, v.tags);
          assert false;
        }
      }
      KeepOfDrop(AllIds(st.services), theirs, own);
      KeepOfDrop(AllIds(st'.services), theirs, own);
    }
  }

  lemma OwnUnique(cfg: Config, key: string, st: Store)
    requires Base(cfg, st)
    ensures UniqueIds(Servers(cfg, key, st)) && UniqueIds(Pools(cfg, key, st)) && UniqueIds(Monitors(cfg, key, st))
  {
    SelectUnique(Query(cfg, key), st.servers);
    SelectUnique(Query(cfg, key), st.pools);
    SelectUnique(Query(cfg, key), st.monitors);
  }

  lemma ServersUnique(cfg: Config, st: Store)
    requires Base(cfg, st)
    ensures UniqueIds(st.servers)
  {
  }

  lemma OwnMember(cfg: Config, key: string, st: Store, v: VirtualServer)
    requires v in Servers(cfg, key, st)
    ensures v in st.servers && HasId(Servers(cfg, key, st), v.id)
  {
  }

  lemma OwnMonitors(cfg: Config, key: string, st: Store)
    requires OwnOk(cfg, key, st)
    ensures OnePerPort(Monitors(cfg, key, st))
    ensures forall x :: x in Monitors(cfg, key, st) ==> x.spec.resourceType == TCP_MONITOR_TYPE
  {
  }

  lemma OwnPools(cfg: Config, key: string, st: Store)
    requires OwnOk(cfg, key, st)
    ensures OnePerPort(Pools(cfg, key, st))
    ensures forall p :: p in Pools(cfg, key, st) ==> PoolRefersToMonitors(p, Monitors(cfg, key, st))
    ensures forall p :: p in Pools(cfg, key, st) ==> DistinctAddresses(p.spec.members)
  {
  }

  lemma OwnServers(cfg: Config, key: string, st: Store)
    requires OwnOk(cfg, key, st)
    ensures ServersOk(Servers(cfg, key, st))
    ensures forall v :: v in Servers(cfg, key, st) ==> RefersToPool(v, Pools(cfg, key, st))
  {
  }

  /** What a run knows after the others took their turn. */
  lemma AfterTurn(cfg: Config, key: string, locked: bool, st: Store, st': Store)
    requires Rely(cfg, key, locked, st, st')
    ensures SameOwn(cfg, key, st, st')
    ensures OwnOk(cfg, key, st') == OwnOk(cfg, key, st)
    ensures st.nextId <= st'.nextId && NoNewForeign(cfg, st, st')
    ensures locked ==> st'.services == st.services
    ensures forall id :: HasId(Servers(cfg, key, st), id) ==> (id in AllIds(st'.services) <==> id in AllIds(st.services))
  {
  }

  lemma SameOwnLists(cfg: Config, key: string, st: Store, st': Store)
    requires st'.servers == st.servers && st'.pools == st.pools && st'.monitors == st.monitors
    ensures SameOwn(cfg, key, st, st')
  {
  }

  lemma SameOwnReflexive(cfg: Config, key: string, st: Store)
    ensures SameOwn(cfg, key, st, st)
  {
  }

  lemma SameOwnTransitive(cfg: Config, key: string, st: Store, mid: Store, st': Store)
    requires SameOwn(cfg, key, st, mid) && SameOwn(cfg, key, mid, st')
    ensures SameOwn(cfg, key, st, st')
  {
  }

  lemma SameOthersReflexive(cfg: Config, key: string, st: Store)
    ensures SameOthers(cfg, key, st, st)
  {
  }

  lemma SameOthersTransitive(cfg: Config, key: string, st: Store, mid: Store, st': Store)
    requires SameOthers(cfg, key, st, mid) && SameOthers(cfg, key, mid, st')
    ensures SameOthers(cfg, key, st, st')
  {
  }

  lemma AfterWrite(cfg: Config, log: seq<Event>, e: Event)
    requires AllOk(cfg, log) && EventOk(cfg, e)
    ensures AllOk(cfg, log + [e])
    ensures Base(cfg, e.after) && OwnOk(cfg, e.run, e.after) && SameOthers(cfg, e.run, e.before, e.after)
    ensures Guarantee(cfg, e.run, e.before, e.after)
    ensures e.before.nextId <= e.after.nextId && NoNewForeign(cfg, e.before, e.after)
  {
  }

  lemma RelyTransitive(cfg: Config, key: string, st: Store, mid: Store, st': Store)
    requires Rely(cfg, key, false, st, mid) && Rely(cfg, key, false, mid, st')
    ensures Rely(cfg, key, false, st, st')
  {
  }

  lemma RelyReflexive(cfg: Config, key: string, locked: bool, st: Store)
    ensures Rely(cfg, key, locked, st, st)
  {
  }

  /** Runs for `key` that only delete: its objects stay in order and become no more. */
  ghost predicate Dwindles(cfg: Config, key: string, st: Store, st': Store)
  {
    && st.nextId <= st'.nextId && NoNewForeign(cfg, st, st')
    && (OwnOk(cfg, key, st) ==> OwnOk(cfg, key, st') && FewerOwn(cfg, key, st, st'))
  }

  ghost predicate FewerOwn(cfg: Config, key: string, st: Store, st': Store)
  {
    && (forall v :: v in Servers(cfg, key, st') ==> v in Servers(cfg, key, st))
    && (forall p :: p in Pools(cfg, key, st') ==> p in Pools(cfg, key, st))
    && (forall x :: x in Monitors(cfg, key, st') ==> x in Monitors(cfg, key, st))
  }

  lemma RelyDwindles(cfg: Config, key: string, st: Store, st': Store)
    requires Rely(cfg, key, false, st, st')
    ensures Dwindles(cfg, key, st, st')
  {
    hide NoNewForeign;
    AfterTurn(cfg, key, false, st, st');
  }

  lemma DwindlesTransitive(cfg: Config, key: string, st: Store, mid: Store, st': Store)
    requires Dwindles(cfg, key, st, mid) && Dwindles(cfg, key, mid, st')
    ensures Dwindles(cfg, key, st, st')
  {
    hide OwnOk, Servers, Pools, Monitors, Discoverable;
  }

  /** One write of one run keeps the objects of all services consistent. */
  lemma EventKeepsAll(cfg: Config, e: Event)
    requires IdsOk(e.before) && EventOk(cfg, e)
    requires forall key :: OwnOk(cfg, key, e.before)
    ensures forall key :: OwnOk(cfg, key, e.after)
  {
    hide OwnOk, Base, Rely, IdsOk, Guarantee;
    forall key ensures OwnOk(cfg, key, e.after) {
      if key != e.run {
        GuaranteeImpliesRely(cfg, e.run, key, e.before, e.after);
        AfterTurn(cfg, key, false, e.before, e.after);
      }
    }
  }
}
