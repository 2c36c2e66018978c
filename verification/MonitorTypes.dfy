/** The type the server gives a new TCP monitor, and what becomes of the search for monitors when it gives another. */
module MonitorTypes {
  import opened Results
  import opened Text
  import opened Tags
  import opened Names
  import opened Resources
  import opened BrokerState
  import opened Ownership
  import opened Steps
  import opened Broker
  import opened Access
  import opened Reconciler

  /** Whatever its type, a new monitor leaves the broker well formed and shows in the listing by tags. */
  lemma CreateKeepsBase(cfg: Config, key: string, st: Store, tags: seq<Tag>, spec: MonitorSpec)
    requires Base(cfg, st) && CheckTags(tags, Query(cfg, key))
    ensures var st' := CreateMonitor(st, tags, spec);
            && Base(cfg, st') && UniqueIds(Monitors(cfg, key, st'))
            && Monitors(cfg, key, st') == Monitors(cfg, key, st) + [st'.monitors[|st.monitors|]]
  {
    hide CheckTags, AttachmentsOk, AddressesOk, IdsOk, UniqueIds;
    CreateKeepsIds(st, tags, spec);
    SameAttachments(cfg, st, CreateMonitor(st, tags, spec));
    SelectAppend(Query(cfg, key), st.monitors, Resource(MONITOR_ID + Format(st.nextId), tags, spec));
    SelectUnique(Query(cfg, key), CreateMonitor(st, tags, spec).monitors);
  }

  lemma CreateKeepsIds(st: Store, tags: seq<Tag>, spec: MonitorSpec)
    requires IdsOk(st)
    ensures IdsOk(CreateMonitor(st, tags, spec)) && UniqueIds(CreateMonitor(st, tags, spec).monitors)
  {
    hide Fresh, UniqueIds;
    FreshAppend(MONITOR_ID, st.monitors, st.nextId, Resource(MONITOR_ID + Format(st.nextId), tags, spec));
    FreshLater(SERVICE_ID, st.services, st.nextId);
    FreshLater(SERVER_ID, st.servers, st.nextId);
    FreshLater(POOL_ID, st.pools, st.nextId);
  }

  lemma FreshLater<T(!new)>(kind: string, s: seq<Resource<T>>, n: nat)
    requires Fresh(kind, s, n)
    ensures Fresh(kind, s, n + 1)
  {
  }

  lemma SameAttachments(cfg: Config, st: Store, st': Store)
    requires st'.services == st.services && st'.servers == st.servers && st'.ipPools == st.ipPools
    ensures AttachmentsOk(cfg, st') == AttachmentsOk(cfg, st) && AddressesOk(st') == AddressesOk(st)
  {
    hide Attaches, Discoverable, NoDuplicates;
  }

  /** The search for the monitors of a service sees a new one exactly if the server gave it the right type. */
  lemma SeenExactly(cfg: Config, key: string, st: Store, tags: seq<Tag>, spec: MonitorSpec)
    requires Base(cfg, st) && CheckTags(tags, Query(cfg, key))
    ensures TypedMonitors(Monitors(cfg, key, CreateMonitor(st, tags, spec))) == TypedMonitors(Monitors(cfg, key, st)) <==>
            spec.resourceType != TCP_MONITOR_TYPE
  {
    hide Base, CheckTags, Monitors, TypedMonitors;
    CreateKeepsBase(cfg, key, st, tags, spec);
    TypedAppend(Monitors(cfg, key, st), CreateMonitor(st, tags, spec).monitors[|st.monitors|]);
  }

  /** A run's search for the monitor of a port, and the creation of one that was not found. */
  method SearchOrCreate(access: NsxtAccess, key: string, m: Mapping) returns (r: Result<Monitor>, ghost created: bool)
    requires access.Ready(key)
    modifies access.broker
    ensures access.Ready(key) && access.broker.failures >= old(access.broker.failures)
    ensures r.Ok? ==>
              && PortOf(r.value.tags) == PortValue(m)
              && (created <==> forall x :: x in TypedMonitors(Monitors(access.cfg, key, old(access.broker.View()))) ==>
                                             PortOf(x.tags) != PortValue(m))
    ensures r.Ok? && created ==>
              && r.value.spec.resourceType == access.broker.monitorType
              && Monitors(access.cfg, key, access.broker.View()) ==
                 Monitors(access.cfg, key, old(access.broker.View())) + [r.value]
              && UniqueIds(Monitors(access.cfg, key, access.broker.View()))
    ensures r.Ok? && !created ==>
              && Monitors(access.cfg, key, access.broker.View()) == Monitors(access.cfg, key, old(access.broker.View()))
              && r.value in TypedMonitors(Monitors(access.cfg, key, access.broker.View()))
    ensures r.Err? ==> access.broker.failures > old(access.broker.failures)
  {
    hide Base, Rely, InMemoryBroker.EnvOk, InMemoryBroker.Alone, InMemoryBroker.ChainedAt, Monitors, TypedMonitors, PortOf,
      InMemoryBroker.KeepsBase, Select;
    created := false;
    ghost var st0 := access.broker.View();
    var found := access.FindTCPMonitors(key);
    SameMonitors(access.cfg, key, st0, access.broker.View());
    if found.Err? {
      return Err(found.error), created;
    }
    var i := FindByPort(m, found.value);
    if i < |found.value| {
      assert found.value[i] in found.value;
      return Ok(found.value[i]), created;
    }
    assert forall x :: x in found.value ==> PortOf(x.tags) != PortValue(m);
    r := Create(access, key, m);
    created := true;
  }

  lemma SameMonitors(cfg: Config, key: string, st: Store, st': Store)
    requires Rely(cfg, key, false, st, st')
    ensures Monitors(cfg, key, st') == Monitors(cfg, key, st)
  {
  }

  method Create(access: NsxtAccess, key: string, m: Mapping) returns (r: Result<Monitor>)
    requires access.Ready(key)
    modifies access.broker
    ensures access.Ready(key) && access.broker.failures >= old(access.broker.failures)
    ensures r.Ok? ==>
              && PortOf(r.value.tags) == PortValue(m) && r.value.spec.resourceType == access.broker.monitorType
              && Monitors(access.cfg, key, access.broker.View()) ==
                 Monitors(access.cfg, key, old(access.broker.View())) + [r.value]
              && UniqueIds(Monitors(access.cfg, key, access.broker.View()))
    ensures r.Err? ==>
              && Monitors(access.cfg, key, access.broker.View()) == Monitors(access.cfg, key, old(access.broker.View()))
              && access.broker.failures > old(access.broker.failures)
  {
    hide Base, Rely, InMemoryBroker.EnvOk, InMemoryBroker.Alone, InMemoryBroker.ChainedAt, Monitors, PortOf, CheckTags,
      InMemoryBroker.KeepsBase, UniqueIds;
    ghost var st0 := access.broker.View();
    ghost var at;
    r, at := access.CreateTCPMonitor(key, m);
    SameMonitors(access.cfg, key, st0, at);
    if r.Ok? {
      CreateKeepsBase(access.cfg, key, at, r.value.tags, r.value.spec);
    }
  }

  /** Two runs for a port without monitor: they end up with one monitor for it, which both use, exactly if the server
      gives new monitors the type that the search asks for; otherwise the second run leaves a second one. */
  method MonitorTwice(access: NsxtAccess, key: string, m: Mapping) returns (first: Result<Monitor>, second: Result<Monitor>)
    requires access.Ready(key) && OnePerPort(Monitors(access.cfg, key, access.broker.View()))
    requires forall x :: x in Monitors(access.cfg, key, access.broker.View()) ==> PortOf(x.tags) != PortValue(m)
    modifies access.broker
    ensures access.broker.failures == old(access.broker.failures) ==> first.Ok? && second.Ok?
    ensures first.Ok? && second.Ok? ==>
              && (first.value == second.value <==> access.broker.monitorType == TCP_MONITOR_TYPE)
              && (OnePerPort(Monitors(access.cfg, key, access.broker.View())) <==> access.broker.monitorType == TCP_MONITOR_TYPE)
              && Monitors(access.cfg, key, access.broker.View()) ==
                 Monitors(access.cfg, key, old(access.broker.View())) +
                 (if access.broker.monitorType == TCP_MONITOR_TYPE then [first.value] else [first.value, second.value])
  {
    hide Base, Rely, InMemoryBroker.EnvOk, InMemoryBroker.Alone, InMemoryBroker.ChainedAt, Monitors, PortOf, TypedMonitors,
      NsxtAccess.Ready;
    ghost var own := Monitors(access.cfg, key, access.broker.View());
    ghost var created;
    TypedSubset(own);
    first, created := SearchOrCreate(access, key, m);
    second := first;
    if first.Err? {
      return;
    }
    ghost var again;
    TypedAppend(own, first.value);
    TypedSubset(own + [first.value]);
    second, again := SearchOrCreate(access, key, m);
    if second.Ok? {
      TwoOfPort(own, first.value, second.value, again);
    }
  }

  lemma TypedSubset(monitors: seq<Monitor>)
    ensures forall x :: x in TypedMonitors(monitors) ==> x in monitors && x.spec.resourceType == TCP_MONITOR_TYPE
  {
  }

  lemma TwoOfPort(own: seq<Monitor>, x: Monitor, y: Monitor, again: bool)
    requires OnePerPort(own) && PortOf(x.tags) == PortOf(y.tags) && forall z :: z in own ==> PortOf(z.tags) != PortOf(x.tags)
    requires if again then UniqueIds(own + [x] + [y]) else y in own + [x]
    ensures if again then !OnePerPort(own + [x] + [y]) && x != y && own + [x] + [y] == own + [x, y]
            else OnePerPort(own + [x]) && x == y
  {
    hide PortOf;
    if again {
      var all := own + [x] + [y];
      assert all[|own|] == x && all[|own| + 1] == y;
      assert all[|own|].id != all[|own| + 1].id;
      assert x in all && y in all;
    }
  }
}
