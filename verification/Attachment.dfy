/** Attaching server ids to load balancer services and detaching them, as steps on the broker state. */
module Attachment {
  import opened Results
  import opened Text
  import opened Tags
  import opened Resources
  import opened BrokerState
  import opened Ownership
  import opened Steps

  /** The lookup by a configured or remembered id accepts a service only on the configured router. */
  predicate AcceptedById(cfg: Config, svc: LbService)
  {
    cfg.routerId == "" || svc.spec.attachment == Some(cfg.routerId)
  }

  /** What the search accepts: any service of ours, or one that has a given server attached. */
  predicate Wanted(cfg: Config, svc: LbService, holding: Option<string>)
  {
    Discoverable(cfg, svc) && (holding.None? || holding.value in svc.spec.virtualServerIds)
  }

  /** The first service in the listing that is wanted. */
  function FirstService(cfg: Config, services: seq<LbService>, holding: Option<string>): (r: Option<LbService>)
    ensures r.Some? ==> r.value in services && Wanted(cfg, r.value, holding)
    ensures r.None? ==> forall svc :: svc in services ==> !Wanted(cfg, svc, holding)
  {
    if services == [] then None
    else if Wanted(cfg, services[0], holding) then Some(services[0])
    else FirstService(cfg, services[1..], holding)
  }

  /** The lookup for an attach: by id when one is known, checked against the router, else the first of ours. */
  function ServiceFor(cfg: Config, services: seq<LbService>, id: string): Result<Option<LbService>>
  {
    if id == "" then Ok(FirstService(cfg, services, None))
    else match Find(services, id)
      case None => Err(NotFound)
      case Some(svc) => if AcceptedById(cfg, svc) then Ok(Some(svc)) else Err(WrongRouter)
  }

  /** What an attach needs: a service to attach to, or the permission to create one. */
  predicate CanAttach(cfg: Config, services: seq<LbService>, cached: string)
  {
    match ServiceFor(cfg, services, cached)
    case Ok(Some(_)) => true
    case Ok(None) => cfg.managed
    case Err(_) => false
  }

  /** In unmanaged mode a detach can find whatever an attach accepts by its id exactly when a router is configured; in
      managed mode the id is that of a service that the controller has created. */
  lemma CoverageExact(cfg: Config)
    ensures Covered(cfg) <==> cfg.managed || forall svc: LbService :: AcceptedById(cfg, svc) ==> Discoverable(cfg, svc)
  {
    var untagged := Resource("4711", [], LbServiceSpec([], None));
    if !Covered(cfg) {
      assert AcceptedById(cfg, untagged) && !Discoverable(cfg, untagged);
    }
  }

  /** A detach that finds no service leaves no attachment of our server behind. */
  lemma DetachFindsAll(cfg: Config, st: Store, v: VirtualServer)
    requires AttachmentsOk(cfg, st) && v in st.servers && CheckTags(v.tags, ClusterQuery(cfg))
    ensures FirstService(cfg, st.services, Some(v.id)).None? <==> v.id !in AllIds(st.services)
  {
    var found := FirstService(cfg, st.services, Some(v.id));
    if found.Some? {
      AttachedIds(st.services, found.value, v.id);
    } else if v.id in AllIds(st.services) {
      AttachedSomewhere(st.services, v.id);
      var svc :| svc in st.services && v.id in svc.spec.virtualServerIds;
      assert Attaches(cfg, svc, v);
      assert false;
    }
  }

  lemma NothingToDetach(cfg: Config, st: Store, v: VirtualServer)
    requires Base(cfg, st) && Covered(cfg) && v in st.servers && CheckTags(v.tags, ClusterQuery(cfg))
    requires FirstService(cfg, st.services, Some(v.id)).None?
    ensures v.id !in AllIds(st.services)
  {
    DetachFindsAll(cfg, st, v);
  }

  /** Without coverage the detach misses an id that is then left dangling. */
  lemma UncoveredDetachMisses(cfg: Config, v: VirtualServer)
    requires !Covered(cfg)
    ensures var svc := Resource("4711", [], LbServiceSpec([v.id], None));
            AcceptedById(cfg, svc) && FirstService(cfg, [svc], Some(v.id)).None? && v.id in AllIds([svc])
  {
  }

  // ---------------------------------------------------------------- the list of all attached ids

  lemma {:induction false} AllIdsConcat(a: seq<LbService>, b: seq<LbService>)
    ensures AllIds(a + b) == AllIds(a) + AllIds(b)
  {
    if a == [] {
      assert a + b == b;
    } else {
      AllIdsConcat(a[1..], b);
      assert (a + b)[1..] == a[1..] + b && (a + b)[0] == a[0];
      assert AllIds(a + b) == a[0].spec.virtualServerIds + AllIds(a[1..] + b);
      assert AllIds(a) == a[0].spec.virtualServerIds + AllIds(a[1..]);
    }
  }

  /** The attached ids before and after those of one service, whatever happens to it. */
  lemma SplitAt(services: seq<LbService>, x: LbService) returns (a: seq<string>, b: seq<string>)
    requires HasId(services, x.id)
    ensures AllIds(services) == a + Find(services, x.id).value.spec.virtualServerIds + b
    ensures AllIds(Replace(services, x)) == a + x.spec.virtualServerIds + b
    ensures AllIds(Remove(services, x.id)) == a + b
  {
    hide AllIds, Find, Replace, Remove;
    var i := SearchStops(services, x.id);
    a, b := AllIds(services[..i]), AllIds(services[i + 1..]);
    FindAt(services, x.id, i);
    SplitFound(services, i);
    ReplaceAt(services, x, i);
    SplitFound(services[i := x], i);
    assert services[i := x][..i] == services[..i] && services[i := x][i + 1..] == services[i + 1..];
    RemoveAt(services, x.id, i);
    AllIdsConcat(services[..i], services[i + 1..]);
  }

  lemma SplitFound(services: seq<LbService>, i: nat)
    requires i < |services|
    ensures AllIds(services) == AllIds(services[..i]) + services[i].spec.virtualServerIds + AllIds(services[i + 1..])
  {
    hide AllIds;
    Around(services, i);
    AllIdsAround(services[..i], services[i], services[i + 1..]);
  }

  lemma Around(services: seq<LbService>, i: nat)
    requires i < |services|
    ensures services[..i] + [services[i]] + services[i + 1..] == services
  {
  }

  lemma AllIdsAround(before: seq<LbService>, x: LbService, after: seq<LbService>)
    ensures AllIds(before + [x] + after) == AllIds(before) + x.spec.virtualServerIds + AllIds(after)
  {
    AllIdsConcat(before + [x], after);
    AllIdsConcat(before, [x]);
    assert [x][1..] == [];
    assert AllIds([x]) == x.spec.virtualServerIds;
  }

  lemma DropSplice(a: seq<string>, x: seq<string>, y: seq<string>, b: seq<string>, own: set<string>)
    requires Drop(x, own) == Drop(y, own)
    ensures Drop(a + x + b, own) == Drop(a + y + b, own)
  {
    DropConcat(a + x, b, own);
    DropConcat(a + y, b, own);
    DropConcat(a, x, own);
    DropConcat(a, y, own);
  }

  lemma FindUnique(services: seq<LbService>, svc: LbService)
    requires UniqueIds(services) && svc in services
    ensures HasId(services, svc.id) && Find(services, svc.id) == Some(svc)
  {
  }

  function WithIds(svc: LbService, ids: seq<string>): LbService
  {
    svc.(spec := svc.spec.(virtualServerIds := ids))
  }

  /** Attaching appends the server to the list of the service. */
  function WithServer(services: seq<LbService>, svc: LbService, id: string): seq<LbService>
  {
    Replace(services, WithIds(svc, svc.spec.virtualServerIds + [id]))
  }

  /** In managed mode, detaching the last server deletes the service. */
  predicate DeletesService(cfg: Config, svc: LbService, id: string)
  {
    cfg.managed && Without(svc.spec.virtualServerIds, id) == []
  }

  function WithoutServer(cfg: Config, services: seq<LbService>, svc: LbService, id: string): seq<LbService>
  {
    if DeletesService(cfg, svc, id) then Remove(services, svc.id)
    else Replace(services, WithIds(svc, Without(svc.spec.virtualServerIds, id)))
  }

  /** What a detach leaves: the first service that has the server is written back without it, or deleted. */
  function Detached(cfg: Config, services: seq<LbService>, id: string): seq<LbService>
  {
    match FirstService(cfg, services, Some(id))
    case None => services
    case Some(svc) => WithoutServer(cfg, services, svc, id)
  }

  /** What an attach leaves: the service looked up has the server appended, or a new one has it alone; `cached`
      is the id that is remembered then. */
  ghost predicate IsAttached(cfg: Config, services: seq<LbService>, cached: string, services': seq<LbService>, id: string)
  {
    || (exists svc :: ServiceFor(cfg, services, cached) == Ok(Some(svc)) && services' == WithServer(services, svc, id))
    || (&& cfg.managed && FirstService(cfg, services, None).None?
        && |services'| == |services| + 1 && services'[..|services|] == services
        && var svc := services'[|services|];
           svc.id == cached && svc.spec == LbServiceSpec([id], Some(cfg.routerId)) && CheckTags(svc.tags, ClusterQuery(cfg)))
  }

  /** After one attach the next one finds a service again. */
  lemma AttachableAgain(cfg: Config, services: seq<LbService>, cached: string, services': seq<LbService>, id: string)
    requires UniqueIds(services) && UniqueIds(services') && IsAttached(cfg, services, cached, services', id)
    ensures CanAttach(cfg, services', cached)
  {
    hide CheckTags;
    var x: LbService;
    if svc :| ServiceFor(cfg, services, cached) == Ok(Some(svc)) && services' == WithServer(services, svc, id) {
      x := WithIds(svc, svc.spec.virtualServerIds + [id]);
      assert HasId(services, x.id);
      ReplaceMembers(services, x);
    } else {
      x := services'[|services|];
    }
    assert x in services' && (cached != "" ==> x.id == cached && AcceptedById(cfg, x));
    if cached == "" {
      assert Wanted(cfg, x, None);
    } else {
      SameId(services', x, Find(services', cached).value);
    }
  }

  // ---------------------------------------------------------------- writes to the broker

  /** A change of the services alone is in order if it keeps the foreign ids and the attachments. */
  lemma ServicesChangeOk(cfg: Config, key: string, st: Store, services: seq<LbService>, nextId: nat)
    requires Base(cfg, st) && OwnOk(cfg, key, st) && st.nextId <= nextId
    requires UniqueIds(services) && Fresh(SERVICE_ID, services, nextId)
    requires Covered(cfg) ==> AttachmentsOk(cfg, st.(services := services))
    requires NoNewForeign(cfg, st, st.(services := services))
    requires var own := Ids(Servers(cfg, key, st));
             Drop(AllIds(services), own) == Drop(AllIds(st.services), own)
    ensures EventOk(cfg, Event(key, st, st.(services := services, nextId := nextId)))
  {
    var st' := st.(services := services, nextId := nextId);
    if Covered(cfg) {
      var mid := st.(services := services);
      forall svc, v | svc in st'.services && v in st'.servers && Attaches(cfg, svc, v) ensures Discoverable(cfg, svc) {
        assert svc in mid.services && v in mid.servers;
      }
    }
  }

  /** Writing back a service, or taking one out, turns up nothing that our searches do not cover. */
  lemma NoForeignByReplace(cfg: Config, st: Store, svc: LbService, ids: seq<string>)
    requires UniqueIds(st.services) && svc in st.services
    ensures NoNewForeign(cfg, st, st.(services := Replace(st.services, WithIds(svc, ids))))
  {
    hide CheckTags;
    var x := WithIds(svc, ids);
    assert HasId(st.services, x.id);
    ReplaceMembers(st.services, x);
    assert Discoverable(cfg, x) == Discoverable(cfg, svc);
  }

  lemma NoForeignBySubset(cfg: Config, st: Store, services: seq<LbService>)
    requires forall svc :: svc in services ==> svc in st.services
    ensures NoNewForeign(cfg, st, st.(services := services))
  {
    hide Discoverable;
  }

  /** Replacing the attached ids of one service. */
  lemma ReplaceIdsOk(cfg: Config, key: string, st: Store, svc: LbService, ids: seq<string>, a: seq<string>, b: seq<string>)
    requires Base(cfg, st) && OwnOk(cfg, key, st) && svc in st.services
    requires AllIds(st.services) == a + svc.spec.virtualServerIds + b
    requires AllIds(Replace(st.services, WithIds(svc, ids))) == a + ids + b
    requires var own := Ids(Servers(cfg, key, st)); Drop(ids, own) == Drop(svc.spec.virtualServerIds, own)
    requires Covered(cfg) ==>
               && NoDuplicates(a + ids + b)
               && (forall id :: id in ids && id !in svc.spec.virtualServerIds ==>
                    Discoverable(cfg, svc) && HasId(st.servers, id))
    ensures HasId(st.services, svc.id)
    ensures EventOk(cfg, Event(key, st, st.(services := Replace(st.services, WithIds(svc, ids)))))
  {
    hide NoNewForeign, NoDuplicates, OwnOk;
    NoForeignByReplace(cfg, st, svc, ids);
    var x := WithIds(svc, ids);
    var services := Replace(st.services, x);
    FindUnique(st.services, svc);
    FreshReplace(SERVICE_ID, st.services, st.nextId, x);
    ReplaceMembers(st.services, x);
    DropSplice(a, svc.spec.virtualServerIds, ids, b, Ids(Servers(cfg, key, st)));
    if Covered(cfg) {
      forall s, v | s in services && v in st.servers && Attaches(cfg, s, v) ensures Discoverable(cfg, s) {
        if s == x {
          assert Discoverable(cfg, x) == Discoverable(cfg, svc);
          if v.id in svc.spec.virtualServerIds {
            assert Attaches(cfg, svc, v);
          }
        } else {
          assert s in st.services;
        }
      }
      forall id | id in AllIds(services) ensures HasId(st.servers, id) {
        assert id in a + ids + b;
        assert id in AllIds(st.services) || (id in ids && id !in svc.spec.virtualServerIds);
      }
    }
    ServicesChangeOk(cfg, key, st, services, st.nextId);
  }

  lemma AttachOk(cfg: Config, key: string, st: Store, svc: LbService, serverId: string)
    requires Base(cfg, st) && OwnOk(cfg, key, st) && svc in st.services
    requires HasId(Servers(cfg, key, st), serverId)
    requires Covered(cfg) ==> Discoverable(cfg, svc) && serverId !in AllIds(st.services)
    ensures HasId(st.services, svc.id)
    ensures var st' := st.(services := Replace(st.services, WithIds(svc, svc.spec.virtualServerIds + [serverId])));
            && EventOk(cfg, Event(key, st, st'))
            && (forall id :: id in AllIds(st'.services) <==> id in AllIds(st.services) || id == serverId)
  {
    hide OwnOk, Consistent;
    var old_ids := svc.spec.virtualServerIds;
    FindUnique(st.services, svc);
    var a, b := SplitAt(st.services, WithIds(svc, old_ids + [serverId]));
    var own := Ids(Servers(cfg, key, st));
    DropConcat(old_ids, [serverId], own);
    assert [serverId][1..] == [];
    assert Drop([serverId], own) == [];
    var v :| v in Servers(cfg, key, st) && v.id == serverId;
    assert v in st.servers;
    if Covered(cfg) {
      AppendSplice(a, old_ids, b, serverId);
    }
    ReplaceIdsOk(cfg, key, st, svc, old_ids + [serverId], a, b);
  }

  lemma AppendSplice(a: seq<string>, ids: seq<string>, b: seq<string>, id: string)
    requires NoDuplicates(a + ids + b) && id !in a + ids + b
    ensures NoDuplicates(a + (ids + [id]) + b)
  {
    NoDuplicatesConcat(a + ids, b);
    NoDuplicatesConcat(a, ids);
    NoDuplicatesConcat(ids, [id]);
    NoDuplicatesConcat(a, ids + [id]);
    NoDuplicatesConcat(a + (ids + [id]), b);
  }

  lemma WithoutSplice(a: seq<string>, ids: seq<string>, b: seq<string>, id: string)
    requires NoDuplicates(a + ids + b) && id in ids
    ensures NoDuplicates(a + Without(ids, id) + b)
    ensures forall x :: x in a + Without(ids, id) + b <==> x in a + ids + b && x != id
  {
    NoDuplicatesConcat(a + ids, b);
    NoDuplicatesConcat(a, ids);
    WithoutMembers(ids, id);
    NoDuplicatesConcat(a, Without(ids, id));
    NoDuplicatesConcat(a + Without(ids, id), b);
  }

  lemma DetachOk(cfg: Config, key: string, st: Store, svc: LbService, serverId: string)
    requires Base(cfg, st) && OwnOk(cfg, key, st) && svc in st.services
    requires HasId(Servers(cfg, key, st), serverId) && serverId in svc.spec.virtualServerIds
    ensures HasId(st.services, svc.id)
    ensures var st' := st.(services := Replace(st.services, WithIds(svc, Without(svc.spec.virtualServerIds, serverId))));
            && EventOk(cfg, Event(key, st, st'))
            && (Covered(cfg) ==>
                 forall id :: id in AllIds(st'.services) <==> id in AllIds(st.services) && id != serverId)
  {
    hide OwnOk, Consistent;
    var ids := Without(svc.spec.virtualServerIds, serverId);
    FindUnique(st.services, svc);
    var a, b := SplitAt(st.services, WithIds(svc, ids));
    DropWithout(svc.spec.virtualServerIds, serverId, Ids(Servers(cfg, key, st)));
    if Covered(cfg) {
      WithoutSplice(a, svc.spec.virtualServerIds, b, serverId);
      WithoutSubset(svc.spec.virtualServerIds, serverId);
    }
    ReplaceIdsOk(cfg, key, st, svc, ids, a, b);
  }

  lemma {:induction false} WithoutSubset(ids: seq<string>, id: string)
    ensures forall x :: x in Without(ids, id) ==> x in ids
  {
    if ids != [] {
      WithoutSubset(ids[1..], id);
    }
  }

  /** The id of a created service may be remembered. */
  lemma CreatedCachedOk(cfg: Config, st: Store, tags: seq<Tag>, spec: LbServiceSpec)
    requires Base(cfg, st) && CheckTags(tags, ClusterQuery(cfg))
    ensures var st' := CreateService(st, tags, spec);
            CachedOk(cfg, st'.services, st'.nextId, st'.services[|st.services|].id)
  {
    hide CheckTags, AttachmentsOk;
    var st' := CreateService(st, tags, spec);
    var svc := st'.services[|st.services|];
    FreshAppend(SERVICE_ID, st.services, st.nextId, svc);
    forall x | x in st'.services && x.id == svc.id ensures x == svc {
      SameId(st'.services, x, svc);
    }
  }

  lemma CreateServiceOk(cfg: Config, key: string, st: Store, tags: seq<Tag>, attachment: Option<string>)
    requires Base(cfg, st) && OwnOk(cfg, key, st) && CheckTags(tags, ClusterQuery(cfg))
    ensures var st' := CreateService(st, tags, LbServiceSpec([], attachment));
            && EventOk(cfg, Event(key, st, st'))
            && AllIds(st'.services) == AllIds(st.services)
  {
    var svc := Resource(SERVICE_ID + Format(st.nextId), tags, LbServiceSpec([], attachment));
    FreshAppend(SERVICE_ID, st.services, st.nextId, svc);
    AllIdsAround(st.services, svc, []);
    assert st.services + [svc] + [] == st.services + [svc];
    assert AllIds(st.services + [svc]) == AllIds(st.services);
    ServicesChangeOk(cfg, key, st, st.services + [svc], st.nextId + 1);
  }

  /** Whoever else creates a service, of whatever tags and on whatever router, does what a run relies on. */
  lemma ForeignServiceAdmitted(cfg: Config, key: string, st: Store, tags: seq<Tag>, attachment: Option<string>)
    ensures Rely(cfg, key, false, st, CreateService(st, tags, LbServiceSpec([], attachment)))
  {
    hide Discoverable;
    var svc := Resource(SERVICE_ID + Format(st.nextId), tags, LbServiceSpec([], attachment));
    AllIdsAround(st.services, svc, []);
    assert st.services + [svc] + [] == st.services + [svc];
    assert AllIds(st.services + [svc]) == AllIds(st.services);
    assert !Issued(st.nextId, svc.id);
  }

  /** A service whose last attached server is ours may be deleted with its attachment. */
  lemma DeleteServiceOk(cfg: Config, key: string, st: Store, svc: LbService, serverId: string)
    requires Base(cfg, st) && OwnOk(cfg, key, st) && svc in st.services
    requires HasId(Servers(cfg, key, st), serverId)
    requires serverId in svc.spec.virtualServerIds && Without(svc.spec.virtualServerIds, serverId) == []
    ensures HasId(st.services, svc.id)
    ensures var st' := st.(services := Remove(st.services, svc.id));
            && EventOk(cfg, Event(key, st, st'))
            && (Covered(cfg) ==>
                 forall id :: id in AllIds(st'.services) <==> id in AllIds(st.services) && id != serverId)
  {
    hide OwnOk, Consistent, AttachmentsOk, NoNewForeign, Discoverable;
    var services := Remove(st.services, svc.id);
    assert svc.spec.virtualServerIds == [serverId];
    FindUnique(st.services, svc);
    FreshRemove(SERVICE_ID, st.services, st.nextId, svc.id);
    var a, b := SplitAt(st.services, svc);
    DropLast(a, serverId, b, Ids(Servers(cfg, key, st)));
    RemoveMembers(st.services, svc.id);
    NoForeignBySubset(cfg, st, services);
    if Covered(cfg) {
      LastDetached(cfg, st, services, a, serverId, b);
    }
    ServicesChangeOk(cfg, key, st, services, st.nextId);
  }

  lemma DropLast(a: seq<string>, id: string, b: seq<string>, own: set<string>)
    requires id in own
    ensures Drop(a + [id] + b, own) == Drop(a + b, own)
  {
    assert [id][1..] == [];
    assert Drop([id], own) == Drop([], own);
    DropSplice(a, [id], [], b, own);
    assert a + [] + b == a + b;
  }

  lemma LastDetached(cfg: Config, st: Store, services: seq<LbService>, a: seq<string>, id: string, b: seq<string>)
    requires AttachmentsOk(cfg, st)
    requires AllIds(st.services) == a + [id] + b && AllIds(services) == a + b
    requires forall svc :: svc in services ==> svc in st.services
    ensures AttachmentsOk(cfg, st.(services := services))
    ensures forall x :: x in AllIds(services) <==> x in AllIds(st.services) && x != id
  {
    assert [id][1..] == [] && Without([id], id) == [];
    WithoutSplice(a, [id], b, id);
    assert a + [] + b == a + b;
    FewerServicesOk(cfg, st, services);
  }

  lemma FewerServicesOk(cfg: Config, st: Store, services: seq<LbService>)
    requires AttachmentsOk(cfg, st)
    requires forall svc :: svc in services ==> svc in st.services
    requires NoDuplicates(AllIds(services)) && forall id :: id in AllIds(services) ==> id in AllIds(st.services)
    ensures AttachmentsOk(cfg, st.(services := services))
  {
  }

  // ---------------------------------------------------------------- which servers of a service are attached

  /** The servers from before are all there and attached as they were; those created since are attached. */
  ghost predicate Grown(cfg: Config, key: string, before: Store, now: Store)
  {
    && (forall w :: w in Servers(cfg, key, before) ==> HasId(Servers(cfg, key, now), w.id))
    && (forall v :: v in Servers(cfg, key, now) ==>
          (v.id in AllIds(now.services) <==> v.id in AllIds(before.services) || !HasId(Servers(cfg, key, before), v.id)))
    && (forall v, w :: v in Servers(cfg, key, now) && w in Servers(cfg, key, before) && v.id == w.id ==> SamePort(v, w))
  }

  /** The servers are some of those from before, attached as they were. */
  ghost predicate Shrunk(cfg: Config, key: string, before: Store, now: Store)
  {
    forall v :: v in Servers(cfg, key, now) ==>
      v in Servers(cfg, key, before) && (v.id in AllIds(now.services) <==> v.id in AllIds(before.services))
  }

  ghost predicate SameIds(a: seq<LbService>, b: seq<LbService>)
  {
    forall id :: id in AllIds(a) <==> id in AllIds(b)
  }

  lemma GrownSame(cfg: Config, key: string, before: Store, now: Store)
    requires UniqueIds(Servers(cfg, key, before))
    requires Servers(cfg, key, now) == Servers(cfg, key, before) && SameIds(now.services, before.services)
    ensures Grown(cfg, key, before, now) && Shrunk(cfg, key, before, now)
  {
    hide Servers;
    forall v, w | v in Servers(cfg, key, now) && w in Servers(cfg, key, before) && v.id == w.id ensures SamePort(v, w) {
      SameId(Servers(cfg, key, before), v, w);
    }
  }

  lemma GrownTransitive(cfg: Config, key: string, before: Store, mid: Store, now: Store)
    requires Grown(cfg, key, before, mid) && Grown(cfg, key, mid, now)
    ensures Grown(cfg, key, before, now)
  {
    hide Servers;
    forall w | w in Servers(cfg, key, before) ensures HasId(Servers(cfg, key, now), w.id) {
      var u :| u in Servers(cfg, key, mid) && u.id == w.id;
    }
    forall v | v in Servers(cfg, key, now)
      ensures v.id in AllIds(now.services) <==> v.id in AllIds(before.services) || !HasId(Servers(cfg, key, before), v.id)
    {
      if HasId(Servers(cfg, key, mid), v.id) {
        var u :| u in Servers(cfg, key, mid) && u.id == v.id;
      }
    }
    forall v, w | v in Servers(cfg, key, now) && w in Servers(cfg, key, before) && v.id == w.id ensures SamePort(v, w) {
      var u :| u in Servers(cfg, key, mid) && u.id == w.id;
      assert SamePort(v, u) && SamePort(u, w);
    }
  }

  lemma ShrunkTransitive(cfg: Config, key: string, before: Store, mid: Store, now: Store)
    requires Shrunk(cfg, key, before, mid) && Shrunk(cfg, key, mid, now)
    ensures Shrunk(cfg, key, before, now)
  {
    hide Servers;
  }

  /** Overwriting a server keeps its port and its attachment. */
  lemma GrownByUpdate(cfg: Config, key: string, before: Store, now: Store, i: nat, x: VirtualServer)
    requires UniqueIds(Servers(cfg, key, before)) && i < |Servers(cfg, key, before)|
    requires Servers(cfg, key, before)[i].id == x.id && SamePort(Servers(cfg, key, before)[i], x)
    requires Servers(cfg, key, now) == Servers(cfg, key, before)[i := x] && now.services == before.services
    ensures Grown(cfg, key, before, now)
  {
    hide Servers;
    var own, own' := Servers(cfg, key, before), Servers(cfg, key, now);
    forall w | w in own ensures HasId(own', w.id) {
      var j :| 0 <= j < |own| && own[j] == w;
      assert own'[j] in own' && own'[j].id == w.id;
    }
    forall v | v in own' ensures HasId(own, v.id) {
      var j :| 0 <= j < |own'| && own'[j] == v;
      assert own[j] in own && own[j].id == v.id;
    }
    forall v, w | v in own' && w in own && v.id == w.id ensures SamePort(v, w) {
      if v == x {
        SameId(own, own[i], w);
      } else {
        SameId(own, v, w);
      }
    }
  }

  /** A server that was created and then attached. */
  lemma GrownByAttach(cfg: Config, key: string, before: Store, now: Store, x: VirtualServer)
    requires UniqueIds(Servers(cfg, key, before) + [x]) && Servers(cfg, key, now) == Servers(cfg, key, before) + [x]
    requires forall id :: id in AllIds(now.services) <==> id in AllIds(before.services) || id == x.id
    ensures Grown(cfg, key, before, now)
  {
    hide Servers;
    var own, own' := Servers(cfg, key, before), Servers(cfg, key, now);
    assert own'[|own|] == x;
    forall w | w in own ensures w in own' && w.id != x.id {
      var j :| 0 <= j < |own| && own[j] == w;
      assert own'[j] == w;
    }
    forall v, w | v in own' && w in own && v.id == w.id ensures SamePort(v, w) {
      SameId(own', v, w);
    }
  }

  /** A server that was detached and then deleted. */
  lemma ShrunkByDelete(cfg: Config, key: string, before: Store, now: Store, x: VirtualServer)
    requires UniqueIds(Servers(cfg, key, before)) && x in Servers(cfg, key, before)
    requires forall v :: v in Servers(cfg, key, now) ==> v in Servers(cfg, key, before) && v != x
    requires forall id :: id != x.id ==> (id in AllIds(now.services) <==> id in AllIds(before.services))
    ensures Shrunk(cfg, key, before, now)
  {
    hide Servers;
    forall v | v in Servers(cfg, key, now) ensures v.id != x.id {
      if v.id == x.id {
        SameId(Servers(cfg, key, before), v, x);
      }
    }
  }
}
