/** What the searches for a load balancer service find in a listing, and what an attach and a detach make of it, told by
    places in the listing. */
module ServiceSearch {
  import opened Results
  import opened Tags
  import opened Resources
  import opened BrokerState
  import opened Ownership
  import opened Attachment

  /** On the configured router, or tagged with our owner and cluster. */
  predicate IsOurs(cfg: Config, svc: LbService)
  {
    || (cfg.routerId != "" && svc.spec.attachment == Some(cfg.routerId))
    || (Lookup(svc.tags, "owner") == Some(cfg.standardTags["owner"].value) && Lookup(svc.tags, "cluster") == Some(cfg.cluster))
  }

  predicate OnRouter(cfg: Config, svc: LbService)
  {
    cfg.routerId == "" || svc.spec.attachment == Some(cfg.routerId)
  }

  /** The first service of ours, or the first that has a given server. */
  ghost predicate FirstOurs(cfg: Config, services: seq<LbService>, holding: Option<string>, i: int)
  {
    0 <= i < |services| && Fits(cfg, services[i], holding) && forall j :: 0 <= j < i ==> !Fits(cfg, services[j], holding)
  }

  predicate Fits(cfg: Config, svc: LbService, holding: Option<string>)
  {
    IsOurs(cfg, svc) && (holding.Some? ==> holding.value in svc.spec.virtualServerIds)
  }

  ghost predicate FirstNamed(services: seq<LbService>, id: string, i: int)
  {
    0 <= i < |services| && services[i].id == id && forall j :: 0 <= j < i ==> services[j].id != id
  }

  lemma FitsExact(cfg: Config, svc: LbService, holding: Option<string>)
    ensures Wanted(cfg, svc, holding) <==> Fits(cfg, svc, holding)
    ensures AcceptedById(cfg, svc) <==> OnRouter(cfg, svc)
  {
    ClusterQueryExact(cfg, svc.tags);
  }

  /** The search in a listing stops at the first service that fits. */
  lemma {:induction false} SearchExact(cfg: Config, services: seq<LbService>, holding: Option<string>)
    ensures FirstService(cfg, services, holding) == None <==>
            forall i :: 0 <= i < |services| ==> !Fits(cfg, services[i], holding)
    ensures forall i :: FirstOurs(cfg, services, holding, i) ==>
              FirstService(cfg, services, holding) == Some(services[i])
  {
    hide Fits, Wanted;
    if services != [] {
      var rest := services[1..];
      FitsExact(cfg, services[0], holding);
      SearchExact(cfg, rest, holding);
      assert forall i :: 0 < i < |services| ==> services[i] == rest[i - 1];
      forall i | FirstOurs(cfg, services, holding, i)
        ensures FirstService(cfg, services, holding) == Some(services[i])
      {
        if i > 0 {
          FirstInTail(cfg, services, holding, i);
        }
      }
      if forall i :: 0 <= i < |services| ==> !Fits(cfg, services[i], holding) {
        forall i | 0 <= i < |rest| ensures !Fits(cfg, rest[i], holding) {
          assert rest[i] == services[i + 1];
        }
      }
    }
  }

  lemma FirstInTail(cfg: Config, services: seq<LbService>, holding: Option<string>, i: int)
    requires FirstOurs(cfg, services, holding, i) && i > 0
    ensures FirstOurs(cfg, services[1..], holding, i - 1) && !Fits(cfg, services[0], holding)
  {
    hide Fits;
    forall j | 0 <= j < i - 1 ensures !Fits(cfg, services[1..][j], holding) {
      assert services[1..][j] == services[j + 1];
    }
  }

  /** The lookup by id: not found, or on another router, or the first with the id. */
  lemma LookupExact(cfg: Config, services: seq<LbService>, id: string)
    requires id != ""
    ensures ServiceFor(cfg, services, id) == Err(NotFound) <==> forall i :: 0 <= i < |services| ==> services[i].id != id
    ensures forall i :: FirstNamed(services, id, i) ==>
              ServiceFor(cfg, services, id) == if OnRouter(cfg, services[i]) then Ok(Some(services[i])) else Err(WrongRouter)
  {
    forall i | FirstNamed(services, id, i)
      ensures ServiceFor(cfg, services, id) == if OnRouter(cfg, services[i]) then Ok(Some(services[i])) else Err(WrongRouter)
    {
      FindAt(services, id, i);
    }
    if forall i :: 0 <= i < |services| ==> services[i].id != id {
      assert !HasId(services, id);
    }
  }

  lemma SomeFirst(cfg: Config, services: seq<LbService>, id: string, k: nat) returns (i: nat)
    requires k < |services| && services[k].id == id
    ensures FirstNamed(services, id, i)
  {
    i := 0;
    while services[i].id != id
      invariant i <= k && forall j :: 0 <= j < i ==> services[j].id != id
      decreases k - i
    {
      i := i + 1;
    }
  }

  /** An attach needs the remembered service, on the router, or if none is remembered one of ours, or the permission to
      create one. */
  lemma CanAttachExact(cfg: Config, services: seq<LbService>, cached: string)
    ensures CanAttach(cfg, services, cached) <==>
            if cached == "" then cfg.managed || exists i :: 0 <= i < |services| && Fits(cfg, services[i], None)
            else exists i :: FirstNamed(services, cached, i) && OnRouter(cfg, services[i])
  {
    hide Fits, OnRouter;
    if cached == "" {
      SearchExact(cfg, services, None);
    } else {
      LookupExact(cfg, services, cached);
      if k :| 0 <= k < |services| && services[k].id == cached {
        var i := SomeFirst(cfg, services, cached, k);
      }
    }
  }

  /** The service at place `i` with other ids. */
  function Rewritten(services: seq<LbService>, i: nat, ids: seq<string>): seq<LbService>
    requires i < |services|
  {
    services[i := Resource(services[i].id, services[i].tags, LbServiceSpec(ids, services[i].spec.attachment))]
  }

  lemma StopsHere(services: seq<LbService>, i: nat)
    requires UniqueIds(services) && i < |services|
    ensures StopsAt(services, services[i].id, i)
  {
  }

  /** A detach takes the server out of the first service of ours that has it, at the first place where it is; or, in managed
      mode, takes out the service that has no other. */
  lemma DetachedExact(cfg: Config, services: seq<LbService>, id: string, i: nat, k: nat)
    requires UniqueIds(services) && FirstOurs(cfg, services, Some(id), i)
    requires var ids := services[i].spec.virtualServerIds; k < |ids| && ids[k] == id && id !in ids[..k]
    ensures var ids := services[i].spec.virtualServerIds;
            Detached(cfg, services, id) ==
            if cfg.managed && ids == [id] then services[..i] + services[i + 1..]
            else Rewritten(services, i, ids[..k] + ids[k + 1..])
  {
    hide Fits, UniqueIds;
    var svc := services[i];
    var ids := svc.spec.virtualServerIds;
    SearchExact(cfg, services, Some(id));
    StopsHere(services, i);
    WithoutAt(ids, id, k);
    assert Without(ids, id) == [] <==> ids == [id] by {
      assert |Without(ids, id)| == |ids| - 1;
      assert |ids| == 1 ==> ids == [ids[0]];
    }
    RemoveAt(services, svc.id, i);
    ReplaceAt(services, WithIds(svc, ids[..k] + ids[k + 1..]), i);
  }

  lemma NothingDetached(cfg: Config, services: seq<LbService>, id: string)
    requires forall i :: 0 <= i < |services| ==> !Fits(cfg, services[i], Some(id))
    ensures Detached(cfg, services, id) == services
  {
    hide Fits;
    SearchExact(cfg, services, Some(id));
  }

  /** The service at place `i`, which is the one looked up, has the server appended. */
  ghost predicate AppendedAt(cfg: Config, services: seq<LbService>, cached: string, services': seq<LbService>, id: string,
                             i: int)
  {
    0 <= i < |services| && ServiceFor(cfg, services, cached) == Ok(Some(services[i])) &&
    services' == Rewritten(services, i, services[i].spec.virtualServerIds + [id])
  }

  /** Where no service is ours, a new one on the router stands at the end and has the server alone. */
  ghost predicate AddedNew(cfg: Config, services: seq<LbService>, cached: string, services': seq<LbService>, id: string,
                           tags: seq<Tag>)
  {
    && cfg.managed && (forall i :: 0 <= i < |services| ==> !Fits(cfg, services[i], None))
    && Lookup(tags, "owner") == Some(cfg.standardTags["owner"].value) && Lookup(tags, "cluster") == Some(cfg.cluster)
    && services' == services + [Resource(cached, tags, LbServiceSpec([id], Some(cfg.routerId)))]
  }

  lemma AppendedExact(cfg: Config, services: seq<LbService>, cached: string, services': seq<LbService>, id: string)
    requires UniqueIds(services)
    ensures (exists svc :: ServiceFor(cfg, services, cached) == Ok(Some(svc)) && services' == WithServer(services, svc, id)) <==>
            exists i :: AppendedAt(cfg, services, cached, services', id, i)
  {
    hide UniqueIds, ServiceFor, WithServer;
    forall i | 0 <= i < |services|
      ensures WithServer(services, services[i], id) == Rewritten(services, i, services[i].spec.virtualServerIds + [id])
    {
      AppendsHere(services, i, id);
    }
    if svc :| ServiceFor(cfg, services, cached) == Ok(Some(svc)) && services' == WithServer(services, svc, id) {
      LookedUp(cfg, services, cached);
      var i :| 0 <= i < |services| && services[i] == svc;
      assert AppendedAt(cfg, services, cached, services', id, i);
    }
  }

  lemma AppendsHere(services: seq<LbService>, i: nat, id: string)
    requires UniqueIds(services) && i < |services|
    ensures WithServer(services, services[i], id) == Rewritten(services, i, services[i].spec.virtualServerIds + [id])
  {
    StopsHere(services, i);
    ReplaceAt(services, WithIds(services[i], services[i].spec.virtualServerIds + [id]), i);
  }

  lemma AddedExact(cfg: Config, services: seq<LbService>, cached: string, services': seq<LbService>, id: string)
    ensures (&& cfg.managed && FirstService(cfg, services, None).None?
             && |services'| == |services| + 1 && services'[..|services|] == services
             && var svc := services'[|services|];
                svc.id == cached && svc.spec == LbServiceSpec([id], Some(cfg.routerId)) &&
                CheckTags(svc.tags, ClusterQuery(cfg))) <==>
            exists tags :: AddedNew(cfg, services, cached, services', id, tags)
  {
    hide Fits, FirstService, Lookup, CheckTags;
    SearchExact(cfg, services, None);
    if |services'| == |services| + 1 {
      var last := services'[|services|];
      assert services' == services'[..|services|] + [last];
      ClusterQueryExact(cfg, last.tags);
      forall tags | AddedNew(cfg, services, cached, services', id, tags) ensures tags == last.tags {
      }
      if services'[..|services|] == services && last.id == cached && last.spec == LbServiceSpec([id], Some(cfg.routerId)) {
        assert services' == services + [Resource(cached, last.tags, LbServiceSpec([id], Some(cfg.routerId)))];
        assert AddedNew(cfg, services, cached, services', id, last.tags) <==>
               cfg.managed && FirstService(cfg, services, None).None? && CheckTags(last.tags, ClusterQuery(cfg));
      }
    }
  }

  /** An attach appends the server to the service looked up, or to a new one at the end, which then is remembered. */
  lemma AttachedExact(cfg: Config, services: seq<LbService>, cached: string, services': seq<LbService>, id: string)
    requires UniqueIds(services)
    ensures IsAttached(cfg, services, cached, services', id) <==>
            || (exists i :: AppendedAt(cfg, services, cached, services', id, i))
            || (exists tags :: AddedNew(cfg, services, cached, services', id, tags))
  {
    hide UniqueIds, ServiceFor, WithServer, FirstService, CheckTags, AppendedAt, AddedNew;
    AppendedExact(cfg, services, cached, services', id);
    AddedExact(cfg, services, cached, services', id);
  }

  lemma LookedUp(cfg: Config, services: seq<LbService>, cached: string)
    requires ServiceFor(cfg, services, cached).Ok? && ServiceFor(cfg, services, cached).value.Some?
    ensures ServiceFor(cfg, services, cached).value.value in services
  {
  }

  /** An id is attached exactly if some service lists it. */
  lemma {:induction false} AllIdsExact(services: seq<LbService>, id: string)
    ensures id in AllIds(services) <==> exists svc :: svc in services && id in svc.spec.virtualServerIds
  {
    if services != [] {
      AllIdsExact(services[1..], id);
      assert services == [services[0]] + services[1..];
    }
  }

  /** No id is attached twice: not within one service, and not in two. */
  ghost predicate AttachedOnce(services: seq<LbService>)
  {
    && (forall i, k, l :: 0 <= i < |services| && 0 <= k < l < |services[i].spec.virtualServerIds| ==>
          services[i].spec.virtualServerIds[k] != services[i].spec.virtualServerIds[l])
    && (forall i, j, id :: 0 <= i < j < |services| && id in services[i].spec.virtualServerIds ==>
          id !in services[j].spec.virtualServerIds)
  }

  lemma AttachedOnceTail(services: seq<LbService>)
    requires services != []
    ensures AttachedOnce(services) <==>
            && AttachedOnce(services[1..]) && NoDuplicates(services[0].spec.virtualServerIds)
            && forall id :: id in services[0].spec.virtualServerIds ==> id !in AllIds(services[1..])
  {
    var rest := services[1..];
    assert forall i :: 0 <= i < |rest| ==> rest[i] == services[i + 1];
    assert forall i :: 0 < i < |services| ==> services[i] == rest[i - 1];
    forall id ensures id in AllIds(rest) <==> exists svc :: svc in rest && id in svc.spec.virtualServerIds {
      AllIdsExact(rest, id);
    }
  }

  lemma {:induction false} AttachedOnceExact(services: seq<LbService>)
    ensures NoDuplicates(AllIds(services)) <==> AttachedOnce(services)
  {
    if services != [] {
      AttachedOnceExact(services[1..]);
      AttachedOnceTail(services);
      NoDuplicatesConcat(services[0].spec.virtualServerIds, AllIds(services[1..]));
    }
  }
}
