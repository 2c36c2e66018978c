/** Runs for different services whose writes interleave at the broker. */
module Interleaving {
  import opened Results
  import opened Tags
  import opened Resources
  import opened BrokerState
  import opened Ownership
  import opened Broker
  import opened LbServices
  import opened ServiceSearch

  /** The writes follow one another, and each is what some run does under its own guarantee. */
  ghost predicate Trace(cfg: Config, st: Store, writes: seq<Event>)
  {
    Linked(st, writes) && AllOk(cfg, writes)
  }

  /** What a controller that is on its own has logged is such a trace, from the broker it was given to the present. */
  lemma LogIsTrace(lb: LoadBalancerService, key: string)
    requires lb.Ready(key) && lb.access.broker.Alone()
    ensures Trace(lb.access.cfg, lb.access.broker.start, lb.access.broker.log)
    ensures Last(lb.access.broker.start, lb.access.broker.log) == lb.access.broker.View()
  {
    hide Base, OwnOk, AllOk, CachedOk, Linked, InMemoryBroker.Alone, InMemoryBroker.EnvOk, LoadBalancerService.OthersIdOk;
  }

  ghost predicate AllInOrder(cfg: Config, st: Store)
  {
    Base(cfg, st) && forall key :: OwnOk(cfg, key, st)
  }

  lemma TracePrefix(cfg: Config, st: Store, writes: seq<Event>)
    requires writes != [] && Trace(cfg, st, writes)
    ensures var n := |writes| - 1;
            Trace(cfg, st, writes[..n]) && EventOk(cfg, writes[n]) && writes[n].before == Last(st, writes[..n])
  {
    hide EventOk;
    var n := |writes| - 1;
    assert writes[n] in writes;
    forall i | 0 <= i < n ensures EventOk(cfg, writes[i]) && writes[i].before == Last(st, writes[..n][..i]) {
      assert writes[i] in writes;
      assert writes[..n][..i] == writes[..i];
    }
  }

  /** After every write, whoever made it, the objects of every service are in order: servers refer to pools of
      their port, pools to monitors of theirs, with one of each per port and one address per service. */
  lemma {:induction false} EverybodyStaysInOrder(cfg: Config, st: Store, writes: seq<Event>)
    requires AllInOrder(cfg, st) && Trace(cfg, st, writes)
    ensures AllInOrder(cfg, Last(st, writes))
    decreases |writes|
  {
    hide EventOk, OwnOk, Trace, IdsOk;
    if writes != [] {
      var n := |writes| - 1;
      TracePrefix(cfg, st, writes);
      EverybodyStaysInOrder(cfg, st, writes[..n]);
      assert IdsOk(writes[n].before);
      EventKeepsAll(cfg, writes[n]);
      WriteIsBase(cfg, writes[n]);
    }
  }

  lemma WriteIsBase(cfg: Config, e: Event)
    requires EventOk(cfg, e)
    ensures Base(cfg, e.after) && IdsOk(e.after)
  {
  }

  /** While a run for `key` makes no write itself, its snapshot stays what the broker has, and what is attached
      of its servers stays in its order; if nobody else writes services, all of them stay. */
  lemma {:induction false} SnapshotStaysExact(cfg: Config, key: string, st: Store, writes: seq<Event>)
    requires AllInOrder(cfg, st) && Trace(cfg, st, writes)
    requires forall e :: e in writes ==> e.run != key
    ensures Rely(cfg, key, false, st, Last(st, writes))
    ensures (forall e :: e in writes ==> e.after.services == e.before.services) ==> Rely(cfg, key, true, st, Last(st, writes))
    decreases |writes|
  {
    hide EventOk, OwnOk, Trace, IdsOk, Rely;
    if writes == [] {
      RelyReflexive(cfg, key, false, st);
      RelyReflexive(cfg, key, true, st);
    } else {
      var n := |writes| - 1;
      TracePrefix(cfg, st, writes);
      forall e | e in writes[..n] ensures e in writes {
      }
      SnapshotStaysExact(cfg, key, st, writes[..n]);
      EverybodyStaysInOrder(cfg, st, writes[..n]);
      var e := writes[n];
      assert e in writes;
      EventGuarantee(cfg, e);
      GuaranteeImpliesRely(cfg, e.run, key, e.before, e.after);
      RelyTransitive(cfg, key, st, e.before, e.after);
      if forall w :: w in writes ==> w.after.services == w.before.services {
        LockedTransitive(cfg, key, st, e.before, e.after);
      }
    }
  }

  lemma EventGuarantee(cfg: Config, e: Event)
    requires EventOk(cfg, e)
    ensures Guarantee(cfg, e.run, e.before, e.after)
  {
  }

  lemma LockedTransitive(cfg: Config, key: string, st: Store, mid: Store, st': Store)
    requires Rely(cfg, key, true, st, mid) && Rely(cfg, key, true, mid, st')
    ensures Rely(cfg, key, true, st, st')
  {
  }

  /** No write of any run, in any interleaving, changes an object of another cluster or owner. */
  lemma {:induction false} ElsewhereUntouched(cfg: Config, st: Store, writes: seq<Event>)
    requires Trace(cfg, st, writes)
    ensures ElsewhereSame(cfg, st, Last(st, writes))
    decreases |writes|
  {
    hide EventOk, Trace, ElsewhereSame, SameOthers;
    if writes == [] {
      SameOthersReflexive(cfg, "", st);
      OthersIncludeElsewhere(cfg, "", st, st);
    } else {
      var e := writes[|writes| - 1];
      TracePrefix(cfg, st, writes);
      ElsewhereUntouched(cfg, st, writes[..|writes| - 1]);
      EventGuarantee(cfg, e);
      GuaranteedOthers(cfg, e.run, e.before, e.after);
      OthersIncludeElsewhere(cfg, e.run, e.before, e.after);
      ElsewhereTransitive(cfg, st, e.before, e.after);
    }
  }

  // ---------------------------------------------------------------- what the other runs may be

  /** Writes of runs for other services lead from `st` to `now`; none of them changes a load balancer service while the
      lock for these is held. */
  ghost predicate ByOtherRuns(cfg: Config, key: string, locked: bool, st: Store, now: Store)
  {
    exists writes :: Trace(cfg, st, writes) && Last(st, writes) == now && OfOthers(key, locked, writes)
  }

  ghost predicate OfOthers(key: string, locked: bool, writes: seq<Event>)
  {
    forall e :: e in writes ==> e.run != key && (locked ==> e.after.services == e.before.services)
  }

  lemma {:induction false} OthersRely(cfg: Config, key: string, locked: bool, st: Store, writes: seq<Event>)
    requires Base(cfg, st) && Trace(cfg, st, writes) && OfOthers(key, locked, writes)
    ensures Rely(cfg, key, false, st, Last(st, writes)) && Base(cfg, Last(st, writes))
    ensures locked ==> Last(st, writes).services == st.services
    decreases |writes|
  {
    hide Trace, Rely, Guarantee, NoNewForeign, AttachmentsOk, OwnOk;
    if writes == [] {
      RelyReflexive(cfg, key, false, st);
    } else {
      var e, before := writes[|writes| - 1], writes[..|writes| - 1];
      assert e in writes && forall w :: w in before ==> w in writes;
      TracePrefix(cfg, st, writes);
      OthersRely(cfg, key, locked, st, before);
      GuaranteeImpliesRely(cfg, e.run, key, e.before, e.after);
      RelyTransitive(cfg, key, st, e.before, e.after);
    }
  }

  lemma RelyOfRuns(cfg: Config, key: string, locked: bool, st: Store, now: Store)
    requires Base(cfg, st) && ByOtherRuns(cfg, key, locked, st, now)
    ensures Base(cfg, now) && Rely(cfg, key, locked, st, now)
  {
    hide Trace, Base, NoNewForeign;
    var writes :| Trace(cfg, st, writes) && Last(st, writes) == now && OfOthers(key, locked, writes);
    OthersRely(cfg, key, locked, st, writes);
  }

  /** Whatever other runs do between the calls of a run, however many and in whatever order, is what the results on a run
      among others assume. */
  lemma RunsAreAdmissible(broker: InMemoryBroker, cfg: Config, key: string)
    requires forall n, locked, st :: Base(cfg, st) ==>
               ByOtherRuns(cfg, key, locked, st, broker.others(n, locked, Some(key), st))
    ensures broker.EnvOk(cfg, key)
    ensures (forall n, locked, run, st :: Base(cfg, st) ==>
              ByOtherRuns(cfg, key, locked, st, broker.others(n, locked, run, st))) ==> broker.Unshared(cfg, key)
  {
    hide ByOtherRuns, Base, Rely;
    forall n, locked, st | Base(cfg, st)
      ensures var at := broker.others(n, locked, Some(key), st); Base(cfg, at) && Rely(cfg, key, locked, st, at)
    {
      RelyOfRuns(cfg, key, locked, st, broker.others(n, locked, Some(key), st));
    }
    if forall n, locked, run, st :: Base(cfg, st) ==>
         ByOtherRuns(cfg, key, locked, st, broker.others(n, locked, run, st))
    {
      forall n, locked, run, st | Base(cfg, st) ensures Rely(cfg, key, locked, st, broker.others(n, locked, run, st)) {
        RelyOfRuns(cfg, key, locked, st, broker.others(n, locked, run, st));
      }
    }
  }

  /** Writes of any runs, of which those for `key` only delete what belongs to it. */
  ghost predicate OnlyDeleting(cfg: Config, key: string, st: Store, now: Store)
  {
    exists writes :: Trace(cfg, st, writes) && Last(st, writes) == now && DeleteOnly(cfg, key, writes)
  }

  ghost predicate DeleteOnly(cfg: Config, key: string, writes: seq<Event>)
  {
    forall e :: e in writes && e.run == key ==> FewerOwn(cfg, key, e.before, e.after)
  }

  lemma {:induction false} DeletionsDwindle(cfg: Config, key: string, st: Store, writes: seq<Event>)
    requires Base(cfg, st) && Trace(cfg, st, writes) && DeleteOnly(cfg, key, writes)
    ensures Dwindles(cfg, key, st, Last(st, writes)) && Base(cfg, Last(st, writes))
    decreases |writes|
  {
    hide Trace, Rely, NoNewForeign, AttachmentsOk, OwnOk, Dwindles, FewerOwn;
    if writes == [] {
      RelyReflexive(cfg, key, false, st);
      RelyDwindles(cfg, key, st, st);
    } else {
      var e, before := writes[|writes| - 1], writes[..|writes| - 1];
      assert e in writes && forall w :: w in before ==> w in writes;
      TracePrefix(cfg, st, writes);
      DeletionsDwindle(cfg, key, st, before);
      OneDwindles(cfg, key, e);
      DwindlesTransitive(cfg, key, st, e.before, e.after);
    }
  }

  lemma OneDwindles(cfg: Config, key: string, e: Event)
    requires EventOk(cfg, e) && IdsOk(e.before) && (e.run == key ==> FewerOwn(cfg, key, e.before, e.after))
    ensures Dwindles(cfg, key, e.before, e.after)
  {
    hide Rely, NoNewForeign, OwnOk, FewerOwn, SameOthers, Base;
    if e.run != key {
      GuaranteeImpliesRely(cfg, e.run, key, e.before, e.after);
      RelyDwindles(cfg, key, e.before, e.after);
    }
  }

  /** And whatever runs delete meanwhile is what the collection assumes. */
  lemma DeletionsAreAdmissible(broker: InMemoryBroker, cfg: Config, key: string)
    requires forall n, locked, run, st :: run != Some(key) && Base(cfg, st) ==>
               OnlyDeleting(cfg, key, st, broker.others(n, locked, run, st))
    ensures broker.OnlyDeleted(cfg, key)
  {
    hide Trace, Base, Dwindles;
    forall n, locked, run, st | run != Some(key) && Base(cfg, st)
      ensures Dwindles(cfg, key, st, broker.others(n, locked, run, st))
    {
      var now := broker.others(n, locked, run, st);
      assert OnlyDeleting(cfg, key, st, now);
      var writes :| Trace(cfg, st, writes) && Last(st, writes) == now && DeleteOnly(cfg, key, writes);
      DeletionsDwindle(cfg, key, st, writes);
    }
  }

  // ---------------------------------------------------------------- the log of one run among the writes of others

  /** What the other runs wrote before each write of the run, and after its last, fits between its writes. */
  ghost predicate Fills(st: Store, gaps: seq<seq<Event>>, log: seq<Event>, now: Store)
    decreases |log|
  {
    var n := |log|;
    |gaps| == n + 1 &&
    if n == 0 then Linked(st, gaps[0]) && Last(st, gaps[0]) == now
    else
      && Fills(st, gaps[..n], log[..n - 1], log[n - 1].before)
      && Linked(log[n - 1].after, gaps[n]) && Last(log[n - 1].after, gaps[n]) == now
  }

  /** All writes in the order in which the broker saw them. */
  function Merged(gaps: seq<seq<Event>>, log: seq<Event>): seq<Event>
    requires |gaps| == |log| + 1
    decreases |log|
  {
    var n := |log|;
    if n == 0 then gaps[0] else Merged(gaps[..n], log[..n - 1]) + [log[n - 1]] + gaps[n]
  }

  lemma {:induction false} TraceConcat(cfg: Config, st: Store, writes: seq<Event>, more: seq<Event>)
    requires Trace(cfg, st, writes) && Trace(cfg, Last(st, writes), more)
    ensures Trace(cfg, st, writes + more) && Last(st, writes + more) == Last(Last(st, writes), more)
    decreases |more|
  {
    hide EventOk, Linked;
    if more == [] {
      assert writes + more == writes;
    } else {
      var n := |more| - 1;
      TracePrefix(cfg, Last(st, writes), more);
      TraceConcat(cfg, st, writes, more[..n]);
      TraceAppend(cfg, st, writes + more[..n], more[n]);
      assert writes + more == (writes + more[..n]) + [more[n]];
    }
  }

  lemma TraceAppend(cfg: Config, st: Store, writes: seq<Event>, e: Event)
    requires Trace(cfg, st, writes) && EventOk(cfg, e) && e.before == Last(st, writes)
    ensures Trace(cfg, st, writes + [e]) && Last(st, writes + [e]) == e.after
  {
    hide EventOk, Linked;
    LinkedAppend(st, writes, e);
  }

  /** The log of a run and what the others wrote in between are one trace from the first state to the last. */
  lemma {:induction false} MergedIsTrace(cfg: Config, st: Store, gaps: seq<seq<Event>>, log: seq<Event>, now: Store)
    requires AllOk(cfg, log) && Fills(st, gaps, log, now) && forall gap :: gap in gaps ==> AllOk(cfg, gap)
    ensures Trace(cfg, st, Merged(gaps, log)) && Last(st, Merged(gaps, log)) == now
    decreases |log|
  {
    hide EventOk, Linked, Last;
    var n := |log|;
    assert gaps[n] in gaps;
    if n > 0 {
      var before := Merged(gaps[..n], log[..n - 1]);
      LogPrefix(cfg, gaps, log);
      MergedIsTrace(cfg, st, gaps[..n], log[..n - 1], log[n - 1].before);
      TraceAppend(cfg, st, before, log[n - 1]);
      TraceConcat(cfg, st, before + [log[n - 1]], gaps[n]);
    }
  }

  lemma LogPrefix(cfg: Config, gaps: seq<seq<Event>>, log: seq<Event>)
    requires |gaps| == |log| + 1 && log != [] && AllOk(cfg, log) && forall gap :: gap in gaps ==> AllOk(cfg, gap)
    ensures AllOk(cfg, log[..|log| - 1]) && EventOk(cfg, log[|log| - 1])
    ensures forall gap :: gap in gaps[..|log|] ==> gap in gaps && AllOk(cfg, gap)
  {
    hide EventOk;
    assert log[|log| - 1] in log;
  }

  /** Whatever the run logged among the writes of other runs, the two make one trace up to the present, so that the
      results above hold of it. */
  lemma LogAmongOthers(lb: LoadBalancerService, key: string, gaps: seq<seq<Event>>)
    requires lb.Ready(key) && Fills(lb.access.broker.start, gaps, lb.access.broker.log, lb.access.broker.View())
    requires forall gap :: gap in gaps ==> AllOk(lb.access.cfg, gap)
    ensures Trace(lb.access.cfg, lb.access.broker.start, Merged(gaps, lb.access.broker.log))
    ensures Last(lb.access.broker.start, Merged(gaps, lb.access.broker.log)) == lb.access.broker.View()
  {
    hide Base, OwnOk, AllOk, CachedOk, Linked, Trace, InMemoryBroker.Alone, InMemoryBroker.EnvOk, LoadBalancerService.OthersIdOk;
    MergedIsTrace(lb.access.cfg, lb.access.broker.start, gaps, lb.access.broker.log, lb.access.broker.View());
  }

  /** What the others wrote since the last write of a run is what it relies on, if none of them works for its service;
      and so it was before each of its writes, of which this speaks when applied to a prefix of the log. */
  lemma GapKeepsRely(cfg: Config, key: string, st: Store, gaps: seq<seq<Event>>, log: seq<Event>, now: Store)
    requires AllInOrder(cfg, st) && AllOk(cfg, log) && Fills(st, gaps, log, now)
    requires forall gap :: gap in gaps ==> AllOk(cfg, gap)
    requires forall e :: e in gaps[|log|] ==> e.run != key
    ensures Rely(cfg, key, false, Last(st, log), now)
  {
    hide EventOk, Linked, Rely, AllInOrder;
    var n := |log|;
    assert gaps[n] in gaps;
    if n > 0 {
      var before := Merged(gaps[..n], log[..n - 1]);
      LogPrefix(cfg, gaps, log);
      MergedIsTrace(cfg, st, gaps[..n], log[..n - 1], log[n - 1].before);
      TraceAppend(cfg, st, before, log[n - 1]);
      EverybodyStaysInOrder(cfg, st, before + [log[n - 1]]);
    }
    SnapshotStaysExact(cfg, key, Last(st, log), gaps[n]);
  }

  // ---------------------------------------------------------------- what being in order means

  /** A server's pool exists and carries the server's port, and so does every monitor of that pool. */
  lemma ReferencesHold(cfg: Config, key: string, st: Store, writes: seq<Event>, v: VirtualServer)
    requires AllInOrder(cfg, st) && Trace(cfg, st, writes)
    requires v in Servers(cfg, key, Last(st, writes))
    ensures var now := Last(st, writes);
            exists p :: p in Pools(cfg, key, now) && p.id == v.spec.poolId &&
              GetTag(p.tags, "port") == v.spec.ipProtocol + "/" + v.spec.port &&
              forall id :: id in p.spec.activeMonitorIds ==>
                exists x :: x in Monitors(cfg, key, now) && x.id == id &&
                            GetTag(x.tags, "port") == v.spec.ipProtocol + "/" + v.spec.port
  {
    hide Base, EventOk, Trace, Servers, Pools, Monitors;
    var now := Last(st, writes);
    EverybodyStaysInOrder(cfg, st, writes);
    assert OwnOk(cfg, key, now);
    assert RefersToPool(v, Pools(cfg, key, now));
    var p :| p in Pools(cfg, key, now) && p.id == v.spec.poolId && PortOf(p.tags) == ServerPort(v);
    assert PoolRefersToMonitors(p, Monitors(cfg, key, now));
    forall id | id in p.spec.activeMonitorIds
      ensures exists x :: x in Monitors(cfg, key, now) && x.id == id &&
                          GetTag(x.tags, "port") == v.spec.ipProtocol + "/" + v.spec.port
    {
      assert RefersToMonitor(id, PortOf(p.tags), Monitors(cfg, key, now));
    }
  }

  /** A service has one address, class and IP pool, and one server, pool and monitor for a port. */
  lemma OneOfEach(cfg: Config, key: string, st: Store, writes: seq<Event>)
    requires AllInOrder(cfg, st) && Trace(cfg, st, writes)
    ensures var vs := Servers(cfg, key, Last(st, writes));
            && (forall v, w :: v in vs && w in vs ==>
                  && v.spec.ipAddress == w.spec.ipAddress && GetTag(v.tags, "lbclass") == GetTag(w.tags, "lbclass")
                  && GetTag(v.tags, "ippoolid") == GetTag(w.tags, "ippoolid"))
            && (forall v, w :: v in vs && w in vs && v.spec.port == w.spec.port && v.spec.ipProtocol == w.spec.ipProtocol ==>
                  v == w)
    ensures var ps, ms := Pools(cfg, key, Last(st, writes)), Monitors(cfg, key, Last(st, writes));
            && (forall p, q :: p in ps && q in ps && GetTag(p.tags, "port") == GetTag(q.tags, "port") ==> p == q)
            && (forall x, y :: x in ms && y in ms && GetTag(x.tags, "port") == GetTag(y.tags, "port") ==> x == y)
  {
    hide Base, EventOk, Trace, Servers, Pools, Monitors;
    EverybodyStaysInOrder(cfg, st, writes);
    assert OwnOk(cfg, key, Last(st, writes));
  }

  /** Where detaching finds whatever attaching may pick, no attached id ever dangles or repeats. */
  lemma NothingDangles(cfg: Config, st: Store, writes: seq<Event>)
    requires AllInOrder(cfg, st) && Trace(cfg, st, writes) && Covered(cfg)
    ensures var now := Last(st, writes);
            AttachedOnce(now.services) &&
            forall svc, id :: svc in now.services && id in svc.spec.virtualServerIds ==>
              exists v :: v in now.servers && v.id == id
  {
    hide EventOk, Trace, OwnOk, IdsOk, AttachedOnce, AllIds;
    EverybodyStaysInOrder(cfg, st, writes);
    var now := Last(st, writes);
    AttachedOnceExact(now.services);
    forall svc, id | svc in now.services && id in svc.spec.virtualServerIds
      ensures exists v :: v in now.servers && v.id == id
    {
      AllIdsExact(now.services, id);
      assert HasId(now.servers, id);
    }
  }

  /** No pool ever has more addresses allocated than it has, or one that is not its own. */
  lemma AllocationsInRange(cfg: Config, st: Store, writes: seq<Event>, poolId: string)
    requires AllInOrder(cfg, st) && Trace(cfg, st, writes) && poolId in Last(st, writes).ipPools
    ensures var pool := Last(st, writes).ipPools[poolId];
            pool.allocations <= AddressesUpTo(pool, pool.size) && |pool.allocations| <= pool.size
  {
    hide EventOk, Trace, OwnOk, IdsOk;
    EverybodyStaysInOrder(cfg, st, writes);
    var pool := Last(st, writes).ipPools[poolId];
    AddressesCardinality(pool, pool.size);
    assert AddressesUpTo(pool, pool.size) == pool.allocations + (AddressesUpTo(pool, pool.size) - pool.allocations);
  }
}
