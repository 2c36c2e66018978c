/** The ledger of addresses: what is allocated is what servers use, and no two services share an address. */
module Addressing {
  import opened Results
  import opened Tags
  import opened Resources
  import opened BrokerState
  import opened Ownership

  /** An address of a pool. */
  datatype Lease = Lease(poolId: string, address: string)

  function LeaseOf(v: VirtualServer): Lease
  {
    Lease(GetTag(v.tags, SCOPE_IP_POOL), v.spec.ipAddress)
  }

  predicate Uses(cfg: Config, v: VirtualServer, l: Lease)
  {
    CheckTags(v.tags, ClusterQuery(cfg)) && LeaseOf(v) == l
  }

  ghost predicate InUse(cfg: Config, servers: seq<VirtualServer>, l: Lease)
  {
    exists v :: v in servers && Uses(cfg, v, l)
  }

  ghost predicate Exclusive(cfg: Config, servers: seq<VirtualServer>)
  {
    forall v, w, l :: v in servers && w in servers && Uses(cfg, v, l) && Uses(cfg, w, l) ==>
                        Lookup(v.tags, SCOPE_SERVICE) == Lookup(w.tags, SCOPE_SERVICE)
  }

  predicate Leased(st: Store, l: Lease)
  {
    IsAllocated(st, l.poolId, l.address)
  }

  /** The allocated addresses are those in use, and those in `held`, which are not. */
  ghost predicate Accounts(cfg: Config, st: Store, held: set<Lease>)
  {
    && Exclusive(cfg, st.servers)
    && (forall l :: l in held ==> !InUse(cfg, st.servers, l))
    && (forall l: Lease :: l.poolId in st.ipPools ==> (Leased(st, l) <==> InUse(cfg, st.servers, l) || l in held))
  }

  function SetOf(held: Option<Lease>): set<Lease>
  {
    if held.Some? then {held.value} else {}
  }

  ghost predicate Balanced(cfg: Config, st: Store, held: Option<Lease>)
  {
    Accounts(cfg, st, SetOf(held))
  }

  /** A server of ours, of whatever service, with the address, from the pool. */
  predicate ServesAt(cfg: Config, v: VirtualServer, l: Lease)
  {
    && Lookup(v.tags, "owner") == Some(cfg.standardTags["owner"].value) && Lookup(v.tags, "cluster") == Some(cfg.cluster)
    && v.spec.ipAddress == l.address && GetTag(v.tags, "ippoolid") == l.poolId
  }

  /** Allocated are the addresses of our servers and those in `held`, which no server has; servers of different services
      have different ones. */
  ghost predicate AllocatedAre(cfg: Config, st: Store, held: set<Lease>)
  {
    && (forall l: Lease :: l.poolId in st.ipPools ==>
          (l.address in st.ipPools[l.poolId].allocations <==>
            l in held || exists v :: v in st.servers && ServesAt(cfg, v, l)))
    && (forall l, v :: l in held && v in st.servers ==> !ServesAt(cfg, v, l))
    && (forall v, w, l :: v in st.servers && w in st.servers && ServesAt(cfg, v, l) && ServesAt(cfg, w, l) ==>
          Lookup(v.tags, "service") == Lookup(w.tags, "service"))
  }

  lemma UsesExact(cfg: Config, v: VirtualServer, l: Lease)
    ensures Uses(cfg, v, l) <==> ServesAt(cfg, v, l)
  {
    hide Lookup, CheckTags;
    ClusterQueryExact(cfg, v.tags);
  }

  /** The ledger, in terms of tags, addresses and pools. */
  lemma AccountsExact(cfg: Config, st: Store, held: set<Lease>)
    ensures Accounts(cfg, st, held) <==> AllocatedAre(cfg, st, held)
  {
    hide Lookup, CheckTags, ServesAt, Uses;
    forall v, l ensures Uses(cfg, v, l) <==> ServesAt(cfg, v, l) {
      UsesExact(cfg, v, l);
    }
    forall l ensures InUse(cfg, st.servers, l) <==> exists v :: v in st.servers && ServesAt(cfg, v, l) {
    }
  }

  lemma BalancedExact(cfg: Config, st: Store)
    ensures Balanced(cfg, st, None) <==> AllocatedAre(cfg, st, {})
  {
    AccountsExact(cfg, st, {});
  }

  lemma ReleaseBalanced(cfg: Config, st: Store, l: Lease)
    requires Balanced(cfg, st, Some(l)) && l.poolId in st.ipPools
    ensures Balanced(cfg, Release(st, l.poolId, l.address), None)
  {
  }

  /** Releasing an address without a look at the servers is right exactly when no server has it. */
  lemma ReleaseExact(cfg: Config, st: Store, l: Lease)
    requires Balanced(cfg, st, None) && l.poolId in st.ipPools
    ensures Balanced(cfg, Release(st, l.poolId, l.address), None) <==> !InUse(cfg, st.servers, l)
  {
  }

  lemma NothingToRelease(cfg: Config, st: Store, l: Lease)
    requires Balanced(cfg, st, Some(l)) && !Leased(st, l)
    ensures Balanced(cfg, st, None)
  {
  }

  lemma OwnUser(cfg: Config, key: string, servers: seq<VirtualServer>, w: VirtualServer)
    requires w in Select(Query(cfg, key), servers)
    ensures w in servers && Uses(cfg, w, LeaseOf(w)) && Lookup(w.tags, SCOPE_SERVICE) == Some(key)
  {
  }

  /** A server may be created with the held address, or with that of another server of the service. */
  lemma CreateBalanced(cfg: Config, key: string, st: Store, tags: seq<Tag>, spec: ServerSpec, held: Option<Lease>)
    requires Balanced(cfg, st, held) && CheckTags(tags, Query(cfg, key))
    requires var l := LeaseOf(Resource("", tags, spec));
             held == Some(l) || (held == None && exists w :: w in Servers(cfg, key, st) && LeaseOf(w) == l)
    ensures Balanced(cfg, CreateServer(st, tags, spec), None)
  {
    hide CheckTags, Exclusive, InUse, Leased, Lookup;
    var st' := CreateServer(st, tags, spec);
    var x := st'.servers[|st.servers|];
    var l := LeaseOf(Resource("", tags, spec));
    if held == None {
      var w :| w in Servers(cfg, key, st) && LeaseOf(w) == l;
      OwnUser(cfg, key, st.servers, w);
      UserUses(cfg, st.servers, w, l);
    }
    OneUserMore(cfg, key, st, x, held);
    GrownBalanced(cfg, st, st', l, held);
  }

  lemma OneUserMore(cfg: Config, key: string, st: Store, x: VirtualServer, held: Option<Lease>)
    requires Balanced(cfg, st, held) && CheckTags(x.tags, Query(cfg, key))
    requires held == Some(LeaseOf(x)) ||
             exists w :: w in Servers(cfg, key, st) && LeaseOf(w) == LeaseOf(x)
    ensures Exclusive(cfg, st.servers + [x])
    ensures forall k :: InUse(cfg, st.servers + [x], k) <==> InUse(cfg, st.servers, k) || k == LeaseOf(x)
  {
    hide CheckTags, Exclusive, InUse, Leased, Lookup, LeaseOf;
    QueryTags(cfg, key, x.tags);
    forall k ensures InUse(cfg, st.servers + [x], k) <==> InUse(cfg, st.servers, k) || k == LeaseOf(x) {
      UsersAppend(cfg, st.servers, x, k);
    }
    if held == Some(LeaseOf(x)) {
      Unused(cfg, st.servers, LeaseOf(x));
    } else {
      var w :| w in Servers(cfg, key, st) && LeaseOf(w) == LeaseOf(x);
      OwnUser(cfg, key, st.servers, w);
      ExclusiveWith(cfg, st.servers, w, LeaseOf(x));
    }
    ExclusiveAppend(cfg, st.servers, x);
  }

  lemma GrownBalanced(cfg: Config, st: Store, st': Store, l: Lease, held: Option<Lease>)
    requires Balanced(cfg, st, held) && st'.ipPools == st.ipPools && Exclusive(cfg, st'.servers)
    requires forall k :: InUse(cfg, st'.servers, k) <==> InUse(cfg, st.servers, k) || k == l
    requires held == Some(l) || (held == None && InUse(cfg, st.servers, l))
    ensures Balanced(cfg, st', None)
  {
    hide InUse, Exclusive, Leased;
    SameLeased(st, st');
  }

  lemma UsersAppend(cfg: Config, servers: seq<VirtualServer>, x: VirtualServer, k: Lease)
    ensures InUse(cfg, servers + [x], k) <==> InUse(cfg, servers, k) || Uses(cfg, x, k)
  {
    hide Uses;
    assert x in servers + [x];
    if v :| v in servers && Uses(cfg, v, k) {
      assert v in servers + [x];
    }
  }

  lemma Unused(cfg: Config, servers: seq<VirtualServer>, l: Lease)
    requires !InUse(cfg, servers, l)
    ensures forall v :: v in servers ==> !Uses(cfg, v, l)
  {
  }

  lemma ExclusiveWith(cfg: Config, servers: seq<VirtualServer>, w: VirtualServer, l: Lease)
    requires Exclusive(cfg, servers) && w in servers && Uses(cfg, w, l)
    ensures forall v :: v in servers && Uses(cfg, v, l) ==> Lookup(v.tags, SCOPE_SERVICE) == Lookup(w.tags, SCOPE_SERVICE)
  {
  }

  lemma ExclusiveAppend(cfg: Config, servers: seq<VirtualServer>, x: VirtualServer)
    requires Exclusive(cfg, servers)
    requires forall v :: v in servers && Uses(cfg, v, LeaseOf(x)) ==>
                           Lookup(v.tags, SCOPE_SERVICE) == Lookup(x.tags, SCOPE_SERVICE)
    ensures Exclusive(cfg, servers + [x])
  {
  }

  lemma UpdateBalanced(cfg: Config, st: Store, x: VirtualServer, before: VirtualServer, held: Option<Lease>)
    requires Balanced(cfg, st, held) && UniqueIds(st.servers)
    requires before in st.servers && before.id == x.id && before.tags == x.tags
    requires before.spec.ipAddress == x.spec.ipAddress
    ensures Balanced(cfg, st.(servers := Replace(st.servers, x)), held)
  {
    var st' := st.(servers := Replace(st.servers, x));
    assert HasId(st.servers, x.id);
    ReplaceMembers(st.servers, x);
    forall k: Lease ensures InUse(cfg, st'.servers, k) <==> InUse(cfg, st.servers, k) {
      assert Uses(cfg, x, k) == Uses(cfg, before, k);
      if InUse(cfg, st.servers, k) {
        var w :| w in st.servers && Uses(cfg, w, k);
        if w.id == x.id {
          SameId(st.servers, w, before);
        } else {
          assert w in st'.servers;
        }
      }
    }
    forall v, w, l | v in st'.servers && w in st'.servers && Uses(cfg, v, l) && Uses(cfg, w, l)
      ensures Lookup(v.tags, SCOPE_SERVICE) == Lookup(w.tags, SCOPE_SERVICE)
    {
      var v', w' := if v == x then before else v, if w == x then before else w;
      assert Uses(cfg, v', l) && Uses(cfg, w', l);
    }
    forall k: Lease | k.poolId in st'.ipPools ensures Leased(st', k) == Leased(st, k) {
    }
  }

  /** A first server takes the address just allocated, a further one that of the others. */
  lemma CreateWithAddress(cfg: Config, key: string, st: Store, tags: seq<Tag>, spec: ServerSpec, fromPool: bool)
    requires CheckTags(tags, Query(cfg, key))
    requires var l := LeaseOf(Resource("", tags, spec));
             if fromPool then Balanced(cfg, st, Some(l))
             else Balanced(cfg, st, None) && Servers(cfg, key, st) != [] &&
                  forall w :: w in Servers(cfg, key, st) ==> LeaseOf(w) == l
    ensures Balanced(cfg, CreateServer(st, tags, spec), None)
  {
    var own := Servers(cfg, key, st);
    assert own != [] ==> own[0] in own;
    CreateBalanced(cfg, key, st, tags, spec, if fromPool then Some(LeaseOf(Resource("", tags, spec))) else None);
  }

  /** Giving up an address, as the end of a deletion run does, keeps the ledger exactly when the address was held without
      a server, or is nobody's: not that of a server left behind, nor one that another service got since. */
  lemma GivingUpExact(cfg: Config, st: Store, l: Lease, held: Option<Lease>)
    requires Balanced(cfg, st, held) && (held.Some? ==> held == Some(l))
    ensures var st' := if Leased(st, l) then Release(st, l.poolId, l.address) else st;
            && (held.Some? ==> Balanced(cfg, st', None))
            && (l.poolId in st.ipPools ==> (Balanced(cfg, st', None) <==> held.Some? || !InUse(cfg, st.servers, l)))
  {
    if held.Some? {
      if Leased(st, l) {
        ReleaseBalanced(cfg, st, l);
      } else {
        NothingToRelease(cfg, st, l);
      }
    } else if l.poolId in st.ipPools {
      ReleaseExact(cfg, st, l);
    }
  }

  // ---------------------------------------------------------------- what a run can do to the ledger

  ghost predicate UsedByOthers(cfg: Config, key: string, servers: seq<VirtualServer>, l: Lease)
  {
    exists v :: v in servers && Uses(cfg, v, l) && Lookup(v.tags, SCOPE_SERVICE) != Some(key)
  }

  /** No address but `l` was allocated or released. */
  ghost predicate PoolsBut(st: Store, st': Store, l: Lease)
  {
    st'.ipPools.Keys == st.ipPools.Keys && forall k: Lease :: k != l ==> Leased(st', k) == Leased(st, k)
  }

  ghost predicate AllHave(servers: seq<VirtualServer>, l: Lease)
  {
    forall v :: v in servers ==> LeaseOf(v) == l
  }

  /** What a run for `key` may have changed that the ledger sees: its own servers, and whether `l`, the address they
      have, is allocated. */
  ghost predicate AtStake(cfg: Config, key: string, st: Store, st': Store, l: Lease)
  {
    SameOthers(cfg, key, st, st') && PoolsBut(st, st', l) &&
    AllHave(Servers(cfg, key, st), l) && AllHave(Servers(cfg, key, st'), l)
  }

  lemma PoolsButSame(st: Store, st': Store, l: Lease)
    requires st'.ipPools == st.ipPools
    ensures PoolsBut(st, st', l)
  {
    SameLeased(st, st');
  }

  lemma PoolsButTransitive(st: Store, mid: Store, st': Store, l: Lease)
    requires PoolsBut(st, mid, l) && PoolsBut(mid, st', l)
    ensures PoolsBut(st, st', l)
  {
    hide Leased;
  }

  lemma PoolsButAllocated(st: Store, l: Lease)
    requires l.poolId in st.ipPools
    ensures PoolsBut(st, Allocate(st, l.poolId, l.address), l) && Leased(Allocate(st, l.poolId, l.address), l)
  {
  }

  lemma PoolsButReleased(st: Store, st': Store, l: Lease)
    requires Leased(st, l) && st'.ipPools == Release(st, l.poolId, l.address).ipPools
    ensures PoolsBut(st, st', l) && !Leased(st', l)
  {
  }

  /** Whether the address is left allocated without a server. */
  ghost function HeldAfter(cfg: Config, key: string, st': Store, l: Lease, held: set<Lease>): set<Lease>
  {
    if Servers(cfg, key, st') == [] && Leased(st', l) then held + {l} else held - {l}
  }

  lemma OwnUsersOnly(cfg: Config, key: string, servers: seq<VirtualServer>, v: VirtualServer, l: Lease)
    requires v in servers && Uses(cfg, v, l)
    ensures if Lookup(v.tags, SCOPE_SERVICE) == Some(key) then v in Select(Query(cfg, key), servers)
            else v in Reject(Query(cfg, key), servers)
  {
    QueryTags(cfg, key, v.tags);
  }

  /** Who uses an address after a run: for the one at stake the service itself, while it has servers, or others that
      did before; for any other address those that did before. */
  lemma UsersAfter(cfg: Config, key: string, st: Store, st': Store, l: Lease, k: Lease)
    requires AtStake(cfg, key, st, st', l)
    ensures InUse(cfg, st'.servers, k) <==>
            if k == l then Servers(cfg, key, st') != [] || UsedByOthers(cfg, key, st.servers, l) else InUse(cfg, st.servers, k)
  {
    hide CheckTags, Uses;
    var q := Query(cfg, key);
    if v :| v in st'.servers && Uses(cfg, v, k) {
      OwnUsersOnly(cfg, key, st'.servers, v, k);
      UsedLease(cfg, v, k);
      assert v in Reject(q, st'.servers) ==> v in Reject(q, st.servers);
    }
    if v :| v in st.servers && Uses(cfg, v, k) {
      if k != l || Lookup(v.tags, SCOPE_SERVICE) != Some(key) {
        OwnUsersOnly(cfg, key, st.servers, v, k);
        UsedLease(cfg, v, k);
        assert v in Reject(q, st'.servers);
      }
    }
    if k == l && UsedByOthers(cfg, key, st.servers, l) {
      var v :| v in st.servers && Uses(cfg, v, l) && Lookup(v.tags, SCOPE_SERVICE) != Some(key);
      OwnUsersOnly(cfg, key, st.servers, v, l);
      assert v in Reject(q, st'.servers);
    }
    var own := Servers(cfg, key, st');
    if own != [] {
      assert own[0] in own;
      OwnUser(cfg, key, st'.servers, own[0]);
    }
  }

  lemma UsedLease(cfg: Config, v: VirtualServer, l: Lease)
    requires Uses(cfg, v, l)
    ensures LeaseOf(v) == l
  {
  }

  lemma ExclusiveAfter(cfg: Config, key: string, st: Store, st': Store, l: Lease)
    requires AtStake(cfg, key, st, st', l) && Exclusive(cfg, st.servers)
    ensures Exclusive(cfg, st'.servers) <==> Servers(cfg, key, st') == [] || !UsedByOthers(cfg, key, st.servers, l)
  {
    hide CheckTags, Uses;
    var q, own := Query(cfg, key), Servers(cfg, key, st');
    if own != [] && UsedByOthers(cfg, key, st.servers, l) {
      var v :| v in st.servers && Uses(cfg, v, l) && Lookup(v.tags, SCOPE_SERVICE) != Some(key);
      OwnUsersOnly(cfg, key, st.servers, v, l);
      assert v in Reject(q, st'.servers) && own[0] in own;
      OwnUser(cfg, key, st'.servers, own[0]);
      assert !Exclusive(cfg, st'.servers);
    } else {
      forall v, w, k | v in st'.servers && w in st'.servers && Uses(cfg, v, k) && Uses(cfg, w, k)
        ensures Lookup(v.tags, SCOPE_SERVICE) == Lookup(w.tags, SCOPE_SERVICE)
      {
        SameUser(cfg, key, st, st', l, v, w, k);
      }
    }
  }

  lemma SameUser(cfg: Config, key: string, st: Store, st': Store, l: Lease, v: VirtualServer, w: VirtualServer, k: Lease)
    requires AtStake(cfg, key, st, st', l) && Exclusive(cfg, st.servers)
    requires Servers(cfg, key, st') == [] || !UsedByOthers(cfg, key, st.servers, l)
    requires v in st'.servers && w in st'.servers && Uses(cfg, v, k) && Uses(cfg, w, k)
    ensures Lookup(v.tags, SCOPE_SERVICE) == Lookup(w.tags, SCOPE_SERVICE)
  {
    hide CheckTags, Uses, Select, Reject, Lookup, PoolsBut, Exclusive, UsedByOthers;
    UserBefore(cfg, key, st, st', l, v, k);
    UserBefore(cfg, key, st, st', l, w, k);
    if Lookup(v.tags, SCOPE_SERVICE) != Some(key) || Lookup(w.tags, SCOPE_SERVICE) != Some(key) {
      var x := if Lookup(v.tags, SCOPE_SERVICE) != Some(key) then v else w;
      if Lookup(v.tags, SCOPE_SERVICE) == Some(key) || Lookup(w.tags, SCOPE_SERVICE) == Some(key) {
        OtherUser(cfg, key, st.servers, x, k);
      } else {
        ExclusiveWith(cfg, st.servers, w, k);
      }
    }
  }

  lemma OtherUser(cfg: Config, key: string, servers: seq<VirtualServer>, v: VirtualServer, l: Lease)
    requires v in servers && Uses(cfg, v, l) && Lookup(v.tags, SCOPE_SERVICE) != Some(key)
    ensures UsedByOthers(cfg, key, servers, l)
  {
  }

  /** A user of an address is either a server of the run's service, which has the one at stake, or was there before. */
  lemma UserBefore(cfg: Config, key: string, st: Store, st': Store, l: Lease, v: VirtualServer, k: Lease)
    requires AtStake(cfg, key, st, st', l) && v in st'.servers && Uses(cfg, v, k)
    ensures if Lookup(v.tags, SCOPE_SERVICE) == Some(key) then k == l && Servers(cfg, key, st') != [] else v in st.servers
  {
    hide CheckTags, Uses, Lookup;
    OwnUsersOnly(cfg, key, st'.servers, v, k);
    UsedLease(cfg, v, k);
    assert v in Reject(Query(cfg, key), st'.servers) ==> v in Reject(Query(cfg, key), st.servers);
  }

  /** After a run, whatever failed in it, the allocated addresses are again those in use and those held, which the one
      at stake joins when it is left without a server, exactly if a server that is left has an allocated address for
      itself, and no other service's address was given back. */
  lemma StakeExact(cfg: Config, key: string, st: Store, st': Store, l: Lease, held: set<Lease>)
    requires Accounts(cfg, st, held) && AtStake(cfg, key, st, st', l)
    ensures !UsedByOthers(cfg, key, st.servers, l) ==>
              (Accounts(cfg, st', HeldAfter(cfg, key, st', l, held)) <==>
                (Servers(cfg, key, st') != [] && l.poolId in st.ipPools ==> Leased(st', l)))
    ensures UsedByOthers(cfg, key, st.servers, l) ==>
              (Accounts(cfg, st', held) <==>
                Servers(cfg, key, st') == [] && (l.poolId in st.ipPools ==> Leased(st', l)))
  {
    hide SameOthers, AllHave, Exclusive, InUse, UsedByOthers, Leased, Servers;
    ExclusiveAfter(cfg, key, st, st', l);
    forall k: Lease {
      UsersAfter(cfg, key, st, st', l, k);
    }
    UnknownPool(st', l);
    if UsedByOthers(cfg, key, st.servers, l) {
      OthersUse(cfg, key, st.servers, l);
    }
  }

  lemma UnknownPool(st: Store, l: Lease)
    ensures Leased(st, l) ==> l.poolId in st.ipPools
  {
  }

  lemma OthersUse(cfg: Config, key: string, servers: seq<VirtualServer>, l: Lease)
    requires UsedByOthers(cfg, key, servers, l)
    ensures InUse(cfg, servers, l)
  {
  }

  /** Deleting the last server of a service leaves its address allocated and unused. */
  lemma RemoveBalanced(cfg: Config, key: string, st: Store, v: VirtualServer)
    requires Balanced(cfg, st, None) && UniqueIds(st.servers) && ServersOk(Servers(cfg, key, st))
    requires v in Servers(cfg, key, st)
    ensures var st' := st.(servers := Remove(st.servers, v.id));
            Balanced(cfg, st', if Servers(cfg, key, st') == [] then Some(LeaseOf(v)) else None)
  {
    hide Exclusive, InUse, UsedByOthers, Uses, CheckTags, Lookup, UniqueIds, ServersOk, AtStake, Remove, Leased;
    var st', l := st.(servers := Remove(st.servers, v.id)), LeaseOf(v);
    SameLeased(st, st');
    OwnRemoved(cfg, key, st, v);
    OwnUser(cfg, key, st.servers, v);
    OwnNotOthers(cfg, key, st.servers, v);
    assert InUse(cfg, st.servers, l) by { UserUses(cfg, st.servers, v, l); }
    StakeExact(cfg, key, st, st', l, {});
    UsersAfter(cfg, key, st, st', l, l);
  }

  lemma SameLeased(st: Store, st': Store)
    requires st'.ipPools == st.ipPools
    ensures forall l :: Leased(st', l) == Leased(st, l)
  {
  }

  lemma OwnRemoved(cfg: Config, key: string, st: Store, v: VirtualServer)
    requires UniqueIds(st.servers) && ServersOk(Servers(cfg, key, st)) && v in Servers(cfg, key, st)
    ensures AtStake(cfg, key, st, st.(servers := Remove(st.servers, v.id)), LeaseOf(v))
  {
    hide CheckTags, UniqueIds, ServersOk, Remove, Leased, AllHave, SameOthers, Select, Reject, LeaseOf;
    var st' := st.(servers := Remove(st.servers, v.id));
    RemovedOnly(cfg, key, st, v);
    SameLeases(Servers(cfg, key, st), Servers(cfg, key, st'), v);
    SameLeased(st, st');
  }

  lemma RemovedOnly(cfg: Config, key: string, st: Store, v: VirtualServer)
    requires UniqueIds(st.servers) && v in Servers(cfg, key, st)
    ensures var st' := st.(servers := Remove(st.servers, v.id));
            SameOthers(cfg, key, st, st') && forall w :: w in Servers(cfg, key, st') ==> w in Servers(cfg, key, st)
  {
    hide CheckTags, UniqueIds, Remove;
    var q := Query(cfg, key);
    forall r | r in st.servers && r.id == v.id ensures CheckTags(r.tags, q) {
      SameId(st.servers, r, v);
    }
    SelectRemove(q, st.servers, v.id);
    RemoveMembers(st.servers, v.id);
  }

  lemma SameLeases(own: seq<VirtualServer>, left: seq<VirtualServer>, v: VirtualServer)
    requires ServersOk(own) && v in own && forall w :: w in left ==> w in own
    ensures AllHave(own, LeaseOf(v)) && AllHave(left, LeaseOf(v))
  {
    forall w | w in own ensures LeaseOf(w) == LeaseOf(v) {
      assert SameAddress(v, w);
    }
  }

  lemma UserUses(cfg: Config, servers: seq<VirtualServer>, v: VirtualServer, l: Lease)
    requires v in servers && Uses(cfg, v, l)
    ensures InUse(cfg, servers, l)
  {
  }

  /** While a service has a server, nobody else uses its address. */
  lemma OwnNotOthers(cfg: Config, key: string, servers: seq<VirtualServer>, v: VirtualServer)
    requires Exclusive(cfg, servers) && v in Select(Query(cfg, key), servers)
    ensures !UsedByOthers(cfg, key, servers, LeaseOf(v))
  {
    hide CheckTags;
    OwnUser(cfg, key, servers, v);
    ExclusiveWith(cfg, servers, v, LeaseOf(v));
  }

  /** The address at stake, if a run has one: without it there were no servers, are none, and no address changed hands. */
  ghost predicate MayChange(cfg: Config, key: string, st: Store, st': Store, stake: Option<Lease>)
  {
    match stake
    case Some(l) => AtStake(cfg, key, st, st', l)
    case None =>
      SameOthers(cfg, key, st, st') && st'.ipPools == st.ipPools &&
      Servers(cfg, key, st) == [] && Servers(cfg, key, st') == []
  }

  lemma OneStake(cfg: Config, key: string, st: Store, mid: Store, st': Store, l: Lease, k: Lease)
    requires AtStake(cfg, key, st, mid, l) && AtStake(cfg, key, mid, st', k) && Servers(cfg, key, mid) != []
    ensures k == l
  {
    hide SameOthers, PoolsBut, Servers;
    assert Servers(cfg, key, mid)[0] in Servers(cfg, key, mid);
  }

  lemma AtStakeTransitive(cfg: Config, key: string, st: Store, mid: Store, st': Store, l: Lease)
    requires AtStake(cfg, key, st, mid, l) && AtStake(cfg, key, mid, st', l)
    ensures AtStake(cfg, key, st, st', l)
  {
    hide SameOthers, PoolsBut, Servers, AllHave;
    SameOthersTransitive(cfg, key, st, mid, st');
    PoolsButTransitive(st, mid, st', l);
  }

  /** Where the address of a service is known, that of its servers or that held for it, whatever happened to it since
      has come to good once no server is left and the address is given up. */
  lemma GivenUpSince(cfg: Config, key: string, st: Store, st': Store, l: Lease, held: Option<Lease>)
    requires AtStake(cfg, key, st, st', l) && Balanced(cfg, st, held)
    requires if Servers(cfg, key, st) != [] then held == None else held == Some(l) || (held == None && !InUse(cfg, st.servers, l))
    requires Servers(cfg, key, st') == [] && !Leased(st', l)
    ensures Balanced(cfg, st', None)
  {
    hide SameOthers, Exclusive, InUse, UsedByOthers, Leased, Servers, AtStake, Accounts;
    if Servers(cfg, key, st) == [] {
      StatusGivenUp(cfg, key, st, st', l);
      UsedByOthersOnly(cfg, key, st, l);
    } else {
      AddressOfServers(cfg, key, st, st', l, {});
    }
    StakeExact(cfg, key, st, st', l, SetOf(held));
    assert {} - {l} == {};
  }

  lemma NoneAtStake(cfg: Config, key: string, st: Store, st': Store, l: Lease)
    requires MayChange(cfg, key, st, st', None)
    ensures AtStake(cfg, key, st, st', l)
  {
    hide SameOthers, PoolsBut, Servers;
    PoolsButSame(st, st', l);
  }

  /** A run with nothing at stake leaves the ledger as it was. */
  lemma NothingAtStake(cfg: Config, key: string, st: Store, st': Store, held: set<Lease>)
    requires MayChange(cfg, key, st, st', None) && Accounts(cfg, st, held)
    ensures Accounts(cfg, st', held)
  {
    hide SameOthers, Servers, InUse, Exclusive, UsedByOthers, Leased;
    SameLeased(st, st');
    forall k: Lease ensures InUse(cfg, st'.servers, k) == InUse(cfg, st.servers, k) {
      PoolsButSame(st, st', k);
      UsersAfter(cfg, key, st, st', k, k);
      UsedByOthersOnly(cfg, key, st, k);
    }
    PoolsButSame(st, st', Lease("", ""));
    assert AtStake(cfg, key, st, st', Lease("", ""));
    ExclusiveAfter(cfg, key, st, st', Lease("", ""));
  }

  lemma UsedByOthersOnly(cfg: Config, key: string, st: Store, l: Lease)
    requires Servers(cfg, key, st) == []
    ensures UsedByOthers(cfg, key, st.servers, l) <==> InUse(cfg, st.servers, l)
  {
    hide CheckTags;
    if v :| v in st.servers && Uses(cfg, v, l) {
      OwnUsersOnly(cfg, key, st.servers, v, l);
    }
  }

  /** A run without ports that found no server, and gave up the address of the status: right if that was still held, and
      otherwise exactly if nobody else has it by now. */
  lemma StatusGivenUp(cfg: Config, key: string, st: Store, st': Store, l: Lease)
    requires AtStake(cfg, key, st, st', l) && Servers(cfg, key, st) == [] && Servers(cfg, key, st') == [] && !Leased(st', l)
    ensures Balanced(cfg, st, Some(l)) ==> Balanced(cfg, st', None)
    ensures Balanced(cfg, st, None) && l.poolId in st.ipPools ==> (Balanced(cfg, st', None) <==> !InUse(cfg, st.servers, l))
  {
    hide SameOthers, Exclusive, InUse, UsedByOthers, Leased, Servers, AtStake, Accounts;
    UsedByOthersOnly(cfg, key, st, l);
    if Balanced(cfg, st, Some(l)) {
      HeldUnused(cfg, st, {l}, l);
      StakeExact(cfg, key, st, st', l, {l});
      assert {l} - {l} == {};
    }
    if Balanced(cfg, st, None) {
      StakeExact(cfg, key, st, st', l, {});
      assert {} - {l} == {};
    }
  }

  lemma HeldUnused(cfg: Config, st: Store, held: set<Lease>, l: Lease)
    requires Accounts(cfg, st, held) && l in held
    ensures !InUse(cfg, st.servers, l)
  {
  }

  /** A run with ports that found no server, and set them up under the address of the status: right if that was still
      held, and otherwise exactly if no server came to be. */
  lemma StatusTaken(cfg: Config, key: string, st: Store, st': Store, l: Lease)
    requires AtStake(cfg, key, st, st', l) && Servers(cfg, key, st) == [] && st'.ipPools == st.ipPools
    ensures Balanced(cfg, st, Some(l)) ==> Balanced(cfg, st', if Servers(cfg, key, st') == [] then Some(l) else None)
    ensures Balanced(cfg, st, None) && l.poolId in st.ipPools ==>
              (Balanced(cfg, st', None) <==> Servers(cfg, key, st') == [])
  {
    hide SameOthers, Exclusive, UsedByOthers, Servers, AtStake;
    SameLeased(st, st');
    UsedByOthersOnly(cfg, key, st, l);
    if Balanced(cfg, st, Some(l)) {
      StakeExact(cfg, key, st, st', l, {l});
      UsersAfter(cfg, key, st, st', l, l);
      assert {l} - {l} == {} && {l} + {l} == {l};
    }
    if Balanced(cfg, st, None) {
      StakeExact(cfg, key, st, st', l, {});
      assert {} - {l} == {} && {} + {l} == {l};
    }
  }

  /** A run that found and left servers, and allocated and released nothing. */
  lemma AddressInUse(cfg: Config, key: string, st: Store, st': Store, l: Lease)
    requires AtStake(cfg, key, st, st', l) && Balanced(cfg, st, None) && st'.ipPools == st.ipPools
    requires Servers(cfg, key, st) != [] && Servers(cfg, key, st') != []
    ensures Balanced(cfg, st', None)
  {
    hide SameOthers, UsedByOthers, Leased, AtStake, InUse, Exclusive;
    SameLeased(st, st');
    AddressOfServers(cfg, key, st, st', l, {});
    StakeExact(cfg, key, st, st', l, {});
    assert {} - {l} == {};
  }

  /** The address at stake, where the service has servers. */
  lemma AddressOfServers(cfg: Config, key: string, st: Store, st': Store, l: Lease, held: set<Lease>)
    requires AtStake(cfg, key, st, st', l) && Accounts(cfg, st, held) && Servers(cfg, key, st) != []
    ensures !UsedByOthers(cfg, key, st.servers, l) && l !in held
    ensures l.poolId in st.ipPools ==> Leased(st, l)
  {
    hide SameOthers, UsedByOthers, Leased, AtStake, InUse, Exclusive, Uses, CheckTags;
    var own := Servers(cfg, key, st);
    assert own[0] in own;
    StakeIs(cfg, key, st, st', l, own[0]);
    OwnNotOthers(cfg, key, st.servers, own[0]);
    OwnUser(cfg, key, st.servers, own[0]);
    UserUses(cfg, st.servers, own[0], l);
  }

  lemma StakeIs(cfg: Config, key: string, st: Store, st': Store, l: Lease, v: VirtualServer)
    requires AtStake(cfg, key, st, st', l) && v in Servers(cfg, key, st)
    ensures LeaseOf(v) == l
  {
  }

  // ---------------------------------------------------------------- several services

  /** The allocated addresses are those in use, and those in `held`, each of which is kept for one service without servers. */
  ghost predicate Ledger(cfg: Config, st: Store, held: map<string, Lease>)
  {
    && Accounts(cfg, st, held.Values)
    && (forall key :: key in held ==> Servers(cfg, key, st) == [])
    && (forall key, other :: key in held && other in held && held[key] == held[other] ==> key == other)
  }

  /** No server and no service without servers has the address. */
  ghost predicate Unclaimed(cfg: Config, st: Store, held: map<string, Lease>, l: Lease)
  {
    !InUse(cfg, st.servers, l) && l !in held.Values
  }

  /** The address that a run works with is that of the servers, or held for the service, or else nobody's. */
  ghost predicate Rightful(cfg: Config, key: string, st: Store, held: map<string, Lease>, stake: Option<Lease>)
  {
    stake.Some? && Servers(cfg, key, st) == [] ==>
      if key in held then held[key] == stake.value else Unclaimed(cfg, st, held, stake.value)
  }

  /** What is held after the run: the address at stake, if it is left allocated without a server. */
  ghost function HeldSince(cfg: Config, key: string, st': Store, held: map<string, Lease>, stake: Option<Lease>):
    map<string, Lease>
  {
    match stake
    case Some(l) => if Servers(cfg, key, st') == [] && Leased(st', l) then held[key := l] else held - {key}
    case None => held
  }

  ghost predicate ServersLeased(cfg: Config, key: string, st: Store)
  {
    forall v :: v in Servers(cfg, key, st) && LeaseOf(v).poolId in st.ipPools ==> Leased(st, LeaseOf(v))
  }

  /** A run with a rightful address keeps the ledger of all services, whatever failed in it, exactly if the servers that
      it leaves have their address allocated. */
  lemma LedgerStep(cfg: Config, key: string, st: Store, st': Store, held: map<string, Lease>, stake: Option<Lease>)
    requires Ledger(cfg, st, held) && MayChange(cfg, key, st, st', stake) && Rightful(cfg, key, st, held, stake)
    ensures Ledger(cfg, st', HeldSince(cfg, key, st', held, stake)) <==> ServersLeased(cfg, key, st')
  {
    hide SameOthers, Servers, Accounts, AtStake, Rightful;
    match stake
    case None =>
      OthersStay(cfg, key, st, st', held);
      NothingAtStake(cfg, key, st, st', held.Values);
    case Some(l) =>
      StakeStep(cfg, key, st, st', held, l);
  }

  lemma StakeStep(cfg: Config, key: string, st: Store, st': Store, held: map<string, Lease>, l: Lease)
    requires Ledger(cfg, st, held) && AtStake(cfg, key, st, st', l) && Rightful(cfg, key, st, held, Some(l))
    ensures Ledger(cfg, st', HeldSince(cfg, key, st', held, Some(l))) <==> ServersLeased(cfg, key, st')
  {
    hide SameOthers, Servers, Accounts, UsedByOthers, Leased, AllHave, PoolsBut, Rightful, ServersLeased;
    OthersStay(cfg, key, st, st', held);
    StakeRightful(cfg, key, st, st', held, l);
    StakeExact(cfg, key, st, st', l, held.Values);
    StakeLeased(cfg, key, st, st', l);
    HeldValues(held, key, l);
  }

  lemma OthersStay(cfg: Config, key: string, st: Store, st': Store, held: map<string, Lease>)
    requires SameOthers(cfg, key, st, st') && forall k :: k in held ==> Servers(cfg, k, st) == []
    ensures forall k :: k in held && k != key ==> Servers(cfg, k, st') == []
  {
    hide Select, Reject;
    forall k | k in held && k != key ensures Servers(cfg, k, st') == [] {
      OthersUntouched(cfg, key, k, st.servers, st'.servers);
    }
  }

  lemma StakeRightful(cfg: Config, key: string, st: Store, st': Store, held: map<string, Lease>, l: Lease)
    requires Ledger(cfg, st, held) && AtStake(cfg, key, st, st', l) && Rightful(cfg, key, st, held, Some(l))
    ensures !UsedByOthers(cfg, key, st.servers, l)
    ensures forall k :: k in held ==> (held[k] == l <==> k == key)
  {
    hide SameOthers, Servers, Leased, AtStake, Exclusive, InUse, UsedByOthers;
    if Servers(cfg, key, st) != [] {
      AddressOfServers(cfg, key, st, st', l, held.Values);
    } else {
      UsedByOthersOnly(cfg, key, st, l);
      if key in held {
        HeldUnused(cfg, st, held.Values, l);
      }
    }
  }

  lemma StakeLeased(cfg: Config, key: string, st: Store, st': Store, l: Lease)
    requires AtStake(cfg, key, st, st', l)
    ensures ServersLeased(cfg, key, st') <==> (Servers(cfg, key, st') != [] && l.poolId in st.ipPools ==> Leased(st', l))
  {
    hide SameOthers, Servers, Leased;
    var own' := Servers(cfg, key, st');
    assert own' != [] ==> own'[0] in own';
  }

  lemma HeldValues(held: map<string, Lease>, key: string, l: Lease)
    requires forall k :: k in held ==> (held[k] == l <==> k == key)
    ensures held[key := l].Values == held.Values + {l} && (held - {key}).Values == held.Values - {l}
  {
    var more, less := held[key := l], held - {key};
    assert key in more && more[key] == l;
    forall x | x in held.Values ensures x in more.Values && (x != l ==> x in less.Values) {
      var k :| k in held && held[k] == x;
      assert k in more && more[k] == x && (x != l ==> k in less && less[k] == x);
    }
  }

  lemma PresentLeased(cfg: Config, key: string, st: Store, held: map<string, Lease>)
    requires Ledger(cfg, st, held)
    ensures ServersLeased(cfg, key, st)
  {
    hide InUse, Leased, CheckTags;
    forall v | v in Servers(cfg, key, st) && LeaseOf(v).poolId in st.ipPools ensures Leased(st, LeaseOf(v)) {
      OwnUser(cfg, key, st.servers, v);
      UserUses(cfg, st.servers, v, LeaseOf(v));
    }
  }

  lemma SameLeasedIf(st: Store, st': Store)
    ensures st'.ipPools == st.ipPools ==> forall l :: Leased(st', l) == Leased(st, l)
  {
  }

  /** Where the address is another service's, in use or held, the ledger stays as it was exactly if the run leaves no
      server, and the address allocated. */
  lemma StaleStep(cfg: Config, key: string, st: Store, st': Store, held: map<string, Lease>, l: Lease)
    requires Ledger(cfg, st, held) && AtStake(cfg, key, st, st', l) && Servers(cfg, key, st) == [] && key !in held
    requires !Unclaimed(cfg, st, held, l)
    ensures Ledger(cfg, st', held) <==> Servers(cfg, key, st') == [] && (l.poolId in st.ipPools ==> Leased(st', l))
  {
    hide SameOthers, Servers, Accounts, UsedByOthers, Leased, AllHave, PoolsBut, InUse;
    OthersStay(cfg, key, st, st', held);
    UsedByOthersOnly(cfg, key, st, l);
    StakeExact(cfg, key, st, st', l, held.Values);
    if !UsedByOthers(cfg, key, st.servers, l) {
      HeldElsewhere(cfg, key, st, st', held.Values, l);
    }
  }

  /** The address is held for another service. */
  lemma HeldElsewhere(cfg: Config, key: string, st: Store, st': Store, held: set<Lease>, l: Lease)
    requires Accounts(cfg, st, held) && AtStake(cfg, key, st, st', l) && Servers(cfg, key, st) == [] && l in held
    ensures Accounts(cfg, st', held) <==> Servers(cfg, key, st') == [] && (l.poolId in st.ipPools ==> Leased(st', l))
  {
    hide SameOthers, Servers, UsedByOthers, Leased, Exclusive, InUse, AllHave;
    UsedByOthersOnly(cfg, key, st, l);
    ExclusiveAfter(cfg, key, st, st', l);
    forall k: Lease {
      UsersAfter(cfg, key, st, st', l, k);
    }
  }

  /** The failing input: a status still names an address that another service got since. Giving it up, which nothing in
      the run prevents, leaves a server with an address that the pool may hand out again. */
  lemma StaleStatusTakesAddress(cfg: Config, key: string, other: string)
    requires key != other
    ensures var l := Lease("ip-pool-0", "10.111.0.1");
            var pool := IpPool("10.111.0", 10, {l.address});
            var tags := Query(cfg, other) + [Tag(SCOPE_IP_POOL, l.poolId)];
            var st := Store([], [Resource("server-1", tags, ServerSpec("80", "TCP", l.address, "80", "pool-0"))], [], [],
                            map[l.poolId := pool], 2);
            && Servers(cfg, key, st) == [] && Balanced(cfg, st, None)
            && !Balanced(cfg, Release(st, l.poolId, l.address), None)
  {
    hide Accounts;
    var l := Lease("ip-pool-0", "10.111.0.1");
    var tags := Query(cfg, other) + [Tag(SCOPE_IP_POOL, l.poolId)];
    var v := Resource("server-1", tags, ServerSpec("80", "TCP", l.address, "80", "pool-0"));
    var st := Store([], [v], [], [], map[l.poolId := IpPool("10.111.0", 10, {l.address})], 2);
    OneServer(cfg, key, other, st, v, l);
    ReleaseExact(cfg, st, l);
  }

  lemma OneServer(cfg: Config, key: string, other: string, st: Store, v: VirtualServer, l: Lease)
    requires key != other && st.servers == [v]
    requires v.tags == Query(cfg, other) + [Tag(SCOPE_IP_POOL, l.poolId)] && v.spec.ipAddress == l.address
    requires st.ipPools.Keys == {l.poolId} && st.ipPools[l.poolId].allocations == {l.address}
    ensures Servers(cfg, key, st) == [] && Balanced(cfg, st, None) && InUse(cfg, st.servers, l)
  {
    hide CheckTags, Lookup;
    TagsOfOne(cfg, other, v.tags, l.poolId);
    QueryTags(cfg, key, v.tags);
    assert st.servers[1..] == [] && Select(Query(cfg, key), st.servers[1..]) == [];
    assert v in st.servers;
    assert Uses(cfg, v, l);
    forall k: Lease ensures InUse(cfg, st.servers, k) <==> k == l {
    }
    forall k: Lease | k.poolId in st.ipPools ensures Leased(st, k) <==> k == l {
      assert k.poolId == l.poolId;
    }
  }

  lemma TagsOfOne(cfg: Config, other: string, tags: seq<Tag>, poolId: string)
    requires tags == Query(cfg, other) + [Tag(SCOPE_IP_POOL, poolId)]
    ensures CheckTags(tags, ClusterQuery(cfg)) && Lookup(tags, SCOPE_SERVICE) == Some(other)
    ensures GetTag(tags, SCOPE_IP_POOL) == poolId
  {
    var t1, t2, t3 := tags[1..], tags[2..], tags[3..];
    assert t1[1..] == t2 && t2[1..] == t3;
    assert tags[0] == OwnerTag(cfg) && OwnerTag(cfg).scope == SCOPE_OWNER && t1[0] == Tag(SCOPE_CLUSTER, cfg.cluster);
    assert t2[0] == Tag(SCOPE_SERVICE, other) && t3[0] == Tag(SCOPE_IP_POOL, poolId);
    assert Lookup(t2, SCOPE_SERVICE) == Some(other) && Lookup(t1, SCOPE_SERVICE) == Some(other);
    assert Lookup(t3, SCOPE_IP_POOL) == Some(poolId) && Lookup(t2, SCOPE_IP_POOL) == Some(poolId);
    assert Lookup(t1, SCOPE_IP_POOL) == Some(poolId);
    assert Lookup(t1, SCOPE_CLUSTER) == Some(cfg.cluster);
  }
}
