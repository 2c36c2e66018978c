/** The broker's objects as values, and what each broker operation does to them. */
module BrokerState {
  import opened Results
  import opened Text
  import opened Tags
  import opened Members
  import opened Resources

  datatype ServerSpec = ServerSpec(port: string, ipProtocol: string, ipAddress: string,
                                   memberPort: string, poolId: string)
  datatype PoolSpec = PoolSpec(members: seq<PoolMember>, activeMonitorIds: seq<string>)
  datatype MonitorSpec = MonitorSpec(resourceType: string, monitorPort: string)
  datatype LbServiceSpec = LbServiceSpec(virtualServerIds: seq<string>, attachment: Option<string>)

  type VirtualServer = Resource<ServerSpec>
  type Pool = Resource<PoolSpec>
  type Monitor = Resource<MonitorSpec>
  type LbService = Resource<LbServiceSpec>

  datatype IpPool = IpPool(addressPrefix: string, size: nat, allocations: set<string>)

  datatype Store = Store(services: seq<LbService>, servers: seq<VirtualServer>, pools: seq<Pool>,
                         monitors: seq<Monitor>, ipPools: map<string, IpPool>, nextId: nat)

  const SERVICE_ID := "lbservice-"
  const SERVER_ID := "server-"
  const POOL_ID := "pool-"
  const MONITOR_ID := "tcp-monitor-"
  const TCP_MONITOR_TYPE := "LbTcpMonitor"
  const TCP := "TCP"

  function CreateService(st: Store, tags: seq<Tag>, spec: LbServiceSpec): Store
  {
    st.(services := st.services + [Resource(SERVICE_ID + Format(st.nextId), tags, spec)], nextId := st.nextId + 1)
  }

  function CreateServer(st: Store, tags: seq<Tag>, spec: ServerSpec): Store
  {
    st.(servers := st.servers + [Resource(SERVER_ID + Format(st.nextId), tags, spec)], nextId := st.nextId + 1)
  }

  function CreatePool(st: Store, tags: seq<Tag>, spec: PoolSpec): Store
  {
    st.(pools := st.pools + [Resource(POOL_ID + Format(st.nextId), tags, spec)], nextId := st.nextId + 1)
  }

  function CreateMonitor(st: Store, tags: seq<Tag>, spec: MonitorSpec): Store
  {
    st.(monitors := st.monitors + [Resource(MONITOR_ID + Format(st.nextId), tags, spec)], nextId := st.nextId + 1)
  }

  /** The address with the given number; the in-memory broker hands out numbers 1 to `size`. */
  function Address(pool: IpPool, i: nat): string
  {
    pool.addressPrefix + "." + Format(i)
  }

  function AddressesUpTo(pool: IpPool, n: nat): set<string>
  {
    set i | 1 <= i <= n :: Address(pool, i)
  }

  ghost predicate InRange(pool: IpPool)
  {
    pool.allocations <= AddressesUpTo(pool, pool.size)
  }

  lemma AddressInjective(pool: IpPool, i: nat, j: nat)
    requires Address(pool, i) == Address(pool, j)
    ensures i == j
  {
    var stem := pool.addressPrefix + ".";
    assert Address(pool, i) == stem + Format(i) && Address(pool, j) == stem + Format(j);
    assert (stem + Format(i))[|stem|..] == Format(i);
    assert (stem + Format(j))[|stem|..] == Format(j);
    FormatInjective(i, j);
  }

  lemma AddressNotEmpty(pool: IpPool, address: string)
    requires address in AddressesUpTo(pool, pool.size)
    ensures address != ""
  {
  }

  lemma {:induction false} AddressesCardinality(pool: IpPool, n: nat)
    ensures |AddressesUpTo(pool, n)| == n
  {
    hide Address, Format;
    if n == 0 {
      assert AddressesUpTo(pool, 0) == {};
    } else {
      AddressesCardinality(pool, n - 1);
      var before := AddressesUpTo(pool, n - 1);
      assert AddressesUpTo(pool, n) == before + {Address(pool, n)};
      if Address(pool, n) in before {
        var i :| 1 <= i <= n - 1 && Address(pool, i) == Address(pool, n);
        AddressInjective(pool, i, n);
        assert false;
      }
    }
  }

  /** A pool that is not full has an unallocated address in its range. */
  lemma SomeAddressIsFree(pool: IpPool)
    requires InRange(pool) && |pool.allocations| != pool.size
    ensures exists i :: 1 <= i <= pool.size && Address(pool, i) !in pool.allocations
  {
    AddressesCardinality(pool, pool.size);
    var range := AddressesUpTo(pool, pool.size);
    assert range <= pool.allocations ==> range == pool.allocations;
    var address :| address in range && address !in pool.allocations;
    assert exists i :: 1 <= i <= pool.size && Address(pool, i) == address;
  }

  /** The unallocated address with the lowest number: the prefix, a dot and the number. */
  ghost predicate IsLowestFree(pool: IpPool, address: string)
  {
    address !in pool.allocations &&
    exists i :: 1 <= i <= pool.size && address == pool.addressPrefix + "." + Format(i) &&
                forall j :: 1 <= j < i ==> pool.addressPrefix + "." + Format(j) in pool.allocations
  }

  lemma LowestFree(pool: IpPool, i: nat)
    requires 1 <= i <= pool.size && Address(pool, i) !in pool.allocations
    requires forall j :: 1 <= j < i ==> Address(pool, j) in pool.allocations
    ensures IsLowestFree(pool, Address(pool, i))
  {
    forall j | 1 <= j < i ensures pool.addressPrefix + "." + Format(j) in pool.allocations {
      assert Address(pool, j) in pool.allocations;
    }
    assert Address(pool, i) == pool.addressPrefix + "." + Format(i);
  }

  lemma LowestFreeInRange(pool: IpPool, address: string)
    requires IsLowestFree(pool, address)
    ensures address in AddressesUpTo(pool, pool.size)
  {
    var i :| 1 <= i <= pool.size && address == pool.addressPrefix + "." + Format(i);
    assert address == Address(pool, i);
  }

  function Allocate(st: Store, poolId: string, address: string): Store
    requires poolId in st.ipPools
  {
    var pool := st.ipPools[poolId];
    st.(ipPools := st.ipPools[poolId := pool.(allocations := pool.allocations + {address})])
  }

  /** An address can be had from the pool. */
  predicate HasFree(st: Store, poolId: string)
  {
    poolId in st.ipPools && |st.ipPools[poolId].allocations| != st.ipPools[poolId].size
  }

  predicate IsAllocated(st: Store, poolId: string, address: string)
  {
    poolId in st.ipPools && address in st.ipPools[poolId].allocations
  }

  function Release(st: Store, poolId: string, address: string): Store
    requires poolId in st.ipPools
  {
    var pool := st.ipPools[poolId];
    st.(ipPools := st.ipPools[poolId := pool.(allocations := pool.allocations - {address})])
  }

  /** Releasing an address right after it was allocated restores the pools. */
  lemma ReleaseUndoesAllocate(st: Store, poolId: string, address: string, later: Store)
    requires poolId in st.ipPools && !IsAllocated(st, poolId, address)
    requires later.ipPools == Allocate(st, poolId, address).ipPools
    ensures IsAllocated(later, poolId, address)
    ensures Release(later, poolId, address).ipPools == st.ipPools
  {
  }

  /** All attached server ids, service by service. */
  function AllIds(services: seq<LbService>): seq<string>
  {
    if services == [] then [] else services[0].spec.virtualServerIds + AllIds(services[1..])
  }

  function Ids<T(!new)>(s: seq<Resource<T>>): (r: set<string>)
    ensures forall id :: id in r <==> HasId(s, id)
  {
    set i | 0 <= i < |s| :: s[i].id
  }
}
