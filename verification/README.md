# NSX-T load balancer controller: reconciler, broker and locks

The controller brings NSX-T in line with Kubernetes services of type LoadBalancer. For every service it keeps
three kinds of tagged objects (virtual server, pool, TCP monitor), one IP address, and the attachment of its
servers to a load balancer service shared by all. The project models this as one system:

- `BrokerState`, `Broker`: the in-memory broker, as values and as a class that changes them in place. Every call
  is preceded by a turn of the other runs (`others`) and may fail without effect (`faults`); both are arbitrary
  functions, the first restricted to what `Ownership.Rely` says. Every write is recorded in a ghost log, and
  everything proved of a write (`Ownership.EventOk`) holds for all of them, on every path of every run.
- `Tags`, `Names`, `Resources`, `Members`, `Text`: object identity, listings, pool members, strings.
- `Access`: creates stamp tags, listings filter by them, deletes accept absence.
- `Ownership`, `Steps`, `Attachment`, `Moves`, `Interleaving`: whose objects are whose, the invariants, and why
  the runs for different services do not disturb each other.
- `LbServices`, `SharedService`, `Lifecycle`: the shared service; its methods, and its broker calls as a
  transition system of any number of runs with all schedules and faults. `Serial` ties the two together;
  `ServiceSearch` says what the searches find and what attach and detach leave, by places in the listing.
- `Desired`, `Reconciler`: the reconciler class with its loops, and the state it works towards. `MonitorTypes`:
  what becomes of its monitors if the server does not give them the type it searches for.
- `Observed`: the same state told from outside, by ports, nodes, tags and texts, without the controller's own
  matching and searching; the contracts of the entry points are stated in these terms.
- `Addressing`, `Provider`, `Workload`: addresses, entry points, and sequences of runs for many services.
- `Reorg`: collection of what services left behind. `Locks`: all locks as a transition system; `LockUse`: which
  locks a thread holds when.

Rely and guarantee fit together: `Locks.MutualExclusion` shows that at most one run works on a service,
`Ownership.GuaranteeImpliesRely` that runs for other services are then what a run assumes of them, and
`Interleaving` draws the conclusion for all traces, and shows that all such traces are admitted.

Assumptions. Namespaces and names have no '/', and ports differ in number or protocol, as Kubernetes validates.
The standard tags contain the owner tag, and the default class is configured. A new TCP monitor gets the type
`LbTcpMonitor` from the server: `Ready` says so where it is needed, and `MonitorTypes` says what happens
otherwise; the in-memory broker of the repository does not set it
(pkg/loadbalancer/nsxt_broker_inmem.go:299-308). The remembered service id names, if anything, a service that
the detach search covers; other runs keep it so (`OthersIdOk`), as leaving it alone does, and as
`SharedService.NoLostUpdate` proves of all schedules. `Workload.Start` builds a controller that meets them all.

The ledger of addresses is stated of every run that is alone at the broker, whatever calls fail and whatever the
status says: `Provider.LbProvider.Staked` confines what a run touches to one address, and
`Addressing.StakeExact` says exactly when that leaves allocated and used addresses in agreement. `Workload`
carries it through sequences of runs for all services, faults and retries included.

Success is stated by conditions on the state before: `Provider.LbProvider.Servable` for setting up
(written out in `Workload.CanServeExact`), the configured class for deletion. A ghost count of failed calls tells a run that met a fault from one that did
not, and a failure that has no failed call behind it from one that has.

Where the plain claim is false of the code, the exact condition is proved, with a family of inputs that fail:
the remembered service id (`Lifecycle.RememberedIdExact`, `AttachSucceedsIff`, `DeletedServiceStaysAway`,
`StaleForever`), an empty service left behind (`Lifecycle.EmptyRemainsExactly`), the address given up by a
half-failed deletion, or found in a stale status (`Addressing.GivingUpExact`, `StatusGivenUp`, `StatusTaken`,
`StaleStatusTakesAddress`, in the contracts of `EnsureLoadBalancer` and `EnsureLoadBalancerDeleted`), monitors of
another type (`MonitorTypes.MonitorTwice`), detaching without a router (`Attachment.CoverageExact`,
`UncoveredDetachMisses`), servers that are not attached again (the clause on `Serving` of `EnsureLoadBalancer`,
with `EnsureLeftBehind` and `EnsureDetached`), services that appear after the listing of a collection
(`Reorg.EnsuredAfterListing`), and the comparison of lengths (`Members.UpToDateAddresses`, `DuplicateHidesNode`).
The documentation of deletion says that it succeeds if the load balancer does not exist or was deleted
(pkg/loadbalancer/lbprovider.go:191-193); as coded it also fails when the class that the service names is not
configured, whether or not anything exists, and the contract of `EnsureLoadBalancerDeleted` says so.

## Model

| member | source | states |
|---|---|---|
| Text.FormatInjective | pkg/loadbalancer/mapping.go:71-73 | decimal printing of ports and ids is injective, negative numbers included |
| Text.DigitsOfValue | pkg/loadbalancer/mapping.go:71-73 | every digit string without leading zeros is the one printed for its value, so printing and reading are inverse both ways |
| Text.FormatExamples | pkg/loadbalancer/mapping.go:71-73 | the base is ten, and a negative number has a minus sign in front |
| Text.LessExact | pkg/loadbalancer/tag.go:52-61 | one scope is before another exactly if, where they first differ, it ends or has the lower character |
| Text.Trim | pkg/loadbalancer/lbprovider.go:165-166 | the trimmed name has no white space at either end, and only white space was cut off |
| Tags.Add | pkg/loadbalancer/tag.go:40-49 | adding tags changes the map to exactly the specified one: later tags replace earlier ones of their scope, the receiver is not changed |
| Tags.Normalize | pkg/loadbalancer/tag.go:52-61 | the result is sorted by scope and carries exactly the tags of the map, whatever order the map is walked in |
| Tags.NormalFormIsUnique | pkg/loadbalancer/tag.go:52-61 | there is one scope-sorted sequence of the tags of a map, so the result does not depend on map order |
| Tags.NormalLookup | pkg/loadbalancer/tag.go:91-98 | reading a scope from the normal form gives the tag of the map, and nothing where the map has none |
| Tags.CheckTags | pkg/loadbalancer/tag.go:75-89 | the check holds exactly if every required tag is the first of its scope |
| Tags.LookupExact | pkg/loadbalancer/tag.go:91-98 | the value read for a scope is that of the first tag with it, and none exactly if there is no such tag |
| Names.ParsePrint | pkg/loadbalancer/helpers.go:27-34 | parsing undoes printing of a namespaced name exactly for names without a separator |
| Names.ParsedIsValid | pkg/loadbalancer/helpers.go:31-34 | whatever is parsed is a name without a separator |
| Names.ParseFailsOnlyWithoutSeparator | pkg/loadbalancer/helpers.go:31-34 | parsing indexes past the parts, and panics, exactly on texts without a separator |
| Names.ParseExact | pkg/loadbalancer/helpers.go:31-34 | for every text: a valid name is read from it exactly if it starts with namespace, separator and name, and then ends or goes on with a separator |
| Names.PrintInjective | pkg/loadbalancer/helpers.go:27-29 | different valid services have different keys and service tags |
| Names.PortValueInjective | pkg/loadbalancer/tag.go:71-73 | a port tag identifies protocol and source port, whatever characters the protocol has |
| Names.StringsEquals | pkg/loadbalancer/helpers.go:36-46 | the loop decides equality of two id lists |
| Ownership.MatchTags | pkg/loadbalancer/mapping.go:57-64 | a pool or monitor matches exactly the mappings whose port value it carries as its first port tag |
| Ownership.QueryExact | pkg/loadbalancer/access.go:200-202 | in terms of tags alone: the query of one service selects exactly what has the owner of the configuration, its cluster, and the service's key as first tag of the scopes `owner`, `cluster` and `service` |
| Ownership.ClusterQueryExact | pkg/loadbalancer/access.go:204-206 | the query of all services selects exactly what has owner and cluster of the configuration |
| Ownership.OthersIncludeElsewhere | pkg/loadbalancer/access.go:200-206 | what leaves alone all objects that its query does not select leaves `Servers`, `Pools` and `Monitors` of every service of every configuration with another cluster or owner as they were |
| Ownership.ElsewhereExact | pkg/loadbalancer/access.go:200-206 | another cluster or owner (`Elsewhere`) is exactly a configuration of which no query can select what one of ours selects |
| Interleaving.ElsewhereUntouched | pkg/loadbalancer/lbprovider.go:140-189 | in every interleaving of runs for any services of one configuration, the objects of every other cluster and owner stay the same |
| Ownership.QueriesDisjoint | pkg/loadbalancer/access.go:200-202 | no object is selected by the queries of two services |
| Access.StandardTags | pkg/loadbalancer/access.go:58-71 | the owner tag is the application name unless the configuration overrides it; besides there are exactly the additional tags, with their values |
| Access.TagRoundTrip | pkg/loadbalancer/access.go:180-202 | for every configuration, a stamped object is found by exactly the queries with its owner, cluster and service |
| Access.PortRoundTrip | pkg/loadbalancer/access.go:242-300 | a stamped pool or monitor matches exactly the mappings with its protocol and source port |
| Access.ExtraTag | pkg/loadbalancer/access.go:180-198 | class and port tags keep their values through stamping and normalising |
| Access.StampedExact | pkg/loadbalancer/access.go:180-256 | a created object has, scope by scope, cluster and key of the service, and what the configuration sets, unless a further tag replaces it |
| Access.ClassRoundTrip | pkg/loadbalancer/access.go:180-198 | a created server carries class and IP pool under `lbclass` and `ippoolid`, and the class read back from it is that one |
| Access.PortTagged | pkg/loadbalancer/access.go:242-256 | a created pool or monitor carries protocol, separator and decimal source port under `port` |
| Access.ServiceTagsDiscoverable | pkg/loadbalancer/access.go:86-102 | a created load balancer service is found by the search for ours |
| Access.UntypedNeverFound | pkg/loadbalancer/access.go:343-359 | the typed listing is complete exactly when every monitor carries the type, and empty when none does |
| MonitorTypes.SeenExactly | pkg/loadbalancer/access.go:343-359 | after a create, the typed listing of the service is unchanged exactly if the server gave the monitor another type |
| MonitorTypes.SearchOrCreate | pkg/loadbalancer/state.go:239-262 | a monitor is created exactly if the typed listing has none for the port, and then stands at the end of the service's monitors |
| MonitorTypes.MonitorTwice | pkg/loadbalancer/state.go:239-262 | two runs for a port without monitor leave one that both use, and one monitor per port, exactly if the server gives the type that the search asks for; otherwise two |
| Members.CollectNodeInternalAddresses | pkg/loadbalancer/helpers.go:48-59 | the addresses collected are exactly the first ones of kind InternalIP in the lists of the nodes, each with the name of the last node that has it |
| Members.InternalAddressExact | pkg/loadbalancer/helpers.go:51-56 | the address of a node is exactly the first in its list of kind InternalIP |
| Members.NodeAddressesExact | pkg/loadbalancer/helpers.go:48-59 | an address is wanted exactly if in the list of some node it stands with kind InternalIP, and none of that kind before it |
| Members.UpdatedPoolMembers | pkg/loadbalancer/state.go:335-367 | survivors keep their order and fields, new members follow with distinct addresses, `modified` holds exactly if the result differs, and from distinct members the result has exactly the first internal addresses of the nodes |
| Members.KeptConcat | pkg/loadbalancer/state.go:335-344 | the surviving members of a list are those of its first part, then those of the rest; with `KeptOne`, exactly the wanted ones in their order |
| Members.UpToDateAddresses | pkg/loadbalancer/state.go:346-366 | for all old members, the result has the nodes' addresses exactly when the comparison of lengths is exact |
| Members.DistinctMakesShortcutExact | pkg/loadbalancer/state.go:346 | the comparison of lengths is exact for members with distinct addresses (cardinality argument) |
| Members.DuplicateHidesNode | pkg/loadbalancer/state.go:346 | two members with one address hide any missing node from the comparison of lengths |
| Members.UpToDateDistinct | pkg/loadbalancer/state.go:335-367 | from distinct old members, the result has distinct addresses, which are those of the nodes |
| Members.UpToDateSettled | pkg/loadbalancer/state.go:335-367 | members that already have the nodes' addresses stay as they are |
| BrokerState.AddressInjective | pkg/loadbalancer/nsxt_broker_inmem.go:258-259 | the addresses of a pool differ for different numbers |
| BrokerState.SomeAddressIsFree | pkg/loadbalancer/nsxt_broker_inmem.go:255-265 | pigeonhole: a pool that is not full has a free address in its range |
| Broker.InMemoryBroker.AllocateFromIPPool | pkg/loadbalancer/nsxt_broker_inmem.go:247-266 | hands out the unallocated address with the lowest number from 1 on (prefix, dot, number) and changes nothing else; fails exactly for an unknown or full pool, so the last return is unreachable |
| Broker.InMemoryBroker.ReleaseFromIPPool | pkg/loadbalancer/nsxt_broker_inmem.go:284-297 | takes exactly the given address out, and fails without effect if it is not allocated |
| BrokerState.ReleaseUndoesAllocate | pkg/loadbalancer/nsxt_broker_inmem.go:247-297 | releasing a freshly allocated address restores all pools |
| Broker.InMemoryBroker.CreateLoadBalancerService | pkg/loadbalancer/nsxt_broker_inmem.go:91-99 | appends the service under an id that no service has |
| Broker.InMemoryBroker.ReadLoadBalancerService | pkg/loadbalancer/nsxt_broker_inmem.go:101-111 | returns the first service with the id, or not found |
| Broker.InMemoryBroker.UpdateLoadBalancerService | pkg/loadbalancer/nsxt_broker_inmem.go:121-132 | overwrites the first service with the id, or fails without effect |
| Broker.InMemoryBroker.DeleteLoadBalancerService | pkg/loadbalancer/nsxt_broker_inmem.go:134-145 | takes out the first service with the id, or fails without effect |
| Broker.InMemoryBroker.CreateLoadBalancerVirtualServer | pkg/loadbalancer/nsxt_broker_inmem.go:147-155 | appends the server under an id that no server has |
| Broker.InMemoryBroker.UpdateLoadBalancerVirtualServer | pkg/loadbalancer/nsxt_broker_inmem.go:165-176 | overwrites the first server with the id, or fails without effect |
| Broker.InMemoryBroker.DeleteLoadBalancerVirtualServer | pkg/loadbalancer/nsxt_broker_inmem.go:178-189 | takes out the first server with the id, or fails without effect |
| Broker.InMemoryBroker.CreateLoadBalancerPool | pkg/loadbalancer/nsxt_broker_inmem.go:191-199 | appends the pool under an id that no pool has |
| Broker.InMemoryBroker.UpdateLoadBalancerPool | pkg/loadbalancer/nsxt_broker_inmem.go:221-232 | overwrites the first pool with the id, or fails without effect |
| Broker.InMemoryBroker.DeleteLoadBalancerPool | pkg/loadbalancer/nsxt_broker_inmem.go:234-245 | takes out the first pool with the id, or fails without effect |
| Broker.InMemoryBroker.CreateLoadBalancerTCPMonitor | pkg/loadbalancer/nsxt_broker_inmem.go:299-308 | appends the monitor under an id that no monitor has, with the type that the server chooses |
| Broker.InMemoryBroker.ReadLoadBalancerTCPMonitor | pkg/loadbalancer/nsxt_broker_inmem.go:329-336 | returns the first monitor with the id, or not found |
| Broker.InMemoryBroker.UpdateLoadBalancerTCPMonitor | pkg/loadbalancer/nsxt_broker_inmem.go:338-349 | overwrites the first monitor with the id, or fails without effect |
| Broker.InMemoryBroker.DeleteLoadBalancerMonitor | pkg/loadbalancer/nsxt_broker_inmem.go:351-362 | takes out the first monitor with the id, or fails without effect |
| Resources.SelectReplace | pkg/loadbalancer/access.go:223-229 | overwriting an own object shows in its own listing and in nobody else's |
| Resources.SelectRemove | pkg/loadbalancer/access.go:231-240 | deleting an own object shows in its own listing and in nobody else's |
| Resources.SelectOfReject | pkg/loadbalancer/access.go:208-221 | listings by disjoint queries do not see each other's changes |
| Access.NsxtAccess.CreateLoadBalancerService | pkg/loadbalancer/access.go:86-102 | creates a service of ours on the configured router, or fails without effect |
| Access.NsxtAccess.FindLoadBalancerService | pkg/loadbalancer/access.go:104-126 | by id the service is checked against the router; without id the first of ours is found |
| Access.NsxtAccess.FindService | pkg/loadbalancer/access.go:130-159 | finds the first service on the router or with our tags, that holds the given server if one is given |
| Access.NsxtAccess.UpdateLoadBalancerService | pkg/loadbalancer/access.go:161-167 | writes the service back, or fails without effect |
| Access.NsxtAccess.DeleteLoadBalancerService | pkg/loadbalancer/access.go:169-178 | deletes the service; one that is gone counts as deleted |
| Access.NsxtAccess.CreateVirtualServer | pkg/loadbalancer/access.go:180-198 | creates a server with the mapping's ports, the address, and the tags of service and class |
| Access.NsxtAccess.FindVirtualServers | pkg/loadbalancer/access.go:200-221 | returns exactly the servers of the service, in order |
| Access.NsxtAccess.ListVirtualServers | pkg/loadbalancer/access.go:204-221 | returns exactly our servers in the cluster, in order |
| Access.NsxtAccess.UpdateVirtualServer | pkg/loadbalancer/access.go:223-229 | writes the server back, or fails without effect |
| Access.NsxtAccess.DeleteVirtualServer | pkg/loadbalancer/access.go:231-240 | deletes the server; one that is gone counts as deleted |
| Access.NsxtAccess.CreatePool | pkg/loadbalancer/access.go:242-256 | creates a pool with members and monitors, tagged with service and port |
| Access.NsxtAccess.FindPools | pkg/loadbalancer/access.go:279-300 | returns exactly the pools of the service, in order |
| Access.NsxtAccess.ListPools | pkg/loadbalancer/access.go:283-300 | returns exactly our pools in the cluster, in order |
| Access.NsxtAccess.UpdatePool | pkg/loadbalancer/access.go:302-308 | writes the pool back, or fails without effect |
| Access.NsxtAccess.DeletePool | pkg/loadbalancer/access.go:310-319 | deletes the pool; one that is gone counts as deleted |
| Access.NsxtAccess.CreateTCPMonitor | pkg/loadbalancer/access.go:321-333 | creates a monitor for the node port, tagged with service and port |
| Access.NsxtAccess.FindTCPMonitors | pkg/loadbalancer/access.go:343-359 | lists, then reads one by one, while other runs write in between: the result is the typed monitors of the service as they are at the end |
| Access.NsxtAccess.ListTCPMonitorLight | pkg/loadbalancer/access.go:361-374 | returns exactly our typed monitors in the cluster |
| Access.NsxtAccess.UpdateTCPMonitor | pkg/loadbalancer/access.go:376-382 | writes the monitor back, or fails without effect |
| Access.NsxtAccess.DeleteTCPMonitor | pkg/loadbalancer/access.go:384-393 | deletes the monitor; one that is gone counts as deleted |
| Access.NsxtAccess.AllocateExternalIPAddress | pkg/loadbalancer/access.go:395-404 | a free address of the pool, then allocated, or a failure without effect; if the call gets through, it succeeds exactly if the pool is known and not full |
| Access.NsxtAccess.IsAllocatedExternalIPAddress | pkg/loadbalancer/access.go:406-426 | whether the address is allocated; a missing pool has none |
| Access.NsxtAccess.ReleaseExternalIPAddress | pkg/loadbalancer/access.go:428-438 | releases the address, or fails without effect |
| Ownership.GuaranteeImpliesRely | pkg/loadbalancer/lbprovider.go:140-156 | what one run guarantees for each write is what the runs for other services rely on, with or without the service lock |
| Ownership.EventKeepsAll | pkg/loadbalancer/lbprovider.go:140-156 | one write of one run keeps the objects of every service consistent |
| Interleaving.EverybodyStaysInOrder | pkg/loadbalancer/state.go:65-123 | after every write of any interleaving of runs, the objects of every service are consistent |
| Interleaving.LogIsTrace | pkg/loadbalancer/lbprovider.go:140-156 | the writes that a controller on its own has logged, from any number of runs, are a trace from the broker it was given to the present state, without anything in between |
| Interleaving.MergedIsTrace | pkg/loadbalancer/lbprovider.go:140-189 | the writes of a run and what others wrote in between, in the broker's order, are one trace from the first state to the last |
| Interleaving.LogAmongOthers | pkg/loadbalancer/lbprovider.go:140-189 | whatever a run has logged among the writes of other runs, the two make one trace up to the broker's present state, so that the results on interleavings hold of it |
| Interleaving.GapKeepsRely | pkg/loadbalancer/lbprovider.go:140-189 | what others wrote since the last write of a run is what the run relies on, if none of them works for its service |
| Interleaving.RunsAreAdmissible | pkg/loadbalancer/lbprovider.go:140-189 | whatever runs for other services do between the calls of a run, however many writes and in whatever order, is what the results on a run among others assume of them (`EnvOk`, `Unshared`) |
| Interleaving.DeletionsAreAdmissible | pkg/loadbalancer/reorg.go:124-142 | whatever runs write between the calls of a collection, if those for an unlisted service only delete, is what the collection assumes of them (`OnlyDeleted`) |
| Interleaving.SnapshotStaysExact | pkg/loadbalancer/lbprovider.go:140-189 | while a run does not write itself, its snapshot equals the broker's view at every interleaving, and its attachments stay in order |
| Interleaving.ReferencesHold | pkg/loadbalancer/state.go:92-122 | at every step a server's pool exists with the server's port, and every monitor of that pool exists with that port |
| Interleaving.OneOfEach | pkg/loadbalancer/state.go:79-111 | at every step a service has one address, class and IP pool, and one server, pool and monitor per port |
| Interleaving.NothingDangles | pkg/loadbalancer/state.go:388-434 | at every step attached ids name existing servers, each once, where the detach search covers the attach |
| Interleaving.AllocationsInRange | pkg/loadbalancer/nsxt_broker_inmem.go:247-266 | at every step the allocations of a pool are addresses of its range, and no more than its size |
| Steps.CreateMonitorOk | pkg/loadbalancer/state.go:255-262 | creating a monitor of a new port is a write in order: invariants kept, others untouched, and its effect on the own listing |
| Steps.UpdateMonitorOk | pkg/loadbalancer/state.go:264-271 | updating a monitor that keeps its tags and type is a write in order: invariants kept, others untouched, and its effect on the own listing |
| Steps.DeleteMonitorOk | pkg/loadbalancer/state.go:171-189 | deleting a monitor no own pool uses is a write in order: invariants kept, others untouched, and its effect on the own listing |
| Steps.CreatePoolOk | pkg/loadbalancer/state.go:292-300 | creating a pool of a new port with monitors of that port is a write in order: invariants kept, others untouched, and its effect on the own listing |
| Steps.UpdatePoolOk | pkg/loadbalancer/state.go:321-333 | updating a pool that keeps its tags and refers to monitors of its port is a write in order: invariants kept, others untouched, and its effect on the own listing |
| Steps.DeletePoolOk | pkg/loadbalancer/state.go:147-169 | deleting a pool no own server uses is a write in order: invariants kept, others untouched, and its effect on the own listing |
| Steps.CreateServerOk | pkg/loadbalancer/state.go:388-412 | creating a server of a new port with a pool of that port and the service's address is a write in order: invariants kept, others untouched, and its effect on the own listing |
| Steps.UpdateServerOk | pkg/loadbalancer/state.go:414-425 | updating a server that keeps port, address and tags is a write in order: invariants kept, others untouched, and its effect on the own listing |
| Steps.DeleteServerOk | pkg/loadbalancer/state.go:427-434 | deleting a detached server is a write in order: invariants kept, others untouched, and its effect on the own listing |
| Steps.AllocateOk | pkg/loadbalancer/state.go:191-201 | allocating an address of the pool's range is a write in order: invariants kept, others untouched, and its effect on the own listing |
| Steps.ReleaseOk | pkg/loadbalancer/state.go:203-218 | releasing any address is a write in order: invariants kept, others untouched, and its effect on the own listing |
| Attachment.AttachOk | pkg/loadbalancer/lbservice.go:55-59 | appending a server to the found service is in order and attaches exactly that server |
| Attachment.DetachOk | pkg/loadbalancer/lbservice.go:72-88 | splicing a server out is in order and detaches exactly that server |
| Attachment.CreateServiceOk | pkg/loadbalancer/lbservice.go:45-50 | creating a service is in order and attaches nothing |
| Attachment.DeleteServiceOk | pkg/loadbalancer/lbservice.go:79-83 | deleting a service with its last server is in order and detaches exactly that server |
| Attachment.ForeignServiceAdmitted | pkg/loadbalancer/lbservice.go:40-54 | whoever else creates a load balancer service, of whatever tags and router, does what a run relies on |
| Attachment.DetachFindsAll | pkg/loadbalancer/access.go:130-159 | with coverage, the detach search misses a server exactly if it is not attached |
| Attachment.CoverageExact | pkg/loadbalancer/access.go:104-148 | whatever an attach accepts by its id can be found by a detach (`Covered`, the condition of the results on attachments) exactly if a router is configured or the controller manages the service |
| Attachment.UncoveredDetachMisses | pkg/loadbalancer/access.go:130-148 | without router an untagged service is accepted for attach, and its id is missed by the detach |
| ServiceSearch.SearchExact | pkg/loadbalancer/access.go:128-159 | the search returns the first service in the listing that is on the configured router or carries owner and cluster, and has the given server if one is given; none exactly if there is none |
| ServiceSearch.LookupExact | pkg/loadbalancer/access.go:104-126 | the lookup by id returns the first service with the id if no router is configured or it is on it, otherwise an error; not found exactly if none has the id |
| ServiceSearch.CanAttachExact | pkg/loadbalancer/lbservice.go:40-54 | an attach can succeed exactly if the remembered service is there, and on the router, or none is remembered and there is one of ours, or one may be created |
| ServiceSearch.DetachedExact | pkg/loadbalancer/lbservice.go:68-88 | a detach leaves the listing with the server cut out at its first place in the first service of ours that has it; or, in managed mode, without the service that has no other server |
| ServiceSearch.NothingDetached | pkg/loadbalancer/lbservice.go:68-72 | a detach of a server that no service of ours has leaves the listing as it is |
| ServiceSearch.AttachedExact | pkg/loadbalancer/lbservice.go:40-62 | an attach leaves the listing with the server appended to the service looked up, or with a new service at the end that has it alone, is on the router, carries owner and cluster, and is remembered |
| ServiceSearch.AttachedOnceExact | pkg/loadbalancer/state.go:388-434 | no id occurs twice in all lists of attached ids exactly if none does within a service, and none in two |
| LbServices.LoadBalancerService.FindOrCreate | pkg/loadbalancer/lbservice.go:40-54 | the service to attach to, found or created, is at the broker and can be found by a detach; without a failed call there is one exactly if the lookup accepts or misses, and may then create |
| LbServices.LoadBalancerService.Lookup | pkg/loadbalancer/lbservice.go:40-43 | the service of the remembered id if it is accepted, else the first of ours, from the services as they are under the lock |
| LbServices.LoadBalancerService.NewService | pkg/loadbalancer/lbservice.go:45-50 | a new service at the end, whose id is remembered; a failed call changes nothing |
| LbServices.LoadBalancerService.AddVirtualServer | pkg/loadbalancer/lbservice.go:36-62 | success attaches exactly the server, to the service looked up or to a new one, whose id is then remembered (`Remembers`); failure leaves it unattached, and undisturbed at most a new empty service; without faults and interference it succeeds exactly if the remembered id and the services allow it; under any faults and interference all invariants are kept |
| LbServices.LoadBalancerService.Append | pkg/loadbalancer/lbservice.go:55-59 | writes the service back with exactly the server appended, or changes nothing |
| LbServices.LoadBalancerService.Splice | pkg/loadbalancer/lbservice.go:73-78 | the loop takes out the first occurrence of the id |
| LbServices.LoadBalancerService.RemoveVirtualServer | pkg/loadbalancer/lbservice.go:64-92 | success leaves the server attached nowhere, also if no service was found, and the services as the first holder is written back without it or deleted with its last server; failure needs a failed call and changes nothing; the remembered id stays, also if its service was deleted |
| LbServices.LoadBalancerService.WriteBack | pkg/loadbalancer/lbservice.go:72-89 | in managed mode the service is deleted with its last server, otherwise written back without it |
| SharedService.InitialOk | pkg/loadbalancer/lbservice.go:25-34 | a controller that has attached nothing may start from no service, with any plan that attaches a server once |
| SharedService.NoLostUpdate | pkg/loadbalancer/lbservice.go:36-92 | for every schedule of steps and faults of any number of runs: the attached ids are exactly those added and not removed, each once |
| Serial.SectionIsAtomic | pkg/loadbalancer/lbservice.go:36-92 | whatever the other runs do, and whatever calls fail: from the state in which a run took the lock, its section makes all of one attach (`IsAttached`) or one detach (`Detached`), or gives up and leaves a new empty service at most; without a failed call of its own it takes effect exactly if a detach, or an attach that `CanAttach` allows, and else changes nothing; managed or not |
| Serial.SectionEnds | pkg/loadbalancer/lbservice.go:36-92 | a run that goes on alone is through with its section after at most three more steps |
| Serial.SectionAlone | pkg/loadbalancer/lbservice.go:36-92 | in both modes, from a free lock and without a failed call: a detach leaves `Detached`, with the id attached nowhere; an attach leaves `IsAttached` exactly if `CanAttach`, and otherwise all as it was |
| Lifecycle.UnlockedUpdateLost | pkg/loadbalancer/lbservice.go:37-38 | without the lock a six-step schedule loses one of two successful attaches |
| Lifecycle.NeverTwoServices | pkg/loadbalancer/lbservice.go:44-50 | in every schedule there is at most one service of ours |
| Lifecycle.FaultFreeStaysTidy | pkg/loadbalancer/lbservice.go:44-83 | in every fault-free schedule only a run about to attach holds an empty service |
| Lifecycle.WriteLeavesNoEmpty | pkg/loadbalancer/lbservice.go:55-83 | whatever calls failed before, an attach or detach that gets through leaves no empty service |
| Lifecycle.EmptyExactly | pkg/loadbalancer/lbservice.go:44-83 | a step leaves an empty service exactly if it creates one, or there was one and it writes nothing back |
| Lifecycle.EmptyRemainsExactly | pkg/loadbalancer/lbservice.go:44-83 | under every schedule and all faults, an empty service remains exactly if one was created and no attach or detach got through since |
| Lifecycle.ExistsIffServers | pkg/loadbalancer/lbservice.go:44-83 | at every point of every schedule, under all faults, the service exists exactly if a server of ours is attached, or an empty one was left |
| Lifecycle.UnmanagedNeverDeleted | pkg/loadbalancer/lbservice.go:79 | in every schedule an unmanaged controller neither creates nor deletes a service |
| Lifecycle.AttachSucceedsIff | pkg/loadbalancer/lbservice.go:40-59 | a fault-free attach in managed mode succeeds exactly if the cached id is empty, or found and accepted |
| Lifecycle.RememberedIdExact | pkg/loadbalancer/lbservice.go:50-83 | a step makes the cached id stale exactly if it deletes the service with that id and does not clear it |
| Lifecycle.StaleForever | pkg/loadbalancer/lbservice.go:40-54 | from a stale cached id on, no schedule ever attaches a server again |
| Lifecycle.DeletedServiceStaysAway | pkg/loadbalancer/lbservice.go:50-83 | attach, detach, attach of a fresh managed controller: the third fails for every configuration, as coded |
| Lifecycle.RepairedNeverStale | pkg/loadbalancer/lbservice.go:79-83 | if the delete cleared the cached id, it would never be stale in any schedule |
| Reconciler.State.GetTCPMonitor | pkg/loadbalancer/state.go:239-253 | the monitor of a TCP port with the node port, none for other protocols; writes nothing if it is in place |
| Reconciler.State.CreateTCPMonitor | pkg/loadbalancer/state.go:255-262 | appends the new monitor to the snapshot, which stays equal to the broker's view |
| Reconciler.State.UpdateTCPMonitor | pkg/loadbalancer/state.go:264-271 | sets the node port, and makes no call if it is right |
| Reconciler.State.GetPool | pkg/loadbalancer/state.go:278-290 | the pool of the port with members for the nodes and the given monitors; writes nothing if it is in place |
| Reconciler.State.CreatePool | pkg/loadbalancer/state.go:292-300 | appends a pool with a member for every node |
| Reconciler.State.UpdatePool | pkg/loadbalancer/state.go:321-333 | members and monitors brought up to date, surviving members kept as they are, no call if nothing differs |
| Reconciler.State.AllocateResources | pkg/loadbalancer/state.go:191-201 | allocates an address from the class's pool exactly if there is none yet; without faults and interference it succeeds exactly if there is one or the pool has one |
| Reconciler.State.ReleaseResources | pkg/loadbalancer/state.go:203-218 | releases the address if it is allocated, and nothing else |
| Reconciler.State.GetVirtualServer | pkg/loadbalancer/state.go:374-386 | the server of the port with node port and pool; writes nothing if it is in place; without faults and interference it succeeds exactly if there is a server, or an address and a service to attach to can be had; servers that were there are attached as before |
| Reconciler.State.UpdateVirtualServer | pkg/loadbalancer/state.go:414-425 | sets node port and pool, and makes no call if they are right |
| Reconciler.State.CreateVirtualServer | pkg/loadbalancer/state.go:388-412 | success: created, attached, appended. Failure: servers and allocations as before, unless a call of the clean-up failed on top of what made it fail; an address already in use is never released |
| Reconciler.State.PlaceServer | pkg/loadbalancer/state.go:394-412 | creation and attachment with the address at hand, undone together, unless a call of the clean-up fails as well |
| Reconciler.State.AttachOrUndo | pkg/loadbalancer/state.go:403-410 | a server that cannot be attached is deleted, and a fresh address given back, unless one of those calls fails as well; if all of them fail the server is left without attachment |
| Reconciler.State.UndoAllocation | pkg/loadbalancer/state.go:396-398 | the clean-up restores the balance of addresses |
| Reconciler.State.DeleteVirtualServer | pkg/loadbalancer/state.go:427-434 | detach precedes delete; success removes exactly the server, failure removes none |
| Reconciler.State.DeletePool | pkg/loadbalancer/state.go:369-372 | success removes exactly the pool, failure none |
| Reconciler.State.DeleteTCPMonitor | pkg/loadbalancer/state.go:273-276 | success removes exactly the monitor, failure none |
| Reconciler.State.DeleteOrphanVirtualServers | pkg/loadbalancer/state.go:125-145 | what stays are the servers of the ports; returned are the pools they use; failure needs a failed call |
| Reconciler.State.DeleteOrphanPools | pkg/loadbalancer/state.go:147-169 | what stays are the pools with a port that a remaining server uses; returned are their monitors |
| Reconciler.State.DeleteOrphanTCPMonitors | pkg/loadbalancer/state.go:171-189 | what stays are the monitors with a port that a remaining pool uses |
| Reconciler.State.ProcessPort | pkg/loadbalancer/state.go:95-109 | afterwards the port is served, other ports stay served, and nothing is written if it was served; without faults and interference it fails exactly if the port has no server and none can be had |
| Reconciler.State.ProcessPorts | pkg/loadbalancer/state.go:92-110 | afterwards all ports are served, if they are distinct; without faults and interference it succeeds exactly if all have a server or another can be had |
| Reconciler.State.DeleteOrphans | pkg/loadbalancer/state.go:111-122 | from all ports served to converged; writes nothing if converged |
| Reconciler.State.ReadSnapshot | pkg/loadbalancer/state.go:67-78 | the snapshot is the broker's view of the service, whatever other runs wrote between the listings |
| Reconciler.State.AnchorToServers | pkg/loadbalancer/state.go:79-90 | existing servers decide address and class, otherwise status and request |
| Reconciler.State.Process | pkg/loadbalancer/state.go:65-123 | success from any consistent state, under any faults and interference, ends converged; a converged state is left unwritten, and fails only with a failed call; without faults and interference it succeeds exactly if every port has a server, or an address and a service to attach to can be had; afterwards all servers are attached exactly if those of the ports were before. Existing servers keep address and class, and their ids while their ports remain. On its own, whatever fails, it has allocated or released no address but the one it works with, which its servers have (`Halfway`) |
| Reconciler.State.Finish | pkg/loadbalancer/state.go:228-237 | without ports the address is released if allocated, whatever was achieved before; otherwise the status is the address |
| Reconciler.State.UpdatePoolMembers | pkg/loadbalancer/state.go:302-319 | all pools of the ports follow the nodes, and nothing else changes |
| Reconciler.State.constructor | pkg/loadbalancer/state.go:46-55 | a fresh state has neither address nor class |
| Reconciler.State.StillConverged | pkg/loadbalancer/state.go:302-319 | following new nodes takes a converged state to one converged for them |
| Desired.OtherPortStaysDone | pkg/loadbalancer/state.go:92-110 | work on one port leaves every other port served |
| Desired.DistinctPortsExact | pkg/loadbalancer/tag.go:71-73 | ports differ in number or protocol exactly if no two have the same text in the port tag |
| Observed.ConvergedIsServed | pkg/loadbalancer/state.go:65-123 | in terms of ports and texts alone, both ways: converged is that for every port a server listens on its number and protocol and sends to its decimal node port, by a pool with its tag whose members are the first internal addresses of the nodes, checked for TCP by one monitor with its tag and node port, and that there is nothing else |
| Observed.OwnLists | pkg/loadbalancer/access.go:200-221 | the lists of a service are exactly the objects at the broker that carry owner, cluster and the service's name |
| Observed.ConvergedMeans | pkg/loadbalancer/state.go:65-123 | a service is converged exactly if what belongs to it at the broker serves its ports and nothing else does (`ServiceServed`) |
| Observed.NothingLeftExact | pkg/loadbalancer/lbprovider.go:199-204 | the lists of a service are empty exactly if nothing at the broker belongs to it |
| Observed.PoolsFollowExact | pkg/loadbalancer/state.go:302-319 | its pools follow exactly if every pool that belongs to it and carries the tag of one of the ports has the first internal addresses of the nodes as members |
| Desired.OrphansGone | pkg/loadbalancer/state.go:111-122 | all ports served, and exactly the needed objects kept, is converged |
| Desired.PoolUnused | pkg/loadbalancer/state.go:147-169 | a pool that the loop deletes is used by no remaining server |
| Desired.MonitorUnused | pkg/loadbalancer/state.go:171-189 | a monitor that the loop deletes is used by no remaining pool |
| Desired.AllNeeded | pkg/loadbalancer/state.go:125-189 | in a converged state the orphan searches find nothing to delete |
| Desired.ConvergedEmpty | pkg/loadbalancer/state.go:125-189 | without ports, converged means that nothing is left |
| Addressing.CreateWithAddress | pkg/loadbalancer/state.go:388-394 | creating a server with the held address, or that of the others, keeps allocated and used addresses equal |
| Addressing.RemoveBalanced | pkg/loadbalancer/state.go:427-434 | deleting the last server, and only that, leaves its address allocated and unused |
| Addressing.ReleaseExact | pkg/loadbalancer/state.go:203-218 | releasing keeps the ledger exactly if no server has the address |
| Addressing.AccountsExact | pkg/loadbalancer/state.go:191-218 | the ledger in terms of tags, addresses and pools: allocated are exactly the addresses that servers of our owner and cluster have from the pool, and the held ones, which none has; servers of different services have different ones |
| Addressing.GivingUpExact | pkg/loadbalancer/state.go:228-234 | giving up an address keeps the ledger exactly if it was held without a server, or no server has it: not one left behind, nor one of another service |
| Addressing.StakeExact | pkg/loadbalancer/state.go:203-237 | whatever failed in a run, allocated addresses are afterwards again those in use and those held, exactly if a server that is left has an allocated address; or, if another service uses the address that the run works with, if it left no server and the address allocated |
| Addressing.StatusGivenUp | pkg/loadbalancer/state.go:228-234 | giving up the address of the status, where no server was found: right if it was still held, and otherwise exactly if nobody else has it by now |
| Addressing.StatusTaken | pkg/loadbalancer/state.go:79-81 | setting up servers under the address of the status, where none was found: right if it was still held, and otherwise exactly if no server came to be |
| Addressing.StaleStatusTakesAddress | pkg/loadbalancer/state.go:203-218 | the failing input: a status names an address that another service got since, and giving it up breaks the ledger |
| Addressing.LedgerStep | pkg/loadbalancer/state.go:203-237 | a run that works with the address of its servers, or one held for its service, or nobody's, keeps the ledger of all services exactly if the servers it leaves have their address allocated |
| Addressing.StaleStep | pkg/loadbalancer/state.go:203-237 | a run that works with an address that another service uses or holds keeps the ledger exactly if it leaves no server, and the address allocated |
| Addressing.GivenUpSince | pkg/loadbalancer/lbprovider.go:199-204 | whatever happened to the address of a service since, it has come to good once no server is left and the address is given up |
| Workload.ServeOne | pkg/loadbalancer/lbprovider.go:140-204 | a served request has done what it was for (`Fulfilled`: its ports served by what belongs to it and nothing else, at the address of the status; its pools following the nodes; or nothing left); without a failed call it is served exactly if its class is configured and, for an ensure, what its servers need can be had; other services keep objects and status. Whatever fails, if the status fits, the ledger of all services (allocated is what servers use, or what the status of a service without servers names) holds afterwards exactly if the servers left have their address allocated and the status names what is left allocated without them; `Safe` says when that is certain |
| Workload.CanServeExact | pkg/loadbalancer/lbprovider.go:140-157 | a request to set up a service can be served exactly if its class is configured, and a server listens on every port, or an address (of its servers, of the status, or free in the class's pool) and a service to attach to can be had |
| Workload.AccountedMeans | pkg/loadbalancer/lbprovider.go:140-204 | the ledger at a moment: allocated are exactly the addresses of servers, and those that the statuses of services without servers name, each for one service |
| Workload.Serve | pkg/loadbalancer/lbprovider.go:140-204 | over any sequence of ensure, update and delete runs for any services, whatever calls fail: every request is served as `Served` says, at the state, remembered id and statuses it found; the last served request of every service is fulfilled at the end (converged with its servers' address as status, following the nodes, or gone). Without a failed call allocated addresses are exactly those of existing servers (`AllocatedAre`), no two services share one, and no status names an address without servers. What fulfilled and allocated mean is said by tags, texts and addresses |
| Workload.RunAccounted | pkg/loadbalancer/lbprovider.go:140-204 | a run with a fitting status keeps the ledger of all services, whatever failed in it, exactly if its servers are left with an allocated address, and the status names what is left allocated without servers |
| Workload.SafeIsKept | pkg/loadbalancer/lbprovider.go:140-204 | that is certain, under all faults, of a run with ports that finds servers or a held address, and of one without ports that finds no server; and of a run without a failed call, unless it sets up servers under an address that the status names and nobody holds |
| Workload.LedgerHolds | pkg/loadbalancer/lbprovider.go:140-204 | the ledger of all services holds at the end of a sequence of requests, whatever failed on the way, if every request found a fitting status and kept or could not but keep it |
| Workload.Start | pkg/loadbalancer/lbprovider.go:57-80 | a controller on its own meets the standing assumptions at any broker whose objects are in order, managed or not, whatever calls will fail |
| Workload.FreshStart | pkg/loadbalancer/nsxt_broker_inmem.go:66-78 | a broker with load balancer services without servers, and no address allocated, is a possible start, with a balanced ledger |
| Workload.UnmanagedServes | pkg/loadbalancer/access.go:104-126 | from such a start an unmanaged controller sets up a first service exactly if its load balancer service is there, on its router if it has one, and an address is free |
| Provider.ClassNameExact | pkg/loadbalancer/lbprovider.go:159-168 | a missing or blank annotation asks for the default class, any other for the class of its trimmed name |
| Provider.LbProvider.ServingExact | pkg/loadbalancer/lbservice.go:36-62 | all servers of a service are attached exactly if for each some load balancer service lists its id |
| Provider.LbProvider.GetLoadBalancer | pkg/loadbalancer/lbprovider.go:111-120 | reports a status exactly if a server at the broker carries owner, cluster and the service's name, with the address all of them have |
| Provider.LbProvider.EnsureLoadBalancer | pkg/loadbalancer/lbprovider.go:140-157 | success (`Reached`, in terms of ports, nodes, tags and texts): every port has its server with the decimal node port, its pool with the nodes' internal addresses and its monitor, and nothing else belongs to the service; the status is the address of all servers; without ports nothing is left. New servers have the class asked for, and the address of the status if it names one. Alone, it leaves the objects of every other cluster and owner as they were. Without faults and interference it succeeds exactly if the class is configured and every port has a server, or an address and a service to attach to can be had; without ports exactly if the class is configured; for a converged service it fails only with a failed call. All servers are attached afterwards exactly if those whose ports remain were before. Servers keep their address and class, and their ids while their ports remain. On its own, whatever fails: the run touches one address only (`Staked`, `GivesUp`); with ports and servers it keeps the ledger; giving up the servers' address keeps it exactly if none of them is left; where the status names an address without servers, the ledger is kept if that was held, and otherwise exactly if no server came to be under it, and it is not given up while another service has it (`LedgerExact`) |
| Provider.LbProvider.EnsureAgain | pkg/loadbalancer/lbprovider.go:140-157 | a run for a converged service makes no write call, fails only with a failed call, and reports the address of the servers |
| Provider.LbProvider.EnsureTwice | pkg/loadbalancer/lbprovider.go:140-157 | after a successful run, one for the same service and nodes reports the same status, unless a call fails |
| Provider.LbProvider.EnsureDetached | pkg/loadbalancer/state.go:374-382 | a run for a converged service does not attach a server that lost its attachment |
| Provider.LbProvider.EnsureLeftBehind | pkg/loadbalancer/state.go:374-382 | a server that a failed attach and a failed clean-up left behind (`AttachOrUndo`) is still there and not attached after a run that gets through without a failed call, which leaves the service converged |
| Provider.LbProvider.UpdateLoadBalancer | pkg/loadbalancer/lbprovider.go:181-189 | success: all pools of the ports have exactly the internal addresses of the nodes; converged for some nodes before, converged for the new ones afterwards; servers and addresses untouched, other clusters and owners too |
| Provider.LbProvider.EnsureLoadBalancerDeleted | pkg/loadbalancer/lbprovider.go:199-204 | success leaves no server, pool or monitor at the broker that carries owner, cluster and the service's name, and, alone, those of other clusters and owners as they were; without faults and interference it succeeds exactly if the class is configured, otherwise it fails without effect. Its ledger clauses are those of `EnsureLoadBalancer` without ports, the retry with an address still in the status included |
| Provider.LbProvider.DeleteUntilDone | pkg/loadbalancer/lbprovider.go:199-204 | a deletion that is tried again until it gets through leaves nothing of the service and a balanced ledger, whatever failed before and however often, if the status named the servers' address, or one held, or one nobody else has |
| Reorg.AddNames | pkg/loadbalancer/reorg.go:95-100 | collects exactly the tagged names, and panics exactly on a tag without separator |
| Reorg.BadTagExact | pkg/loadbalancer/reorg.go:95-100 | a service tag makes the process panic exactly if it is not empty and has no separator |
| Reorg.OnlyListedExact | pkg/loadbalancer/reorg.go:78-142 | nothing is left of the unlisted names exactly if every name without separator of which anything at the broker carries owner, cluster and key is in the listing as a service of type LoadBalancer |
| Reorg.LoadBalancerNames | pkg/loadbalancer/reorg.go:85-90 | the names of exactly the listed services of type LoadBalancer |
| Reorg.CollectNames | pkg/loadbalancer/reorg.go:92-122 | whatever runs for listed services write, and whatever runs for unlisted ones delete, between the three listings, every unlisted valid name with a server, pool or monitor left at the broker is collected |
| Reorg.DeleteArtefacts | pkg/loadbalancer/reorg.go:124-139 | deletes everything of one unlisted service and nothing of another, beside runs for listed services and deletions for others; without faults and interference it succeeds |
| Reorg.ReorgStep | pkg/loadbalancer/reorg.go:78-142 | beside runs for listed services, and deletions for unlisted ones. Safe: all its writes are by runs for unlisted services, whatever fails, and what no other run works on is the same unless it belongs to an unlisted service. Complete: on success what is left at the broker belongs to listed services (`OnlyListedLeft`); alone, other clusters and owners keep what they have; then the objects of a service are the same exactly if it is listed or had none. Alone and without faults it fails exactly on a tag without separator |
| Reorg.EnsuredAfterListing | pkg/loadbalancer/reorg.go:80-90 | a service set up after the listing was taken keeps its servers through the collection exactly if the listing names it |
| Locks.Reachable | pkg/loadbalancer/lock.go:35-57 | in every schedule each lock is held by exactly the thread that is in its section |
| Locks.MutualExclusion | pkg/loadbalancer/lock.go:35-45 | in every reachable state at most one thread is in the critical section of a key |
| Locks.NobodyPanics | pkg/loadbalancer/lock.go:48-57 | in no reachable state has an unlock panicked |
| Locks.UnlockOk | pkg/loadbalancer/lock.go:48-57 | a holder finds its key and unlocks its own mutex |
| Locks.MutexNeverReplaced | pkg/loadbalancer/lock.go:37-41 | a key keeps its mutex in every schedule |
| Locks.NoDeadlock | pkg/loadbalancer/lock.go:35-57 | unless all threads are finished, one can move, with the order key, service, broker lock |
| Locks.MovesAreExact | pkg/loadbalancer/lock.go:35-57 | every move costs exactly one: the moves made and the effort still to come are together what the tasks ask for, so every schedule of moves ends |
| Locks.StuckMeansFinished | pkg/loadbalancer/lock.go:35-57 | a schedule after which nobody can move has finished all tasks |
| LockUse.UseIsExact | pkg/loadbalancer/lock.go:35-57 | in every schedule, what a thread has held so far and is still to hold is, one after the other, exactly what its tasks ask for: each task its key, each call the broker lock under that key, each section the service lock and under it the broker lock for each of its calls |
| LockUse.FinishedHasWorked | pkg/loadbalancer/lbprovider.go:140-143 | a thread that has finished has held exactly that, in the order of its tasks: none was dropped, and no call was made without its locks |

## Left out

- The NSX-T client and SDK, configuration files, cloud and provider wiring, command line: the broker interface is the boundary, and the in-memory broker is the model.
- Logging, descriptions, display names, size of the load balancer service, error texts: errors are a datatype.
- Aliasing of slices between the in-memory broker and its callers: lists are values; the object a caller changes is its own copy until it is written back.
- Calls that report an error although they took effect: a failed call has no effect here.
- Reading pools and monitors by id, and listing IP pools by name, for which no run of a service has a use.
- The timer, stop channel and growing delay of the collection loop; its step is modelled, with the Kubernetes listing as a parameter.
- Several controller processes: leader election is outside of the code.
- `sync.Mutex` itself, and the methods of the key lock as methods: a method cannot wait, so the lock protocol is a transition system on values.
- Reading a TCP monitor from the in-memory broker without its lock (pkg/loadbalancer/nsxt_broker_inmem.go:329-336): every broker call is one atomic step here.
- Mutable objects shared by the snapshot lists: an update replaces the element at its position.
- Reorg.ReorgStep: the runs beside it are runs for listed services and, while the collection works for another service or none, deletions for unlisted ones; the ledger of addresses and the cause of a panic on a service tag are stated for a collection that is alone at the broker.
- Workload.Serve: runs one after the other; for interleaved runs the invariants are those of `Interleaving`, without the ledger of addresses, which needs a view of all services at once.
- Provider.LbProvider.EnsureLoadBalancer: the clauses on success without faults, on addresses and on attachments assume that no other run interferes; all other clauses hold under interference. Convergence assumes distinct ports. Changing the ports of a service and failing half-way is covered, a changed owner or cluster tag is not.
- SharedService.Step: a run acquires the service lock for one attach or detach at a time, and the lock's waiting queue is any order.
