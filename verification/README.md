# mikrolb: a verified model of address allocation and router programming

mikrolb gives Kubernetes services addresses out of pools and programs a RouterOS router to balance traffic to them.
This project models the three parts of it that everything else relies on, and proves what they promise.

**Address sets and the search for a free address.** `Net`, `Ranges`, `IPRangeSets`, `Cidr` and `Probe` model the sorted
range lists, their merge, subtract and intersect sweeps, the byte-wise CIDR arithmetic and the cyclic probe order, each
against a mathematical meaning: the set of numbers a list denotes, the cardinality of that set, a permutation of a
range. `Pools` adds parsing, admission and counting of pools, `Allocator` the search for the first free address.

**The allocation protocol.** `Expectations` is the tracker of reservations that the Kubernetes cache does not show yet,
`Reconciler` is one pass of the allocation reconciler, and `Protocol` is the whole system as a transition system: a store
history, a lagging cache, failing writes, users who change objects, and any interleaving of passes. The headline is that
no two stored allocations ever hold one address (`Protocol.AddressesStayUnique`). `StaleReads` holds two runs that show
why each pass must start from a cache that has caught up with the controller's own earlier writes. `StuckReservations` says
when an address that nobody holds can be given out again, and holds a run after which one never is.

**Declarative router programming.** `Router` is the object store with PUT, PATCH and DELETE after the repository's mock,
where any call may fail, and the failed calls are counted. `Matching` and `Syncing` are the greedy matcher and
`Client.Sync`. `Services`, `Programs`, `Requests`, `Tasks` and `Backend` are `EnsureService` and `DeleteService` as
sequences of such Syncs, and say exactly when they succeed: if no router call fails, those that clean up stale chains
aside. `Firewall` gives NAT rules a meaning on packets: the router has its own reading of addresses, masks, numbers and
protocol names, jump chains come back, and `nth` matchers may answer anything. It proves that the program delivers every
packet to a current endpoint, and `SourceNAT` that packets of endpoints leave with the service's address. `Lifecycle`
takes this over whole runs: other services coming and going, and what a deleted service leaves behind. `Settling` says
when a repeated Sync, and a repeated EnsureService, is silent.

Objects the source updates in place are classes (`IPRangeSet`, `IPAllocationExpectations`, `IPAllocationReconciler`,
`RouterOS`) or arrays (`found` and `patchable` in Sync, the bytes of a CIDR end); loops of the source are loops here.
Each such method is proved equal to a function of its inputs or of the old state, and the lemmas are about those functions.
Expensive definitions are put out of sight with `hide` where a proof does not need them.

## Where the code differs from what one would expect

- `subtract` is not set difference. A range of the right operand that ends in a gap below a range of the left one makes
  the rest of that gap part of the result (`internal/core/ip_range_set.go:202-205`). `Ranges.SubtractContains` is the
  exact meaning, `Ranges.SubtractIsDifferenceIff` says exactly when it is set difference, and
  `Ranges.SubtractAddsAddresses` and `Pools.ExclusionAddsAddresses` are concrete cases: the pool `10-11` with `0-4`
  excluded also hands out `5`. The guide (`docs/guide/ip-pools.md:20`) promises that exclusions win, which holds.
- `IPRange.Contains` is false for every address of a range that ends at the all-ones address, and an IPv6 range that
  starts at `::` also accepts IPv4 addresses (`Net.RangeContainsExactly`).
- A failed re-stage drops the reservation it replaced, and a release that is repeated from a cache still showing
  the finalizer drops the reservation of the next owner. Either can end in two allocations with one address.
  Uniqueness holds if a pass starts from a cache that shows the controller's own last status write to the object and,
  if it has made it, its removal of the finalizer. Neither demand suffices without the other
  (`StaleReads.RepeatedReleaseDuplicates`, `StaleReads.FailedRestageDuplicates`). Having added the finalizer need not show.
- Sync is a fixpoint exactly if the requests have different ids (`Syncing.SecondSyncIsSilentIff`). If a pair of address
  and target port is listed twice among the endpoints of a port, every Sync of that port's chain deletes and creates a rule
  again (`Settling.DNATSettlesIff`). A second EnsureService of the same service sends nothing but listings exactly if no
  address or target is given twice and, in each family, a source NAT IP comes with a load balancer IP
  (`Settling.SecondEnsureIsSilentIff`). Without one, the branch that removes the load balancer part
  (`internal/routeros/backend.go:186-200`) removes every marked rule, so the source NAT rule is deleted and created anew by
  each call (`Settling.UnbalancedSettles`).
- A reservation can outlive its allocation. A pass reserves the address again with a newer time, while the Allocated
  condition keeps its old transition time, so Confirm never drops that reservation. If the allocation then fails, or moves,
  nothing releases the old address, and its deletion does not either, as a Failed status shows no address. What keeps an
  address that nobody shows from being given to an allocation is exactly a reservation of another name
  (`StuckReservations.FreeAgainIff`); the reservation of a name that is gone stays until the controller restarts or the
  name comes back (`StuckReservations.StuckForGood`), and passes that see all own writes can get there
  (`StuckReservations.FailedAllocationGetsStuck`).
- The cleanup of stale chains empties every chain that a rule in the service's own chain jumped to. If one jumped back to
  the service chain, the port rules just written go; if one jumped to `dstnat`, every rule of `dstnat` goes, Setup's
  included. Either way EnsureService succeeds when no router call fails, and no packet of the service is translated: with
  ports and no failed call, packets arrive exactly if no such rule was there (`Lifecycle.DeliversIff`,
  `Lifecycle.PacketsReachIff`; `Lifecycle.JumpBackExample` and `Lifecycle.JumpToDstnatExample` are the two cases). The
  backend itself never writes such a rule (`Lifecycle.HarmlessKept`). The same goes for `srcnat`: after a jump to it, Setup's
  jump into the source NAT chain goes too, and packets leave with their own addresses (`SourceNAT.SourcesMaskedIff`).

## Model

| member | source | states |
|---|---|---|
| Net.NewIPRange | internal/core/ip_range.go:16-29 | a range is accepted iff both ends are of one family and in order |
| Net.RangeContainsExactly | internal/core/ip_range.go:119-121 | Contains is interval membership, except for ranges ending at all-ones (nothing) and v6 ranges from :: (also v4) |
| Ranges.NormalFormUnique | internal/core/ip_range_set.go:132-162 | two sorted, disjoint, non-adjacent lists with the same addresses are the same list |
| Ranges.MergedCorrect | internal/core/ip_range_set.go:132-162 | merging gives a normal form that denotes the union of the inputs |
| Ranges.MergedDependsOnSetOnly | internal/core/ip_range_set.go:47-66 | two merges are equal iff the inputs denote the same addresses: order, duplicates and splits do not matter |
| Ranges.SubtractContains | internal/core/ip_range_set.go:164-215 | exact membership of the difference for every address, and that it is a normal form |
| Ranges.SubtractIsDifferenceIff | internal/core/ip_range_set.go:202-205 | it is set difference iff every subtracted range ends inside, directly before, or above all of the minuend's ranges |
| Ranges.SubtractBounds | internal/core/ip_range_set.go:164-215 | the result avoids the subtrahend and keeps every address of the minuend outside it |
| Ranges.SubtractAddsAddresses | internal/core/ip_range_set.go:202-205 | a concrete subtraction that adds an address |
| Ranges.IntersectionExact | internal/core/ip_range_set.go:217-260 | intersection denotes the common addresses, is a normal form, and commutes as a list |
| Ranges.CountIsCardinality | internal/core/ip_range_set.go:96-109 | the sum of range sizes is the number of addresses denoted |
| Ranges.CountInclusionExclusion | internal/core/ip_range_set.go:96-109 | counts of two sets add up to those of their union and intersection |
| IPRangeSets.MergeRanges | internal/core/ip_range_set.go:132-162 | the sort and sweep compute the reference merge by interval insertion |
| IPRangeSets.MergeSweep | internal/core/ip_range_set.go:141-161 | the sweep over sorted ranges holds everything seen in finished ranges and the open one |
| IPRangeSets.SubtractRanges | internal/core/ip_range_set.go:164-215 | the two-pointer sweep computes the recursive subtraction whose meaning is proved |
| IPRangeSets.IntersectRanges | internal/core/ip_range_set.go:217-260 | the two-pointer sweep computes the recursive intersection |
| IPRangeSets.IPRangeSet.constructor | internal/core/ip_range_set.go:15-19 | a new set is the merge of its ranges, by family |
| IPRangeSets.IPRangeSet.Merge | internal/core/ip_range_set.go:47-66 | both families become the merge of old and new ranges; normal forms are kept |
| IPRangeSets.IPRangeSet.Subtract | internal/core/ip_range_set.go:68-87 | both families become old minus merged argument; normal forms are kept |
| IPRangeSets.IPRangeSet.Intersections | internal/core/ip_range_set.go:89-94 | a new set with the intersections of both families |
| IPRangeSets.IPRangeSet.Count | internal/core/ip_range_set.go:96-109 | the number of addresses of the family |
| IPRangeSets.IPRangeSet.Contains | internal/core/ip_range_set.go:111-119 | found iff the address lies in a range of its family that does not end at all-ones |
| Cidr.FillLowValue | internal/core/ip_range.go:71-84 | for every host length, the filled end bytes read as masked start + 2^h - 1 |
| Cidr.PrefixMeaning | internal/core/ip_range.go:61-103 | a prefix holds exactly the 2^h addresses that share its leading bits (RFC 4632 section 3.1, RFC 4291 section 2.3); without edges 2^h - 2, refused iff h <= 1 |
| Cidr.RangeOfWellFormed | internal/core/ip_range.go:31-113 | whatever is parsed is a range of one family in order |
| Cidr.EndAddress | internal/core/ip_range.go:68-90 | the end address stays within the family |
| Cidr.FillLowBits | internal/core/ip_range.go:71-84 | the in-place loop sets exactly the low host bits |
| Cidr.ParsePrefix | internal/core/ip_range.go:61-103 | the imperative prefix branch computes the range whose meaning is proved |
| Cidr.ParseIPRange | internal/core/ip_range.go:31-113 | singles, spans and prefixes, with every refusal |
| Probe.ProbesEachOnce | internal/core/ip_range.go:147-190 | the probe order is a permutation of the range for every hash |
| Probe.SlotWraps | internal/core/ip_range.go:147-190 | the k-th probe starts at the hash's offset and wraps around once |
| Probe.Iterate | internal/core/ip_range.go:147-190 | run to the end, the loop yields exactly the probe order and stops |
| Pools.ParsedContains | internal/controller/ip_pool.go:9-34 | exact membership of a parsed pool in terms of its entries |
| Pools.EntryMeans | internal/controller/ip_pool.go:12-26 | which addresses a single address, a span and a prefix stand for, with and without the addresses a pool avoids, and exactly which entries are refused |
| Pools.ExclusionAddsAddresses | internal/controller/ip_pool.go:28-32 | a pool entry list whose exclusion adds an address |
| Pools.ParsedIsDifferenceIff | internal/controller/ip_pool.go:9-34 | a parsed pool is its inclusions without its exclusions iff every merged exclusion range ends inside, directly before, or above all of the inclusions |
| Pools.ParseIPPoolAddresses | internal/controller/ip_pool.go:9-34 | the parsed set and, per entry, whether it failed |
| Pools.Validate | internal/controller/ip_pool_webhook.go:42-84 | no errors iff all entries parse, are of the pool's family, and no other pool overlaps |
| Pools.PoolsStayDisjoint | internal/controller/ip_pool_webhook.go:42-84 | over every run of admitted creates, updates and deletes, any two pools are disjoint |
| Pools.PoolHoldsIsMembership | internal/core/ip_range_set.go:111-119 | Contains on a pool implies membership, and equals it if no range ends at all-ones |
| Pools.Contains | internal/controller/ip_allocation_reconciler.go:159-180 | a pool is asked for an address by parsing it and calling Contains |
| Pools.HolderIsUnique | internal/controller/ip_allocation_reconciler.go:159-180 | at most one of disjoint pools holds an address, so list order does not matter |
| Pools.CountPool | internal/controller/ip_pool_reconciler.go:92-140 | total is the cardinality, the allocated are those contained, and free is never negative |
| Pools.CountInUse | internal/controller/ip_pool_reconciler.go:96-112 | the loop collects exactly the distinct contained addresses |
| Allocator.SearchIsCompleteFirstFit | internal/controller/ip_allocation_reconciler.go:206-246 | the search takes the first unused candidate, and nothing iff every address of every eligible pool is used |
| Allocator.SearchStartsAtHash | internal/controller/ip_allocation_reconciler.go:206-246 | the search takes an address of the first pool it may draw on that has a free one, and of its first range with one the first free address from the hashed position on and around the end |
| Allocator.UnusedIsNeverRefused | internal/controller/ip_allocation_reconciler.go:226-246 | an address that Resolve does not report is never refused by StageAllocation |
| Allocator.ProbesBounded | internal/controller/ip_allocation_reconciler.go:226-246 | used probes of a range are at most the used addresses |
| Allocator.SearchRange | internal/controller/ip_allocation_reconciler.go:226-246 | first unused probe of a range, staged, after at most one probe more than there are used addresses |
| Allocator.SearchPool | internal/controller/ip_allocation_reconciler.go:213-246 | the same over the ranges of a pool |
| Allocator.SearchDynamic | internal/controller/ip_allocation_reconciler.go:206-246 | the same over all eligible pools |
| Expectations.AllocTimesMeaning | internal/controller/ip_allocation_expectations.go:159-188 | each shown address with the latest time it is shown with |
| Expectations.IPAllocationExpectations.BuildAllocTimeMap | internal/controller/ip_allocation_expectations.go:159-188 | the loop computes that map |
| Expectations.IPAllocationExpectations.StageAllocation | internal/controller/ip_allocation_expectations.go:35-47 | refuses iff another id holds the address; otherwise reserves it and drops a staged release |
| Expectations.IPAllocationExpectations.UnstageAllocation | internal/controller/ip_allocation_expectations.go:49-62 | drops the reservation only of the same id and time |
| Expectations.IPAllocationExpectations.StageRelease | internal/controller/ip_allocation_expectations.go:64-80 | new state of a staged release |
| Expectations.IPAllocationExpectations.UnstageRelease | internal/controller/ip_allocation_expectations.go:82-95 | new state of an unstaged release |
| Expectations.IPAllocationExpectations.Resolve | internal/controller/ip_allocation_expectations.go:97-127 | the loops compute the resolved map whatever the iteration order |
| Expectations.IPAllocationExpectations.Confirm | internal/controller/ip_allocation_expectations.go:129-157 | the loops compute the confirmed state whatever the iteration order |
| Expectations.ReachableIsCoherent | internal/controller/ip_allocation_expectations.go:35-157 | after any operations, reservations and releases are on disjoint addresses and keyed by their own |
| Expectations.ResolvedExactly | internal/controller/ip_allocation_expectations.go:97-127 | Resolve is the counted reservations and the cached addresses not older than a release, each with its latest time |
| Expectations.ConfirmInvisible | internal/controller/ip_allocation_expectations.go:97-157 | Confirm on a snapshot changes nothing that Resolve on it reports |
| Expectations.ReservationIsExclusive | internal/controller/ip_allocation_expectations.go:35-157 | over any operations a reservation lasts exactly until one that ends it; meanwhile others are refused and Resolve reports it |
| Expectations.StagingTakesEffect | internal/controller/ip_allocation_expectations.go:35-47 | staging reserves the address for its owner and nothing else, unless someone else has it |
| Expectations.ReleaseTakesEffect | internal/controller/ip_allocation_expectations.go:64-80 | a staged release replaces the reservation and touches nothing else, unless a newer reservation holds the address |
| Expectations.ReleaseFreesAddress | internal/controller/ip_allocation_expectations.go:64-157 | over any operations a release lasts exactly until one that ends it, the timeout included; meanwhile anyone can reserve the address and Resolve reports it iff the cache shows it allocated at or after the release |
| Reconciler.ChosenIsUnused | internal/controller/ip_allocation_reconciler.go:131-246 | the chosen address is not among the used ones |
| Reconciler.FirstHolderMeaning | internal/controller/ip_allocation_reconciler.go:153-180 | a requested address comes from the first listed pool whose name and family fit and that contains it; none iff there is no such pool |
| Reconciler.NothingRefused | internal/controller/ip_allocation_reconciler.go:131-131 | nothing that Resolve leaves out is reserved for someone else |
| Reconciler.SkippedWriteChangesNothing | internal/controller/ip_allocation_reconciler.go:281-416 | when no update is needed, the status computed is the one already there |
| Reconciler.NextStatusWellKept | internal/controller/ip_allocation_reconciler.go:295-414 | phase, address and condition stay consistent, and an allocation keeps the time it was first shown with |
| Reconciler.PassReflects | internal/controller/ip_allocation_reconciler.go:281-416 | the status after a pass, field by field: Programmed on the interface the router names iff the chosen pool is advertised and the router answered, otherwise Allocated, or Failed with nothing chosen; a write is skipped exactly if nothing changes |
| Reconciler.ReflectsOnce | internal/controller/ip_allocation_reconciler.go:281-416 | that description fixes the status: two that fit it are equal |
| Reconciler.PassProtects | internal/controller/ip_allocation_reconciler.go:98-107 | an allocation without finalizer gets one and no address |
| Reconciler.PassReleases | internal/controller/ip_allocation_reconciler.go:62-94 | a deleted allocation that shows an address loses its finalizer iff the router has cleaned up; then its address is released, unless a newer reservation holds it or the store refuses |
| Reconciler.PassLetsGo | internal/controller/ip_allocation_reconciler.go:62-94 | one that shows none loses its finalizer at once, and no address is released |
| Reconciler.ReleasedIsFree | internal/controller/ip_allocation_expectations.go:64-127 | a released address is unused to every pass whose cache shows it allocated only from before the release |
| Reconciler.IPAllocationReconciler.Reconcile | internal/controller/ip_allocation_reconciler.go:50-434 | one pass has exactly the planned effect on tracker and store |
| Reconciler.IPAllocationReconciler.Release | internal/controller/ip_allocation_reconciler.go:62-94 | the release path, with its unstaging on a failed write |
| Reconciler.IPAllocationReconciler.ChooseAndStage | internal/controller/ip_allocation_reconciler.go:137-246 | the chosen address, specific or searched, is the one staged |
| Reconciler.IPAllocationReconciler.Allocate | internal/controller/ip_allocation_reconciler.go:98-434 | confirm, resolve, choose, compute the status, write, unstage on failure |
| Protocol.StepKeepsInv | internal/controller/ip_allocation_reconciler.go:80-434 | every step of the system keeps the invariant |
| Protocol.AddressesStayUnique | internal/controller/ip_allocation_reconciler.go:80-434 | in every state of every run no two stored allocations hold one address, if passes see the controller's own status writes and finalizer removals of the object |
| StaleReads.FailedRestageDuplicates | internal/controller/ip_allocation_expectations.go:49-62 | with removed finalizers seen but not the last status write, a failed re-stage leads to a duplicate address |
| StaleReads.RepeatedReleaseDuplicates | internal/controller/ip_allocation_reconciler.go:80-91 | with status writes seen but not the removed finalizer, a repeated release leads to a duplicate address |
| StuckReservations.FreeAgainIff | internal/controller/ip_allocation_expectations.go:97-157 | an address nobody shows counts as used for an allocation iff another name has it reserved |
| StuckReservations.AskedForIsGivenIff | internal/controller/ip_allocation_reconciler.go:137-204 | an allocation that asks for such an address gets it iff no other name has it reserved and a pool it may use holds it |
| StuckReservations.StuckForGood | internal/controller/ip_allocation_expectations.go:97-157 | over any run, the reservation of a name that is gone and not created again stays, and no allocation gets the address |
| StuckReservations.FailedAllocationGetsStuck | internal/controller/ip_allocation_reconciler.go:62-94 | a run whose passes see all own writes ends with an empty store and a stuck address |
| Router.FilterByQuery | internal/routeros/mock/server.go:392-411 | lists each matching object once |
| Router.DecimalReads | internal/routeros/backend.go:637-646 | a numeral the backend writes reads back as its number |
| Router.RouterOS.HandleGet | internal/routeros/mock/server.go:98-131 | a listing, or a counted failure |
| Router.RouterOS.HandlePut | internal/routeros/mock/server.go:134-177 | a new object under a new id; anything else is a counted failure without effect |
| Router.RouterOS.HandlePatch | internal/routeros/mock/server.go:180-243 | sets and removes fields of one object; an id that is not there is refused, and anything else is a counted failure without effect |
| Router.RouterOS.HandleDelete | internal/routeros/mock/server.go:246-277 | removes one object; an id that is not there is refused, and anything else is a counted failure without effect |
| Matching.CompareObjs | internal/routeros/api/gjson.go:28-46 | the two loops decide equality on all fields that are not ignored |
| Matching.GeneratePatchRequest | internal/routeros/api/gjson.go:9-26 | the two loops build the patch |
| Matching.PatchReaches | internal/routeros/api/gjson.go:9-26 | applied, the patch makes the object equal to the desired one and leaves ignored fields alone |
| Matching.MatchAllMatched | internal/routeros/api/client.go:174-200 | matching places every object in scope exactly once, in a slot it fits; leftovers equal no request without an exact match |
| Matching.DemoteMatched | internal/routeros/api/client.go:202-210 | so does demotion, after which no request has both an exact match and something to patch |
| Syncing.Place | internal/routeros/api/client.go:184-196 | the in-place inner loop takes the first request with room |
| Syncing.MatchObjects | internal/routeros/api/client.go:174-200 | the arrays hold the result of greedy matching |
| Syncing.Demote | internal/routeros/api/client.go:202-210 | the in-place loop computes demotion |
| Syncing.DeleteConflicts | internal/routeros/api/client.go:212-222 | exactly the leftovers' ids disappear, up to the first call that fails; succeeds iff none does |
| Syncing.ServeRequest | internal/routeros/api/client.go:225-248 | keeps, patches or creates one object that equals the request; succeeds iff no call fails |
| Syncing.ApplyRequests | internal/routeros/api/client.go:224-248 | the requests are served one by one, up to the first call that fails, and nothing else changes; succeeds iff none does |
| Syncing.Sync | internal/routeros/api/client.go:149-251 | succeeds iff no router call fails; then requests and objects in scope are in bijection and equal on visible fields, all else unchanged; with distinct ids, objects are reused by id; on failure only scoped objects changed, each to some request; the calls made are the planned ones or a prefix |
| Syncing.PlanIsEconomical | internal/routeros/api/client.go:174-248 | with distinct ids: a request is created iff no listed object has its id; otherwise one of those serves it under its own `.id` and ignored fields, untouched if one is equal, patched once if none is; everything else in scope is deleted, once, and first |
| Syncing.FoundIsUntouched | internal/routeros/api/client.go:174-248 | an exactly matched object is never patched or deleted |
| Syncing.SharedIdsNeverSettle | internal/routeros/api/client.go:184-210 | with two requests of one id there is always something to do |
| Syncing.SecondSyncIsSilentIff | internal/routeros/api/client.go:178-248 | after a Sync, the next one sends only its listing iff the requests have different ids |
| Syncing.RetriesConverge | internal/routeros/api/client.go:178-248 | any number of failed Syncs and one successful one reach what a single one reaches |
| Services.PortChainsDistinct | internal/routeros/backend.go:269-275 | a port chain's name determines service hash, port and protocol |
| Services.ChainsApart | internal/routeros/backend.go:261-283 | service chains, port chains and fixed names never coincide |
| Services.HostReads | internal/routeros/backend.go:487-521 | a host entry with its mask reads back as its address |
| Services.MarkedMeans | internal/routeros/backend.go:507-508 | an object carries the mark of a service iff its comment starts with `mikrolb:` and has the UID in it |
| Services.EndpointsRulesAre | internal/routeros/backend.go:722-750 | the requests are one rule for each offered port and address of the family |
| Services.SoundNamesExist | internal/routeros/backend.go:261-283 | what is asked of printed addresses and hashes can be had |
| Programs.ConvergedFulfilled | internal/routeros/api/client.go:149-251 | after a Sync its requests and the objects in scope are in bijection, equal on visible fields |
| Programs.FulfilledConverged | internal/routeros/api/client.go:149-251 | and any such table is one a Sync may leave, so that what is proved of a second Sync applies to it |
| Programs.StillFulfilled | internal/routeros/backend.go:164-227 | what one Sync achieved lasts under changes to other objects |
| Tasks.KeysAreIds | internal/routeros/backend.go:527-778 | an object with the key fields of a request has its id, so other fields, the comment among them, are patched in place |
| Backend.SyncTo | internal/routeros/api/client.go:149-251 | a Sync as the backend uses it: it sends only listings iff the table is already fulfilled and the requests differ |
| Requests.SpreadRequests | internal/routeros/backend.go:722-760 | the grouping and nth loops give every chain its distributed rules, the last one without nth |
| Requests.PortRequestsOf | internal/routeros/backend.go:626-659 | one request for each TCP or UDP port and protocol, each once, whatever the map order |
| Requests.ServiceRequests | internal/routeros/backend.go:584-599 | one jump per load balancer IP of the family |
| Requests.ListRequests | internal/routeros/backend.go:486-497 | one list entry per address of the family |
| Requests.SourceRequests | internal/routeros/backend.go:834-850 | one source entry per endpoint address of the family |
| Backend.EnsureLBConnectionChainRule | internal/routeros/backend.go:537-568 | Setup's jump into the load balancer chain is there |
| Backend.EnsureSNATRule | internal/routeros/backend.go:792-820 | Setup's jump into the source NAT chain is there |
| Backend.EnsureLBServicePortDNATRules | internal/routeros/backend.go:708-790 | every port chain with a target is tried, whatever fails before it, and holds its distributed rules; only port chains are touched; succeeds iff no router call fails, and is silent iff all were ready |
| Backend.StaleChains | internal/routeros/backend.go:661-677 | the chains that listed rules jump to and no request does |
| Backend.PruneChains | internal/routeros/backend.go:688-703 | every stale chain is tried, whatever fails before it; all are emptied iff no router call fails; failures are not reported |
| Backend.PortRulesSurvive | internal/routeros/backend.go:661-703 | after the cleanup the port rules are as requested iff there are none or the service chain was not stale |
| Backend.EnsureLBServicePortRules | internal/routeros/backend.go:623-706 | the service chain holds the port rules, stale chains are emptied, with the exact condition for both; no call fails iff it and its cleanup succeed |
| Backend.EnsureLBServiceRule | internal/routeros/backend.go:570-621 | the connection chain holds one jump per address to the service chain |
| Backend.EnsureLBIPsList | internal/routeros/backend.go:473-535 | the shared list holds the service's addresses |
| Backend.EnsureSNATSrcIPsList | internal/routeros/backend.go:822-869 | the source list holds the endpoint addresses |
| Backend.EnsureSNATServiceRule | internal/routeros/backend.go:871-924 | the source NAT rule is there iff the service has such an IP |
| Backend.EnsureLB | internal/routeros/backend.go:171-201 | the load balancer part of a family: listed, programmed unless the chain jumped back, stale chains empty if no call failed; or nothing left; silent iff ready |
| Backend.EnsureSNAT | internal/routeros/backend.go:203-223 | the source NAT part of a family; succeeds iff no router call fails, silent iff ready |
| Backend.ProgrammedBySteps | internal/routeros/backend.go:171-185 | the three rule steps together leave a programmed service |
| Backend.EnsureService | internal/routeros/backend.go:164-227 | both families; no router call fails iff it and all cleanups succeed, and silent iff ready; on failure too, only the service's objects and the chains its own jumped to change, and everything written carries its mark, in its places, for its addresses |
| Backend.DeleteService | internal/routeros/backend.go:229-259 | only removes, only the service's objects; all eight Syncs are tried, whatever fails; succeeds iff no router call fails, and then nothing of it is left |
| Firewall.PortChainFinal | internal/routeros/backend.go:708-790 | every rule of a port chain that applies translates to a current endpoint of that port |
| Firewall.LandsPast | internal/routeros/backend.go:537-790 | rules that pass a packet on, harmless ones and jumps that come back, cannot change what a chain decides |
| Firewall.LastRuleApplies | internal/routeros/backend.go:752-760 | some rule always applies, whatever the nth matchers answer |
| Firewall.EveryShareOnce | internal/routeros/backend.go:752-760 | of the rules of a port chain, each but one has a share `count,k`, every k from 1 to count - 1 once, and one has none |
| Firewall.PortRuleApplies | internal/routeros/backend.go:626-650 | a rule of the service chain applies only to its own port and protocol, as the router reads them |
| Firewall.PortIsKnown | internal/routeros/backend.go:642-646 | the port and protocol of a rule match exactly the packets of that port with `tcp` for `TCP` and `udp` for `UDP` |
| Firewall.HostIsRead | internal/routeros/backend.go:486-497 | a host as the backend writes it, bare for IPv4 and with /128 for IPv6, is read by the router as that single address |
| Firewall.PacketsReachEndpoints | internal/routeros/backend.go:537-790 | every packet to a load balancer IP and a port with an endpoint of the family is translated to a current endpoint of that port, whatever foreign rules pass it on first |
| Firewall.OtherPortsFallThrough | internal/routeros/backend.go:623-706 | a packet to another port falls through the service chain |
| Firewall.OtherPortsPass | internal/routeros/backend.go:537-706 | and through destination NAT altogether, foreign rules that pass it on included |
| Firewall.EntryIsOwn | internal/routeros/backend.go:504-530 | whatever entry of the shared list the router reads as one of the service's addresses is the service's own entry |
| Lifecycle.JumpsKept | internal/routeros/backend.go:623-706 | no EnsureService adds a jump to a service chain but to that chain's port chains |
| Lifecycle.HarmlessKept | internal/routeros/backend.go:623-706 | no EnsureService, for any service, makes a harmless service chain jump back or to dstnat |
| Lifecycle.ConnectionKept | internal/routeros/backend.go:98-130 | Setup's rule survives every call that does not clean up dstnat, of any service whose UID is not part of its comment |
| Lifecycle.EnsureDelivers | internal/routeros/backend.go:164-227 | from any prior rules with Setup's among them, a successful EnsureService provides for the service's traffic unless its chain jumped back or to dstnat |
| Lifecycle.DeliversIff | internal/routeros/backend.go:688-703 | with ports and no failed router call, it does so exactly then |
| Lifecycle.WayStaysClear | internal/routeros/backend.go:570-621 | neither the service's own EnsureService nor a call for a service with other addresses puts a rule in the way |
| Lifecycle.DeliveryKept | internal/routeros/backend.go:164-259 | one call for another service, successful or not, takes nothing from this one's load balancing |
| Lifecycle.SourceNATKept | internal/routeros/backend.go:203-259 | nor from its source NAT |
| Lifecycle.DeliveryOverRun | internal/routeros/backend.go:164-259 | nor does any run of such calls, judged by the tables it starts from |
| Lifecycle.PreparedKept | internal/routeros/backend.go:164-259 | Setup's rule, the clear way and the harmless chain survive every call for the service itself and every considerate one for another |
| Lifecycle.PreparedOverRun | internal/routeros/backend.go:164-259 | and any run of such calls, judged by the tables it starts from |
| Lifecycle.PacketsKeepReaching | internal/routeros/backend.go:98-790 | a whole run from Setup's tables: calls for other services and for this one, an EnsureService that succeeds, then calls for others: packets reach the service's endpoints; foreign rules are restricted in the first tables only |
| Lifecycle.PacketsReachIff | internal/routeros/backend.go:537-790 | with no failed router call, packets reach the service's endpoints iff its chain did not jump back or to dstnat |
| Lifecycle.HarmLosesPackets | internal/routeros/backend.go:669-703 | with the service chain or dstnat emptied, no packet of the service is translated |
| Lifecycle.JumpBackExample | internal/routeros/backend.go:669-703 | from a table with one rule that jumps back, every completed cleanup leaves a service chain that passes every packet, and the port rules missing |
| Lifecycle.JumpToDstnatExample | internal/routeros/backend.go:669-703 | from a table with Setup's rule and one jump to dstnat, every completed cleanup loses Setup's rule and all packets |
| Lifecycle.NoResidue | internal/routeros/backend.go:164-259 | after any EnsureService calls for a UID and a successful DeleteService, from any start, the tables hold only what they held at the start and nothing of the service; what was neither the service's nor in a chain its own jumped to is still there |
| SourceNAT.SNATRuleAppliesIff | internal/routeros/backend.go:822-924 | the service's source NAT rule applies exactly to packets of its endpoints |
| SourceNAT.SourcesAreMasked | internal/routeros/backend.go:792-924 | a packet of an endpoint leaves with the service's IPv4 or IPv6 source NAT IP by the packet's family, any other packet, or any at all if there is no such IP, with its own address, whatever foreign rules pass it on first |
| SourceNAT.SourceJumpKept | internal/routeros/backend.go:792-820 | Setup's jump survives every call that does not clean up srcnat, of any service whose UID is not part of its comment |
| SourceNAT.SourcesMaskedIff | internal/routeros/backend.go:688-703 | with no failed router call, packets of endpoints leave with that IP iff the service chain did not jump to srcnat |
| SourceNAT.SourceJumpOverRun | internal/routeros/backend.go:164-259 | over any run, Setup's jump and the way to it last, judged by the tables it starts from |
| SourceNAT.SourcesStayMasked | internal/routeros/backend.go:98-924 | a whole run from Setup's tables, with calls for other services and this one: packets of its endpoints leave with its IP, others with theirs, unless another service hides the same endpoint |
| Tasks.DNATTaskSettles | internal/routeros/backend.go:764-776 | the Syncs of the port chains read only visible fields and list their own requests, so retries converge |
| Tasks.PortTaskSettles | internal/routeros/backend.go:663-683 | so does the Sync of the service chain |
| Settling.DNATSettlesIff | internal/routeros/backend.go:722-776 | ensured again, a port's rules cause no call iff no pair of address and target port is listed twice among its endpoints |
| Settling.PortRulesSettle | internal/routeros/backend.go:623-683 | ensured again, the port rules never cause a call |
| Settling.AddressesSettleIff | internal/routeros/backend.go:473-621 | ensured again, service rules and list entries cause no call iff no address of the family is given twice |
| Settling.SpreadSettles | internal/routeros/backend.go:708-790 | with all port chains programmed, ensuring them again is silent iff no port's target is listed twice |
| Settling.UnbalancedSettles | internal/routeros/backend.go:186-223 | in a family without a load balancer IP the repeated removal is silent iff there is no source NAT IP either |
| Settling.FamilySettles | internal/routeros/backend.go:164-227 | a family is ready after EnsureService iff nothing is given twice and a source NAT IP comes with a load balancer IP |
| Settling.SecondEnsureIsSilentIff | internal/routeros/backend.go:164-227 | after a successful EnsureService whose chains had not jumped back, the next one sends only listings iff that holds in both families |

## Left out

- HTTP, TLS, JSON, URL building and the policy cache of `client.go`: a store call either happens or fails without effect. A call that fails after taking effect is not modelled.
- The order of a listing: a path's objects are a map by id, and a listing may have any order. Theorems about rule programs hold for every order.
- gjson paths and number formatting: field names are plain keys, values are strings.
- The text parser and printer of `netip`, IPv6 zones included: parsed addresses and prefixes are inputs, and `Services.Sound` asks that printed addresses read back and contain no slash.
- `GenerateUniqueHash`: any function to eight characters. Chains of different services differ where the hashes do, and theorems about two services ask for that.
- Reconciler.IPAllocationReconciler.Reconcile: one snapshot of the cache serves both the reading of the object and the listing of all of them, and listings do not fail. A pass whose listing fails ends before it touches the tracker.
- Router.RouterOS.HandleGet: lists a path only; fetching a single object by its id, which Sync never does, is absent.
- Router.RouterOS.HandlePatch: bodies that set or remove `.id` are absent; patches never do, as `.id` is an ignored field.
- Syncing.ServeRequest: like Syncing.Sync, asks that `.id` is ignored.
- Syncing.ApplyRequests: like Syncing.Sync, asks that `.id` is ignored.
- Syncing.Sync: asks that `.id` is an ignored field when there are requests, which every caller in `backend.go` grants.
- `Sync` reads the stale chains through a filter with side effects; here the same objects are returned by Sync and searched afterwards.
- Firewall.PacketsReachEndpoints: asks that the port has an endpoint in the family, because the chain of a port without one is not synced and may hold old rules; and that every foreign rule of `dstnat` or `mikrolb-dnat` that applies passes the packet on. It makes no claim on how evenly `nth` spreads packets. A `vrf` field of a rule is not a matcher here, since Sync ignores it.
- Firewall and SourceNAT: packets and services have addresses that netip has (`IsValid`, `ValidEndpoints`).
- SourceNAT.SourcesMaskedIff: asks that the service has a load balancer IP in the family; without one nothing is cleaned up.
- SourceNAT.SourcesStayMasked: asks of the last tables that every other source NAT rule is harmless, never applies, or is for a list without the packet's source: which addresses other services list is not carried over runs.
- Lifecycle.DeliveryKept: asks that the other service has another chain name and other addresses, that its UID appears in none of this service's comments, and, for EnsureService, that its chain jumps to no chain of this service or of the fixed ones, which lasts over a run.
- Lifecycle.PacketsKeepReaching: asks of foreign rules, in the first tables, that they are harmless or by their known matchers never apply to the packet, so that answers of other matchers and later changes to chains they jump to cannot matter.
- Settling.SecondEnsureIsSilentIff: asks that the service chain had not jumped back before the first call. Where it had, that call may lose the port rules, and the next one makes them again.
- The rules of `Setup` other than the jumps into `mikrolb-dnat` and `mikrolb-snat` (mangle, accept, reject): single Syncs that add only easy members.
- IP advertisement, gratuitous packets and the choice of an interface by route.
- `LBEnabled` and `SNATEnabled`, which the backend never reads.
- In-place reuse of slices by `append` and `sort` in `ip_range_set.go`: lists are values, so aliasing between a set and its arguments is not captured.
- `Iter` closures that are stopped early and used again: the captured end has changed by then, and callers use each closure once.
- `FormatCount` and all other formatting.
- Reasons and messages of conditions in the allocation status: whether they changed is an input of a pass.
- Events, watches, requeues and the service reconciler: a pass may run at any time on any object.
- Overlapping passes of one controller: passes are atomic, as with one worker. Store, cache and other writers move between them.
- The lock of the tracker: its operations are atomic.
- Stability of an address across passes: a pass is a function of its inputs, and may move to another address when the inputs differ.
