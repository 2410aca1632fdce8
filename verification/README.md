# Terway's node-local address management, modelled and proved in Dafny

Terway gives pods addresses out of elastic network interfaces (ENIs). This project models the part of it that
runs on a node and decides which pod gets which address, and proves what that part promises:

* **The pool of one ENI** (`Local*.dfy`). `pkg/eni/local.go` runs per-request workers, two factory workers, a
  remote sync and `Dispose` under one lock that is dropped around every cloud call. `LocalPool.dfy` is that as a
  state machine: what happens between taking and dropping the lock is one event, and a cloud call is a start event
  and an answer event. `LocalEni.dfy` is the imperative code, a class whose every method is proved to perform a
  run of those events; `LocalLoops.dfy` and `LocalLoad.dfy` are its loops. The theorems about all runs are in
  `LocalRuns.dfy` (ownership), `LocalCapacity.dfy`, `LocalJobs.dfy` and `LocalDeleting.dfy`.
* **Reclaiming idle addresses** (`Reclaim.dfy`, `PoolSizes.dfy`): how many a pass takes and leaves, over the
  classes above, and how often extra reclaims happen against a clock.
* **The prefix allocator** (`Prefix*.dfy`, `Ipam*.dfy`, `Delegate*.dfy`): bitmaps, offsets and the pod-to-prefix map
  of an ENI, best-fit choice, restart recovery, draining, and dual-stack allocation over all ENIs of a node, one call at
  a time and interleaved.
* **Waiting and reporting** (`Notify.dfy`, `Waiter.dfy`, `NodeRuntime.dfy`, `RuntimeJobs.dfy`): the notifier's channels,
  the wake-up of waiters as a state machine against the informer, the log of released pods, and the two jobs that write
  the NodeRuntime object.
* **Bytes** (`Bytes.dfy`, `Gateway.dfy`, `PrefixAddr.dfy`, `U32.dfy`): masks, gateways, offsets and tc u32 keys, on
  big-endian byte strings and the numbers they stand for.

`dafny verify dfyconfig.toml` checks all of it.

## How the model stands to the code

* The order in which Go visits a map is arbitrary. Loops over maps pick members arbitrarily, or take the order as
  a parameter; every result holds for every order.
* Clock readings, jitter, context cancellation, answers of the cloud factory and of the Kubernetes API are inputs.
* Addresses of the pool are numbers, and an IP entry is a value in a map. The code hands a pointer to the entry to the
  commit goroutine; the model looks the address up again, which is the same entry because a pending commit's
  address stays in the set, owned by its pod (`LocalOwnership.CommitsHold`, an invariant of every run).
* The factory keeps its contract (`pkg/factory/types.go:11`): no more addresses than asked for, none that is
  already in the set, and an assign call overtaken by the deletion of its ENI fails without addresses. This is part of
  `LocalPool.Enabled`.
* Callers keep one allocation per pod outstanding, its commit goroutine included (`daemon/daemon.go:111`), and do not
  release an address that the pod's own commit is about to report. This is `LocalPool.Disciplined`; job conservation
  does not need it.
* `Dispose` marks an ENI right after `canDispose` has pruned both queues, so the event that marks it prunes them.
* `LocalDelegate.TryAllocateLocal` is one call on its own. The code holds the delegate's lock for reading only, so calls
  interleave between the allocators; `DelegateCalls.dfy` is about that, one step per call on an allocator.
* A waiter reads the Node object that the informer cached last, and the handler of a change runs some time after the
  cache has it. The order in which a try visits the interfaces is arbitrary: `Waiter.NoLostWakeup` is about objects that
  serve the pod in every order, and `Waiter.UnluckyOrderBlocksIff` says when that makes a difference.
* The two jobs that write the NodeRuntime object read it from the informer cache, which sees the versions of the object
  late and may skip some. A save reads the cache again and sends a JSON merge patch (RFC 7396) of the difference between
  that and the job's copy; the re-read and the patch are two steps, and the patch works on the object as it then is. The
  object's status is a subresource, so creating the object stores none, and its schema refuses a record without a pod ID
  or without statuses. What `CreateOrPatch` does in this is taken from its documentation; it is not part of this model.
* CIDRs are texts with the network that parsing gives; parsing itself is abstract. The CIDRs a node ever sees are
  told apart by their texts and have no addresses in common (`PrefixTable.Universe`).

## What turned out not to hold

* `canDispose` counts only jobs that still wait for an address (allocating), not those whose address was fetched but
  not picked up (danging). An ENI can then be marked Deleting and deleted under a pod that was just answered:
  `LocalWitnesses.DangingJobLosesItsEni`, and with the help of an assign call in flight
  `LocalWitnesses.AssignInFlightGivesAway`. `LocalDeleting.MarkedEniGainsOwnerIff` says exactly when some run after the
  mark comes to that.
* A release of an address that the pod's own pending commit is about to report lets the address pass between two pods:
  `LocalWitnesses.ReleaseOvertakingCommitHandsOver`. `LocalOwnership.ReleaseKeepsCommitsIff` says that exactly these
  releases take an address from a pending commit, and `LocalRuns.ReleaseHarmsIff` that exactly after these some
  disciplined run leaves a pod with a Deleting address, if the release names no primary address.
* `load` skips a stored record whose IPv4 address is not on the ENI, and with it the record's IPv6 address, which can
  then go to another pod: `LocalWitnesses.SkippedRecordLosesIpv6`, with the exact condition in `LocalLoad.LoadSets`.
* A restart forgets the pods of prefixes that the CR does not list Valid or Frozen at that moment:
  `PrefixRestart.ForgottenAddressIsReused`, `DelegateRestart.PodRestoredIff`.
* A dual-stack allocation for a pod that already holds an IPv4 address, as a restart can leave it, releases that live
  address if the ENI has no IPv6 address for the pod: `DelegateSpec.StepKeepsIff` has the exact condition, and
  `DelegateSpec.DualPodKeepsBoth` says that it does not happen to a pod with both.
* The offset of an address in an IPv6 prefix is cut to 64 bits, so a prefix with more than 64 host bits accepts
  addresses it never hands out; with at most 64 it does not: `PrefixAddr.WidePrefixAccepts`, `PrefixAddr.ExactIff`.
* The gateway of a CIDR is found by way of bytes without leading zeros, so it is missing for networks whose third
  address from the end starts with a zero byte, such as 0.0.0.0/8 (`Gateway.ZeroNetworkHasNoGateway`) and every network
  in IPv4-mapped form: `Gateway.DeriveGateway` has the exact condition.
* Times of statuses can tie, and then the map order decides whether a record counts as deleted:
  `NodeRuntime.TieFollowsOrder`, `NodeRuntime.OrderDecidesIff`.
* A saved Deleted mark can be taken out again, after the log was cleared, by a job that read the object before its cache
  had seen the mark and reads it again after: `RuntimeJobs.LaggingReadTakesMark`, with the exact condition in
  `RuntimeJobs.MarkStaysIff`. The first report of a node without a NodeRuntime object creates it without the mark and
  clears the log: `RuntimeJobs.FirstReportIsLost`, with the exact condition in `RuntimeJobs.ClearedLogIsSavedIff`.
* A waiter can stay blocked because its try visited the interfaces in an unlucky order:
  `Waiter.TwoInterfacesDiffer`, `Waiter.UnluckyOrderBlocksIff`.

## Model

| member | source | states |
|---|---|---|
| `LocalRuns.OwnershipOverRuns` | pkg/eni/local.go:376-981 | in every run of allocations, commits, releases, syncs, disposals and both factory workers: an owned address never passes straight to another pod and is given up only by its owner or with its ENI; an address that gains an owner was Valid and free and goes to the pod the step acts for; no pod owns two addresses of a family; Deleting addresses, and with them everything handed to an unassign call, are unowned; a commit finds its ENI; without an ENI the sets are empty |
| `LocalRuns.StepOwnership` | pkg/eni/local.go:491-524 | one step from a safe state gives addresses only to the pod it acts for, only Valid and free ones, and takes them only from that pod, unless the ENI goes |
| `LocalOwnership.StepSafe` | pkg/eni/local.go:376-981 | every enabled, disciplined event keeps the pool invariant: owners, pending commits, phases of the two factory workers and ENI status agree |
| `LocalOwnership.ReleaseKeepsCommitsIff` | pkg/eni/local.go:491-524 | a release leaves every pending commit its addresses if and only if it frees none that the pod's own commit is about to report |
| `LocalRuns.ReleaseHarmsIff` | pkg/eni/local.go:460-524 | after a release of addresses other than the primary one, some run of disciplined steps leaves a pod with a Deleting address if and only if the release frees an address that a pending commit of its pod is about to report |
| `LocalCapacity.CapacityOverRuns` | pkg/eni/local.go:408-815 | over every run that starts within capacity, addresses that are not Deleting plus queued jobs, and plus what a call in flight asked for, stay within cap, for each enabled family |
| `LocalJobs.JobsOverRuns` | pkg/eni/local.go:1182-1257 | over every run, callers disciplined or not: no request is twice in a family's two queues, and an uncancelled request is in exactly one of them if its worker wants the family and in none otherwise |
| `LocalDeleting.MarkedEniStaysUnowned` | pkg/eni/local.go:821-944 | if no live danging job exists when Dispose marks an ENI Deleting, none of its addresses gains an owner until it is reset |
| `LocalDeleting.MarkedEniGainsOwnerIff` | pkg/eni/local.go:1097-1113 | some run after an ENI is marked Deleting, short of its reset, gives one of its addresses an owner if and only if, when it is marked, a live danging job exists and every enabled family has an allocatable address or has asked for one with an assign call in flight |
| `LocalDeleting.DeletingGainsOwnerIff` | pkg/eni/local.go:1097-1113 | the same for any unowned Deleting pool with empty allocating queues |
| `LocalWitnesses.DangingJobLosesItsEni` | pkg/eni/local.go:1097-1113 | a legal run in which an ENI is deleted under a pod that was answered after the ENI was marked |
| `LocalWitnesses.AssignInFlightGivesAway` | pkg/eni/local.go:785-814 | a legal run in which the marked ENI has no IPv6 address to give, an assign call in flight brings one, and a danging job takes it under the delete call |
| `LocalWitnesses.ReleaseOvertakingCommitHandsOver` | pkg/eni/local.go:460-462 | a run in which a release overtakes the pod's own commit and an address passes between two pods |
| `LocalLoops.Live` | pkg/eni/types.go:283-296 | the queue without its cancelled jobs, order kept |
| `LocalLoops.PeekAvailable` | pkg/eni/types.go:131-145 | the pod's own address if it has one, else an allocatable one; none exactly if there is neither |
| `LocalLoops.CollectInUse` | pkg/eni/types.go:111-119 | exactly the owned addresses |
| `LocalLoops.CollectIdles` | pkg/eni/types.go:101-109 | exactly the unowned addresses |
| `LocalLoops.CollectDeletingBatch` | pkg/eni/local.go:946-959 | Deleting addresses, all of them or a full batch |
| `LocalLoops.SyncIps` | pkg/eni/local.go:1116-1141 | Valid addresses that the remote side does not list become Invalid with their owners kept |
| `LocalLoops.Put` | pkg/eni/types.go:151-161 | the addresses are in the set with the given status and nobody owns them; the others are as before |
| `LocalLoops.SwitchJob` | pkg/eni/local.go:1182-1203 | a finished job still queued hands its place to the first live danging job |
| `LocalLoops.PopJobs` | pkg/eni/local.go:1227-1237 | the first jobs move to the danging queue, or all if there are fewer; preheating ones are cancelled |
| `LocalLoops.DisposeFamily` | pkg/eni/local.go:842-888 | every invalid idle address and at most n further idle ones are marked, primaries and owned addresses never |
| `LocalLoad.RestoreOwners` | pkg/eni/local.go:239-327 | the owners after the loop are pods of records that are not skipped, with their recorded addresses; each record's pod owns exactly those of its addresses that are on the ENI, but nobody owns the IPv6 address of a record whose IPv4 address is missing |
| `LocalLoad.LoadSets` | pkg/eni/local.go:209-352 | the loaded sets are safe starting sets with only recorded owners: a pod owns its recorded IPv4 address if and only if that is on the ENI, and its recorded IPv6 address that is on the ENI if and only if its record has no IPv4 address or that is on the ENI too; of a family over capacity the idle addresses are marked for removal, the owned ones stay |
| `LocalWitnesses.SkippedRecordLosesIpv6` | pkg/eni/local.go:300-303 | a load that drops the IPv6 address of a stored record, and the allocation that gives it to another pod |
| `LocalEni.Local.constructor` | pkg/eni/local.go:158-178 | a pool that no event has touched |
| `LocalEni.Local.Load` | pkg/eni/local.go:209-352 | leads to a state from which the theorems about runs start, with the owners that the records say |
| `LocalEni.Local.Allocate` | pkg/eni/local.go:376-488 | performs a run of events; answers at once, queues jobs or refuses exactly as the capacity, the status and the addresses at hand decide |
| `LocalEni.Local.RunCommit` | pkg/eni/local.go:1057-1094 | performs the commit event of its request |
| `LocalEni.Local.WorkerRound` | pkg/eni/local.go:553-640 | performs the events of one round of a worker, and is done if it committed or stopped |
| `LocalEni.Local.Release` | pkg/eni/local.go:491-524 | performs the release event if the resource is of this ENI, and changes nothing otherwise |
| `LocalEni.Local.Sync` | pkg/eni/local.go:355-374 | performs the sync event if the ENI is in use and the lookup succeeded |
| `LocalEni.Local.FactoryAllocCheck` | pkg/eni/local.go:646-678 | goes on exactly if the pool is Init or InUse, not inhibited and has a live job |
| `LocalEni.Local.FactoryAllocWake` | pkg/eni/local.go:680-689 | starts the create or assign call with the counts of the queues at that moment |
| `LocalEni.Local.CallGivenUp` | pkg/eni/local.go:691-696 | performs the event of a call that its rate limiter did not let through |
| `LocalEni.Local.CreateFailed` | pkg/eni/local.go:702-718 | performs the failure event of the create call |
| `LocalEni.Local.Created` | pkg/eni/local.go:721-748 | performs the success event of the create call on both families |
| `LocalEni.Local.Assigned4` | pkg/eni/local.go:754-783 | performs the answer event of the IPv4 assign call |
| `LocalEni.Local.Assigned6` | pkg/eni/local.go:785-814 | performs the answer event of the IPv6 assign call |
| `LocalEni.Local.CanDisposeNow` | pkg/eni/local.go:1097-1113 | answers whether the ENI may go, pruning queues on the way |
| `LocalEni.Local.FactoryDisposeRound` | pkg/eni/local.go:905-962 | starts the delete call exactly if the ENI is Deleting and may go, the unassign call exactly if something is Deleting |
| `LocalEni.Local.Deleted` | pkg/eni/local.go:930-944 | performs the answer event of the delete call |
| `LocalEni.Local.UnassignAnswered` | pkg/eni/local.go:961-979 | performs the answer event of the unassign call of one family |
| `LocalEni.Local.Usage` | pkg/eni/local.go:1004-1022 | the idle and owned counts of the counted family |
| `LocalEni.Local.Dispose` | pkg/eni/local.go:821-891 | performs the disposal: the whole ENI, or at most n idle addresses per family; reports what it took |
| `PoolSizes.GetPoolSizes` | daemon/config.go:73-198 | min does not exceed max, and max does not exceed the capacity, unless both are zero; the exact clamps in multi-IP mode |
| `Reclaim.ToDelLeavesMin` | pkg/eni/manager.go:422-464 | however a pass is decided, it leaves minIdles, and the extra part is at most one batch |
| `Reclaim.ExtraReclaimsSpaced` | pkg/eni/manager.go:438-459 | over any run with a monotone clock, two calls that reach the extra reclaim are at least the interval apart |
| `Reclaim.NoExtraSoonAfterChange` | pkg/eni/manager.go:429-434 | none happens within reclaimAfter of the last pool change |
| `Reclaim.DisposeReclaims` | pkg/eni/local.go:821-891 | one Dispose loses no more idle addresses of either family than it reports, and reports no more than asked |
| `Reclaim.Manager.CalculateToDel` | pkg/eni/manager.go:422-464 | computes the number to delete and moves the due time |
| `Reclaim.Manager.ReclaimPass` | pkg/eni/manager.go:306-330 | a pass over all ENIs takes at most the planned number of idle addresses of either family, touches no owned address and no primary one of an ENI that stays, and leaves min(minIdles, idles) of the counted family |
| `Bytes.MaskInterval` | pkg/ip/ip_cilium.go:34-35 | masking takes to an aligned address exactly the 2^h addresses from it on |
| `Gateway.ContainsIff` | pkg/ip/ip_cilium.go:69-71 | byte-wise membership in a network is membership in its interval of numbers |
| `Gateway.SetHostBits` | pkg/ip/ip_cilium.go:42-47 | the loop over the mask sets the host bits of the last bytes and nothing else |
| `Gateway.LastIpValue` | pkg/ip/ip_cilium.go:42-47 | the mask loop computes base + 2^h - 1 |
| `Gateway.LastIp` | pkg/ip/ip_cilium.go:27-50 | the end of the range that ipNetToRange computes, with its bytes laid out as there |
| `Gateway.LastIpIs` | pkg/ip/ip_cilium.go:37-47 | that is the address with its host bits set, in 16 bytes, unless the network is in IPv4-mapped form |
| `Gateway.GetIpAtIndex` | pkg/ip/ip_cilium.go:53-73 | for networks of either family and in IPv4-mapped form: the address at an index from either end, exactly if it lies in the network and has the network's length without leading zeros |
| `Gateway.DeriveGateway` | pkg/ip/ip.go:58-71 | base + 2^h - 3 in the network's length if and only if h >= 2 and that number has a nonzero top byte; none otherwise |
| `Gateway.TopByteSuffices` | pkg/ip/ip.go:58-71 | a network with a nonzero top byte and at least four addresses always has its gateway |
| `Gateway.ZeroNetworkHasNoGateway` | pkg/ip/ip.go:58-71 | 0.0.0.0/8, a network with an address there but without a gateway |
| `U32.WordLoop` | pkg/tc/u32.go:101-119 | one key per word whose mask has a bit, in order |
| `U32.U32MatchSrc` | pkg/tc/u32.go:84-99 | the keys of the network's family |
| `U32.KeysSelectSource` | pkg/tc/u32.go:84-119 | the keys of a network hit exactly the IP headers whose source agrees with it under its mask, in both families |
| `U32.Ipv6FromU32Keys` | daemon/daemon_linux.go:144-166 | the key loop with its buffer and bitmask computes the decoded address or none |
| `U32.DecodesIff` | daemon/daemon_linux.go:141-166 | an address is decoded if and only if four keys take offsets 8, 12, 16 and 20 once each |
| `U32.PermutationDecodes` | daemon/daemon_linux.go:141-166 | any permutation of the keys built for a /128 decodes to that address |
| `U32.LiveWords` | daemon/daemon_linux.go:86-93 | the words of exactly the live IPv4 addresses |
| `U32.Keep` | daemon/daemon_linux.go:102-130 | a filter is kept if and only if it is not a known VLAN push filter whose keys, read by offset and value, give an address that is not live |
| `U32.GcTcFilters` | daemon/daemon_linux.go:85-139 | exactly the stale filters are deleted, in order |
| `U32.BuiltFilterStale` | plugin/driver/utils/utils_linux.go:480-503 | a filter built for a /32 or a /128, with its present or its legacy priority and its keys in any order, is deleted if and only if the address is not live |
| `PrefixAddr.CalculatedAddress` | pkg/eni/eni_local_ipam.go:444-477 | the address at an offset is base + offset, in the network's length, inside the prefix |
| `PrefixAddr.OffsetOfCalculated` | pkg/eni/eni_local_ipam.go:482-504 | an offset of the bitmap comes back from its address |
| `PrefixAddr.FoundIsCalculated` | pkg/eni/eni_local_ipam.go:482-504 | with at most 64 host bits, whatever address is found at an offset is the address at that offset |
| `PrefixAddr.ExactIff` | pkg/eni/eni_local_ipam.go:479-504 | addresses with nonzero middle bits are rejected if and only if the prefix has at most 64 host bits |
| `PrefixAddr.WidePrefixAccepts` | pkg/eni/eni_local_ipam.go:497-500 | in a wider prefix the address 2^64 above the base is taken for the base |
| `PrefixAddr.AddressesDiffer` | pkg/eni/eni_local_ipam.go:444-477 | offsets of disjoint prefixes, and different offsets of one, have different addresses |
| `PrefixTable.RemainingIs` | pkg/eni/eni_local_ipam.go:217-224 | the remaining count does not underflow, and is zero exactly if no bit is clear |
| `PrefixTable.ChoiceIff` | pkg/eni/eni_local_ipam.go:209-226 | a prefix is chosen if and only if some Valid prefix has a free offset |
| `PrefixTable.ChoiceIs` | pkg/eni/eni_local_ipam.go:209-226 | the best prefix is unique |
| `PrefixRuns.AgreementOverRuns` | pkg/eni/eni_local_ipam.go:209-433 | over any run of allocations, releases, updates and conflict-free restores: set bits are the range of the injective offset map, pod-to-prefix maps a pod to a prefix exactly if that holds it, distinct pods have distinct addresses, the remaining count does not underflow |
| `PrefixRuns.ReleaseUndoesAllocate` | pkg/eni/eni_local_ipam.go:299-318 | releasing a pod that was just served restores the table exactly |
| `PrefixRestart.RestartRebuilds` | pkg/eni/local_delegate.go:298-327 | rebuilding one table from the CR and restoring its stored pairs in any order gives, in every prefix listed Valid or Frozen, the same bitmap, offsets and pods |
| `PrefixRestart.RestartRoundTrip` | pkg/eni/local_delegate.go:298-327 | the pods of one table come back to their prefixes if and only if every prefix that holds a pod is listed Valid or Frozen |
| `PrefixRestart.ForgottenAddressIsReused` | pkg/eni/eni_local_ipam.go:77-89 | a pod whose prefix is listed Deleting at the restart is forgotten, and its address goes to the next pod once the prefix is Valid again |
| `DelegateRestart.PodRestoredIff` | pkg/eni/local_delegate.go:284-337 | over all ENIs and both families: a pod has its address again, on the same ENI, prefix and offset, if and only if the CR has the ENI in use and lists the prefix Valid or Frozen |
| `Delegate.LocalDelegate.DoInit` | pkg/eni/local_delegate.go:298-327 | both loops build the allocators of the ENIs in use and restore every stored resource on its ENI; records that do not clash, in particular all or some of those of an earlier state, leave the agreement that allocations, releases and syncs start from |
| `DelegateRestart.ClashlessRestoresOk` | pkg/eni/local_delegate.go:310-327 | records of which none, when its turn comes, finds its address with another pod or its pod at another address leave all tables in agreement |
| `DelegateRestart.StoredRestoresOk` | pkg/eni/local_delegate.go:298-327 | so do the records of pods of any earlier state, whatever the CR lists by now |
| `IpamLoops.NextClear` | pkg/eni/eni_local_ipam.go:244-246 | the lowest clear bit |
| `IpamLoops.SortedValidPrefixes` | pkg/eni/eni_local_ipam.go:209-226 | exactly the Valid prefixes, in strictly increasing order of remaining addresses and text |
| `IpamLoops.Pick` | pkg/eni/eni_local_ipam.go:243-262 | the Valid prefix with the fewest but not zero free addresses and its lowest clear offset; none exactly if all are full |
| `IpamLoops.AllocateIn` | pkg/eni/eni_local_ipam.go:228-296 | a pod gets its address again with nothing changed, or the best prefix's lowest offset, or nothing exactly if every Valid prefix is full |
| `IpamLoops.FindPrefixContainingIp` | pkg/eni/eni_local_ipam.go:482-504 | the one prefix and offset at which an address is found |
| `IpamLoops.UpdateIn` | pkg/eni/eni_local_ipam.go:386-433 | both loops together make of each prefix what its listing, status and pods decide |
| `IpamLoops.BuildTable` | pkg/eni/eni_local_ipam.go:77-102 | an empty bitmap for each Valid or Frozen prefix |
| `Ipam.ENILocalIPAM.constructor` | pkg/eni/eni_local_ipam.go:50-105 | fresh tables of the usable prefixes, in agreement |
| `Ipam.ENILocalIPAM.AllocateIPv4` | pkg/eni/eni_local_ipam.go:228-261 | as AllocateIn, keeping agreement |
| `Ipam.ENILocalIPAM.AllocateIPv6` | pkg/eni/eni_local_ipam.go:263-296 | as AllocateIn, keeping agreement |
| `Ipam.ENILocalIPAM.ReleaseIPv4` | pkg/eni/eni_local_ipam.go:299-318 | the pod's bit, offset and prefix go, nothing else |
| `Ipam.ENILocalIPAM.ReleaseIPv6` | pkg/eni/eni_local_ipam.go:321-340 | the pod's bit, offset and prefix go, nothing else |
| `Ipam.ENILocalIPAM.RestorePod` | pkg/eni/eni_local_ipam.go:343-380 | records the pod at the offset of its address if the ENI is this one; keeps agreement if the record clashes with none |
| `Ipam.ENILocalIPAM.UpdatePrefixes` | pkg/eni/eni_local_ipam.go:386-433 | updates one family and keeps agreement |
| `Delegate.LocalDelegate.TryAllocateLocal` | pkg/eni/local_delegate.go:187-265 | for a pod that holds nothing, with no other call between: one ENI that serves it gives one address of each enabled family and no other ENI changes, or nothing changes and no schedulable ENI has a free Valid offset in each family; for any pod, what a prefix of the visiting order's turns does; for every visiting order |
| `Delegate.LocalDelegate.TryDual` | pkg/eni/local_delegate.go:194-214 | one turn gives a pod that holds nothing both families or leaves the ENI exactly as it was; for any pod it succeeds exactly if the ENI is schedulable and has an address of each family for it, and gives up IPv4 exactly if only IPv6 is missing |
| `DelegateCalls.CallsAreAtomic` | pkg/eni/local_delegate.go:187-214 | however dual-stack calls for different pods interleave with each other and with releases, a call that has won holds one address of each family on one ENI and nothing elsewhere, and one that has lost holds nothing |
| `DelegateCalls.StepLeavesOthers` | pkg/eni/local_delegate.go:187-214 | a step of one call changes no other pod's addresses |
| `DelegateCalls.LostCallMeansFull` | pkg/eni/local_delegate.go:194-214 | however calls interleave, when a call has lost, an ENI that it went through is unschedulable or has a full family, unless an address of that ENI has been returned in the meantime; IPv4 addresses that other calls gave back there do not matter |
| `Delegate.LocalDelegate.ReleaseLocal` | pkg/eni/local_delegate.go:154-183 | the ENI of the resource gives back the families of the resource; handled exactly if the ENI is known |
| `Delegate.LocalDelegate.SyncNodeCr` | pkg/eni/local_delegate.go:375-419 | both loops make of each ENI what the CR says, for every visiting order |
| `DelegateSpec.StepKeepsIff` | pkg/eni/local_delegate.go:194-214 | a sync, an allocation turn or a release leaves a pod its prefix and offset if and only if it is neither the pod's own release of that family nor its own dual-stack turn on a schedulable ENI without an IPv6 address for it |
| `DelegateSpec.LivePodKeepsAddress` | pkg/eni/local_delegate.go:375-419 | no run of syncs, allocation turns and releases without such a step drops or changes a live pod's prefix and offset |
| `DelegateSpec.DualPodKeepsBoth` | pkg/eni/local_delegate.go:154-265 | a pod with an address of each family on an ENI loses neither over any run without its own release there |
| `DelegateSpec.OnlyListedServes` | pkg/eni/eni_local_ipam.go:412-431 | after a sync, an ENI in use in the CR or gone from it serves new pods only from prefixes listed Valid |
| `DelegateSpec.DrainingTakesNoPod` | pkg/eni/eni_local_ipam.go:386-433 | over any run in which the CR leaves a draining prefix out, no pod gets into it |
| `DelegateSpec.DrainedPrefixGoes` | pkg/eni/eni_local_ipam.go:401-409 | after such a run, the first sync that finds none of the pods it had left removes it |
| `DelegateSpec.RemovedHadNoPods` | pkg/eni/local_delegate.go:410-418 | an allocator that a sync removes held no pod |
| `Notify.Notifier.Subscribe` | pkg/eni/notify.go:24-38 | a fresh empty open channel joins, or a closed one comes from a closed notifier |
| `Notify.Notifier.Notify` | pkg/eni/notify.go:41-63 | every subscriber has a token; no channel is sent on after its close |
| `Notify.Notifier.Unsubscribe` | pkg/eni/notify.go:66-83 | exactly that subscriber is removed and closed once |
| `Notify.Notifier.Close` | pkg/eni/notify.go:86-101 | every subscriber is closed once and none is left |
| `Waiter.NoLostWakeup` | pkg/eni/crdv2.go:254-296 | in every reachable state, a blocked waiter that the current Node object would satisfy in every order of its interfaces is still to be sent to, or a change that notifies is still to be handled |
| `Waiter.QuietMeansServed` | pkg/eni/crdv2.go:171-182 | once all changes are announced, no waiter is blocked on an object that serves it in every order |
| `Waiter.NoNicsNoAddress` | pkg/eni/crdv2.go:175-181 | a Node object without interfaces satisfies nobody, so skipping its announcement loses nothing |
| `Waiter.OrderMattersIff` | pkg/eni/crdv2.go:316-377 | some order of the interfaces serves a pod and another does not if and only if interfaces with its addresses differ in whether their CIDRs parse |
| `Waiter.UnluckyOrderBlocksIff` | pkg/eni/crdv2.go:254-296 | a waiter can stay blocked, with everything announced, on an object that some order would serve it from, if and only if the order matters for that object |
| `Waiter.TwoInterfacesDiffer` | pkg/eni/crdv2.go:316-377 | an object for which it does |
| `Waiter.OneInterfaceIsEnough` | pkg/eni/crdv2.go:316-377 | for a pod with its addresses on one interface, an object that serves it in some order serves it in every order |
| `NodeRuntime.RuntimeFinalStatus` | pkg/utils/k8s.go:80-99 | the loop returns the first status in its order that no other exceeds in time, and none exactly if no status has a time |
| `NodeRuntime.FinalIsLatest` | pkg/utils/k8s.go:80-99 | in every order the result has a latest time, and there is none exactly if no status has a time |
| `NodeRuntime.OrderDecidesIff` | pkg/utils/k8s.go:80-99 | one order of the map gives Deleted and another does not if and only if Deleted is a latest status and another status has the same time |
| `NodeRuntime.TieFollowsOrder` | pkg/utils/k8s.go:80-99 | a record with two equal times, deleted in one order and not in the other |
| `NodeRuntime.SurelyDeletedIff` | pkg/utils/k8s.go:80-99 | every order gives Deleted if and only if it alone is latest |
| `NodeRuntime.ReleaseIsNotLost` | pkg/eni/crdv2.go:517-564 | a released UID leaves the log only by a save of a copy that marks it Deleted or by its re-allocation |
| `NodeRuntime.ReleaseIsReported` | pkg/eni/crdv2.go:237-248 | the first copy saved after a release marks the pod Deleted, unless its UID is allocated again before |
| `NodeRuntime.ReallocationWithdraws` | pkg/eni/crdv2.go:398-401 | after a UID is allocated again no saved copy marks it before its next release |
| `NodeRuntime.Crdv2.SyncNodeRuntime` | pkg/eni/crdv2.go:517-564 | saves a copy with a Deleted status for every logged UID and then clears the log; keeps the log in every other case |
| `NodeRuntime.RemoveDeleted` | pkg/eni/crdv2.go:610-625 | drops only records that are not in use and whose latest status is Deleted, and all for which no other status is as late |
| `NodeRuntime.SyncBack` | pkg/eni/crdv2.go:627-641 | UIDs in use without a record get theirs, other records are as before |
| `NodeRuntime.SyncDeletedPods` | pkg/eni/crdv2.go:584-608 | every UID in use ends with a record; a record is dropped only if its UID is not in use and its latest status is Deleted; the others are unchanged |
| `RuntimeJobs.PatchedMarkIff` | pkg/eni/crdv2.go:566-582 | after a save, a pod has a Deleted mark if and only if the copy has it, where copy and re-read object differ on it, and the stored object had it, where they do not |
| `RuntimeJobs.MarkStaysIff` | pkg/eni/crdv2.go:517-608 | a Deleted mark in the object stays through every later run of both jobs and any lag of the cache, while the IPAM uses the pod, if and only if the cache and every version on its way to it have the mark and no job under way has a copy or a patch that would take it out |
| `RuntimeJobs.RunStaysCoherent` | pkg/eni/crdv2.go:517-608 | over every run, as the row above asks for, the last version on its way to the cache is the object |
| `RuntimeJobs.SettledMarkStays` | pkg/eni/crdv2.go:517-608 | once the cache, the versions and the jobs are settled on a mark they stay so |
| `RuntimeJobs.ClearedLogIsSavedIff` | pkg/eni/crdv2.go:517-564 | in every state of every run (`RunReportsLog`), when a report clears the log, a pod of the log has its mark in the object if and only if the object existed and, where the re-read one had this very mark already, has not lost it since |
| `RuntimeJobs.LaggingReadTakesMark` | pkg/eni/crdv2.go:584-608 | a run in which syncDeletedPods starts after the report has saved, and a release ends up neither in the log nor in the object |
| `RuntimeJobs.FirstReportIsLost` | pkg/eni/crdv2.go:683-708 | a run in which the report creates the object and a release ends up in neither |

## Left out

- Cloud API clients, rate limits and back-off: network calls; they appear as the factory's contract.
- The netlink, veth, ipvlan and qdisc datapath, the CNI plugin, RPC handlers, reconcilers, metrics, tracing and parsing of addresses, CIDRs and stored records.
- The allocating half of `syncPool` and the order of ENIs by priority: the reclaim theorem holds for every order.
- Trunk and remote ENIs, the RDMA flag and the copying of ENI attributes into answers: they decide nothing about addresses.
- Reporting of orphan addresses by `sync`: it changes no state.
- Identity of the IP entry that a commit goroutine points to: entries are values in a map, see above.
- The roll-back in `AllocateIPv4` and `AllocateIPv6` when the address of a free offset cannot be computed: a prefix with a free offset has parsed, so the branch cannot be reached.
- `LocalDelegate.Allocate`'s waiting for a Node CR change, which subscribes after its first try: no claim about its wake-ups.
- Prefixes of ENIs that the CR lists but not as InUse: sync leaves them as they are, so nothing is claimed about what they serve.
- Delegate.LocalDelegate.TryAllocateLocal: for a pod that already holds an address the turns it takes are stated but not which resource it returns, because another ENI may then serve it; single-family calls are not modelled interleaved.
- LocalRuns.ReleaseHarmsIff: does not cover a release of the primary address, which is never disposed of on its own; whether a second pod can get it depends on what the other family has free.
- U32.GcTcFilters: live addresses are in the form in which Go prints them, so that equal addresses have equal strings.
