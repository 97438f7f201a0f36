# SafeKV: a verified model

This project models the multi-tenant KV-cache policy SafeKV, the experiments that evaluate it and
the serving benchmarks beside them, and proves what they promise. `dafny verify dfyconfig.toml`
checks it.

| part | modules |
|---|---|
| durable budget ledger: a shared file, many objects, crashes | `Ledger`, `CachePolicy`, `BudgetProtocol`, `StressCell` |
| radix tree, lookup with reservation, tenants | `RadixTree`, `RadixLookup`, `LeafEviction`, `TreeShape`, `TenantCache`, `NonInterference`, `Exposure`, `PromotionWalk` |
| eviction sweeps over prefixes of any length | `SegmentWalk`, `EvictionSweep`, `SweepPromotion` |
| probes of an unflushed cache | `ResidualCache`, `SharedTrees`, `Leftovers`, `ChallengeSlots`, `ChallengeRuns`, `PrivateServers`, `FalseMatches` |
| public-object authorization and revocation | `Encoding`, `Registry`, `AuthMatrix` |
| multi-turn workload schedulers | `MultiTurn`, `Transcripts`, `ConversationQueue`, `ServingBenchmark` |
| detector evaluation and statistics | `Excision`, `Cascade`, `RankStats`, `WilsonInterval` |
| shared helpers | `Options`, `Numbers`, `Reals` |

Protocols are state machines: `Apply` gives the effect of one atomic action, `Legal` and `Exec`
lift it to runs, an invariant is kept by every action, and the main results speak of every run.
Where the code updates objects in place there is a class beside the machine (`DurableLedger`,
`PublicRegistry`, `WorkloadGenerator`, `RequestInput`, the heap `TreeNode` of the promotion walk) whose
methods are proved to perform exactly the machine's action.

## Assumptions

- SHA-256 and HMAC (section 2 of RFC 2104) are ideal: `Sha256` and `Hmac` are injective constructors. A
  ledger fingerprint is the node's own token segment, which the code hashes.
- The thread lock and the file lock make each ledger and registry operation atomic. Success of a
  write is a parameter (`saves`), so every pattern of failing writes is covered.
- Texts and token lists are shorter than 2^32, an expiry is the bit pattern of a non-negative double.
- Requests of the multi-turn generator succeed. In the serving benchmark they may fail, or outlast the
  get loop's timeout.
- A request looks its tokens up and then caches them for its user. The robustness experiment starts on an
  empty server, and its requests are served one at a time.
- Statistics use exact reals; a square root is any non-negative root of the radicand.

## Properties that do not hold as stated, and when they do

- *A revoked object stays revoked.* Issuing the same id again, or a reset, lifts the revocation and
  revives old manifests (`ReissueRevivesOldManifest`); it holds iff neither happens
  (`RevocationPersistsIff`).
- *A stress cell passes.* It reports the charges the ledger carried before as duplicated; the verdict
  is pass iff there were none (`RunCell`).
- *The promotion walk follows each node's charge.* If the file turns unreadable under it, the first
  promotable node is decided from memory and all later ones are retired (`WalkFailsClosed`).
- *The promotion walk returns the number of nodes it shared.* It counts the nodes it retires as well; both numbers
  agree iff the condition of `CountIsSharedIff` holds.
- *Excision leaves exactly the text outside all spans.* Overlapping spans take more
  (`OverlapTakesTooMuch`); it is exact iff everything after a doubly covered position is covered
  (`ExcisionIsExactIff`). No covered character ever survives (`ExcisionIsSafe`).
- *The get loop of the serving benchmark sends every turn.* A failed turn drops its conversation, and an
  answer slower than five minutes at an empty queue ends the loop (`SlowAnswerLosesTurns`). Every turn is
  sent iff neither costs one (`EveryTurnSentIff`); the shortfall is exact (`ShortfallIsExact`).
- *A shared prefix is exposed at most B times.* The budget belongs to the key of a node. A lookup that ends
  inside a node splits it, and both halves start with fresh budgets (`SplitRenewsBudget`). It holds per
  segment (`ExposureIsBudgeted`); for the paths of one shared prefix it holds in all runs of probes iff
  B = 1 or the prefix has one token (`PathBudgetIff`).
- *The durable ledger yields exactly B hits.* Equal segments of a long prefix share one budget
  (`RepeatedTokenYieldsHalf`); it is exact iff the first segment does not recur where the first probe
  reaches it (`DurableIsExactIff`).
- *The budget survives everything but a reset.* A deleted ledger file reads as empty
  and its budget is served again; over a run the bound is B times the number of resets and losses plus
  one (`SafetyAcrossRestarts`), and it is reached for every B and every number (`BoundIsReached`).
- *Strict tenants do not influence each other.* True of all operations (`StrictNonInterference`); but which
  leaves are evicted depends on everybody, and a lost leaf shows (`EvictionShows`).
- *An unflushed cache is harmless because slots are distinct.* Distinct slots may hold equal texts, since the
  loader does not remove duplicates. A trial whose victim sends its control shows a full match in some run
  iff a request made before its probe begins with the target (`FalseMatchIff`; `Misleading` gives the
  events of that run). A leftover can also hide a true match, of the prober (`SkippedFlushHidesHit`) or of
  a third tenant (`ThirdTenantHides`); which leftovers never matter is exact (`LeftoverMattersIff`,
  and `FailedWriteMattersIff` when writes may fail).
- *The cascade is no worse than its first tier.* True of recall, and its false-positive rate never falls
  (`CascadeDominates`); precision can drop (`PrecisionCanDrop`), exactly when `PrecisionHoldsIff` says.

## Model

| member | source | states |
|---|---|---|
| `Ledger.ReserveEffect` | python/sglang/srt/mem_cache/safekv_policy.py:338-375 | a reservation is granted iff the ledger is operational, the file readable, the durable charge below the budget and the write succeeds; it then adds one unit to that fingerprint and to no other, and a refusal leaves the file alone |
| `Ledger.FlushOfBehind` | python/sglang/srt/mem_cache/safekv_policy.py:400-413 | flushing an object whose memory is behind the file changes no durable charge |
| `Ledger.MergeInto` | python/sglang/srt/mem_cache/safekv_policy.py:405-411 | the merge loop of flush computes the pointwise maximum of both entry maps |
| `Ledger.DurableLedger.constructor` | python/sglang/srt/mem_cache/safekv_policy.py:241-268 | a new ledger object holds the entries of the file; an unreadable file leaves it not ready |
| `Ledger.DurableLedger.Reload` | python/sglang/srt/mem_cache/safekv_policy.py:303-324 | a failed re-read keeps the old entries and clears the ready flag |
| `Ledger.DurableLedger.ReserveHit` | python/sglang/srt/mem_cache/safekv_policy.py:338-375 | the step-by-step method, including the rollback after a failed write, has exactly the atomic effect of `Reserve` on object and file |
| `Ledger.DurableLedger.ChargedHits` | python/sglang/srt/mem_cache/safekv_policy.py:377-383 | an operational ledger is refreshed from the file before it answers |
| `Ledger.DurableLedger.Flush` | python/sglang/srt/mem_cache/safekv_policy.py:400-413 | the method has exactly the effect of `Flushed` on object and file |
| `Ledger.DurableLedger.Reset` | python/sglang/srt/mem_cache/safekv_policy.py:415-422 | all charges are forgotten and the object is ready again |
| `BudgetProtocol.StepKeeps` | user_scripts/exp2_cumulative_ledger.py:348-391 | every action of every replica (start, insert, promote, reserve, respond, split, evict, crash, outage, flush, reset, corruption or loss of the file) keeps the system invariant |
| `BudgetProtocol.RunKeeps` | user_scripts/exp2_cumulative_ledger.py:348-391 | the invariant holds after every run of any number of replicas |
| `BudgetProtocol.BudgetSafety` | user_scripts/exp2_cumulative_ledger.py:348-410 | in every run, from any ledger file, the hits served, lost and in flight for a segment in an accounting epoch never exceed the budget |
| `BudgetProtocol.SafetyAcrossRestarts` | python/sglang/srt/mem_cache/safekv_policy.py:303-324 | over all epochs a segment is granted at most the budget times one more than the number of resets and losses of the file |
| `BudgetProtocol.BoundIsReached` | python/sglang/srt/mem_cache/safekv_policy.py:316-320 | a deleted file reads as empty, so that bound is reached for every budget and every number of restarts: each loss of the file lets the whole budget be served again |
| `BudgetProtocol.Conservation` | user_scripts/exp9_stress_matrix.py:126-165 | until a reset or the loss of the file, the file gained exactly the hits served, in flight and lost, whatever it held before |
| `BudgetProtocol.CrashesCostExactly` | user_scripts/exp9_stress_matrix.py:126-165 | once a fresh budget is spent, the hits served are the budget less the hits lost in crashes |
| `BudgetProtocol.CrashLosesItsPending` | user_scripts/exp9_stress_matrix.py:126-138 | a crash loses exactly the unanswered reservations of its replica and gives no charge back |
| `BudgetProtocol.StaleLabelIsHarmless` | python/sglang/srt/mem_cache/radix_cache.py:746-778 | whatever label a replica still carries, a lookup is granted iff the shared file has room; otherwise the node is retired |
| `BudgetProtocol.RetiredStaysRetired` | python/sglang/srt/mem_cache/radix_cache.py:724-778 | a retired node is never shared again while it stays resident |
| `CachePolicy.SharedHit` | python/sglang/srt/mem_cache/radix_cache.py:746-778 | a hit on a shared node is granted iff the ledger can tell and write and the durable charge is below the budget; a refused one, and the last one granted, retire the node |
| `StressCell.RecoverReplicas` | user_scripts/exp9_stress_matrix.py:53-64 | rebuilding replicas succeeds iff the file is readable and gives operational objects on the same file |
| `StressCell.RunConcurrentRound` | user_scripts/exp9_stress_matrix.py:67-95 | for every order of the threads and every pattern of failing writes the file grows by the number of successes; without failing writes the charge is the capped sum |
| `StressCell.ReserveThrough` | user_scripts/exp9_stress_matrix.py:77-88 | one reservation through any replica, in terms of the shared charge |
| `StressCell.InjectRestart` | user_scripts/exp9_stress_matrix.py:126-149 | each crash point: attempts made, hit served or charge wasted, replicas rebuilt |
| `StressCell.RunCycles` | user_scripts/exp9_stress_matrix.py:150-156 | all cycles together: charge equals start plus hits served, capped at the budget |
| `StressCell.RunCell` | user_scripts/exp9_stress_matrix.py:103-184 | for all threads, replicas, cycles, crash points, budgets, thread orders and write failures: charges = start + served + unused, nothing lost, no overshoot of its own, and the verdict is pass iff the ledger started without a charge; with no failing write charges = min(budget, attempts) from a fresh ledger |
| `StressCell.JudgeOf` | user_scripts/exp9_stress_matrix.py:158-184 | the lost, duplicated and overshoot columns and the verdict, for any starting charge |
| `PromotionWalk.VisitIsComplete` | user_scripts/exp2_cumulative_ledger.py:100-121 | the stack order visits a node iff it occurs in the trees it starts from |
| `PromotionWalk.VisitsOnce` | user_scripts/exp2_cumulative_ledger.py:100-121 | trees whose nodes have one parent are walked without visiting a node twice |
| `PromotionWalk.WalkIsPointwise` | user_scripts/exp2_cumulative_ledger.py:100-121 | each promotable node ends exhausted and permanent if the ledger is down or its own charge reaches the budget, shared with that charge otherwise; every other node keeps its label |
| `PromotionWalk.WalkFailsClosed` | python/sglang/srt/mem_cache/radix_cache.py:290-315 | if the file turns unreadable under the walk, all promotable nodes after the first are retired |
| `PromotionWalk.VisitNode` | python/sglang/srt/mem_cache/radix_cache.py:290-314 | one popped node, relabelled in place |
| `PromotionWalk.PromoteWalk` | python/sglang/srt/mem_cache/radix_cache.py:286-315 | over a tree with one parent per node the heap walk terminates and visits each node once; nodes of other namespaces and nodes already shared or retired keep their labels; every private node of the namespace is shared if its own durable charge is below the budget and retired otherwise, or when the ledger is down; the count is the number of those private nodes |
| `PromotionWalk.CountIsSharedIff` | python/sglang/srt/mem_cache/radix_cache.py:286-315 | retired nodes are counted too: the count is the number of nodes that end shared iff the ledger is up, each of them has budget left and, should the file turn unreadable, there is at most one |
| `RadixTree.KeyMatch` | python/sglang/srt/mem_cache/radix_cache.py:56-65 | the loop returns the length of the longest common prefix |
| `RadixTree.SplitMeaning` | python/sglang/srt/mem_cache/radix_cache.py:838-867 | splitting a node changes no cached path and no slot |
| `RadixTree.AlignedKeepsLookup` | python/sglang/srt/mem_cache/radix_cache.py:838-867 | aligning a node with a key keeps the meaning of the tree |
| `RadixTree.ChainMeaning` | python/sglang/srt/mem_cache/radix_cache.py:886-937 | a new key cut into nodes of at most 1024 tokens caches exactly its prefixes |
| `RadixTree.InsertMeaning` | python/sglang/srt/mem_cache/radix_cache.py:869-937 | insertion adds exactly the missing prefixes of the key; every path already cached keeps its slot |
| `RadixTree.InsertOk` | python/sglang/srt/mem_cache/radix_cache.py:869-937 | insertion keeps the tree well formed and owned by its creator |
| `RadixTree.InsertMatched` | python/sglang/srt/mem_cache/radix_cache.py:869-937 | the number insertion returns is the length of the longest prefix cached before |
| `LeafEviction.PruneMeaning` | python/sglang/srt/mem_cache/radix_cache.py:957-962 | deleting a leaf takes exactly the paths that end inside it out of the tree |
| `TreeShape.FindSame` | python/sglang/srt/mem_cache/radix_cache.py:800-867 | an owner's lookup reads and splits its tree the same way whatever the labels and the ledger |
| `TreeShape.InsertSame` | python/sglang/srt/mem_cache/radix_cache.py:869-937 | insertion shapes the tree the same way whatever the labels |
| `RadixLookup.FindKeepsMeaning` | python/sglang/srt/mem_cache/radix_cache.py:800-836 | no lookup, by whomever and however it ends, changes what the tree means |
| `RadixLookup.FindKeepsOwner` | python/sglang/srt/mem_cache/radix_cache.py:800-867 | splits and relabelling keep the creator of every node |
| `RadixLookup.FindReturnsCached` | python/sglang/srt/mem_cache/radix_cache.py:800-836 | what a lookup returns are the cached slots of the first tokens of its key |
| `RadixLookup.OwnerGetsLongest` | python/sglang/srt/mem_cache/radix_cache.py:800-836 | the owner of a tree gets the longest cached prefix |
| `RadixLookup.OwnerIsNotCharged` | python/sglang/srt/mem_cache/radix_cache.py:800-822 | an owner's lookup touches neither ledger nor file |
| `RadixLookup.FindJustified` | python/sglang/srt/mem_cache/radix_cache.py:800-822 | every node exposed in a protected mode was the user's own, or verified public, or shared, not retired and charged; nothing else is charged |
| `RadixLookup.FindAccounts` | python/sglang/srt/mem_cache/radix_cache.py:746-836 | the file gains one unit per shared node exposed, and stays within the budget |
| `SharedTrees.SharedFind` | python/sglang/srt/mem_cache/radix_cache.py:800-836 | while there is budget for one charge per token, another tenant gets from a tree of shared nodes everything that is cached of its key, and the tree stays shared |
| `TenantCache.StepRefines` | python/sglang/srt/mem_cache/radix_cache.py:368-546 | every operation of the cache, leaf eviction included, refines the operation on one prefix map per tenant |
| `TenantCache.EvictRefines` | python/sglang/srt/mem_cache/radix_cache.py:647-669 | evicting a leaf, in whatever order leaves are chosen, removes exactly the paths that end in it from its owner's prefix map |
| `TenantCache.RunRefines` | python/sglang/srt/mem_cache/radix_cache.py:368-546 | the refinement holds over whole runs |
| `TenantCache.StrictIsPrefixMaps` | python/sglang/srt/mem_cache/radix_cache.py:368-546 | in Strict mode every run answers exactly as one private prefix map per tenant would |
| `TenantCache.OwnerViewIsPreserved` | python/sglang/srt/mem_cache/radix_cache.py:368-546 | in both protected modes an owner with anything cached gets exactly the longest prefix it inserted itself and did not lose to eviction, whatever others did |
| `NonInterference.StrictNonInterference` | python/sglang/srt/mem_cache/radix_cache.py:368-546 | in Strict mode a tenant observes what it would observe with all operations of others, and all evictions from their trees, removed; and what remains is a run the cache can make |
| `NonInterference.AgreeingRunsLookAlike` | python/sglang/srt/mem_cache/radix_cache.py:368-546 | two runs that agree on a tenant's operations and on the evictions that hit its tree look the same to it |
| `NonInterference.EvictionShows` | python/sglang/srt/mem_cache/radix_cache.py:647-669 | evictions are the channel that remains: losing a leaf shortens the match |
| `Exposure.ExposureIsBudgeted` | python/sglang/srt/mem_cache/radix_cache.py:368-500 | over every run the file gains, for each segment, one unit per exposure of a shared node with that segment, within its budget |
| `Exposure.EveryExposureIsJustified` | python/sglang/srt/mem_cache/radix_cache.py:368-500 | in any state of a protected cache a lookup exposes nothing but the user's own nodes, verified public ones, and in Balanced mode shared nodes that are not retired, each charged for |
| `Exposure.PathIsBudgetedPerSegment` | python/sglang/srt/mem_cache/radix_cache.py:746-867 | over every run a cached path is exposed at most the budget times the number of segments it was exposed under |
| `Exposure.PathStaysInBudget` | python/sglang/srt/mem_cache/radix_cache.py:800-867 | through any run of probes a path stays within the budget if no probe ends inside a node, or the budget is one |
| `Exposure.SplitRenewsBudget` | python/sglang/srt/mem_cache/radix_cache.py:838-867 | for every shared node of two or more tokens and every budget of two or more, its first token is exposed once more than the budget |
| `Exposure.PathBudgetIff` | python/sglang/srt/mem_cache/radix_cache.py:746-867 | every path of a fresh shared prefix of any length, cached as the chain its insertion builds, stays within the budget in all runs of probes iff the budget is one or the prefix has one token |
| `ResidualCache.UnseenIsUntouched` | python/sglang/srt/mem_cache/radix_cache.py:724-744 | a lookup that may see nothing on its way observes nothing and leaves the whole cache, ledger included, as it is |
| `TenantCache.PutRefines` | python/sglang/srt/mem_cache/radix_cache.py:502-546 | insertion extends the owner's prefix map and returns the length already present |
| `TenantCache.ProbeRefines` | python/sglang/srt/mem_cache/radix_cache.py:368-500 | a lookup answers from the owner's prefix map first |
| `EvictionSweep.InsertAndPromote` | user_scripts/exp2_cumulative_ledger.py:91-121 | after insertion and promotion a prefix of any length is a chain of nodes, each open iff its segment has budget left |
| `EvictionSweep.ProbeBalanced` | user_scripts/exp2_cumulative_ledger.py:125-138 | a probe is one walk over the segments, charging each node until one is closed or spent; it is a hit iff the first was served |
| `EvictionSweep.ProbeStrict` | user_scripts/exp2_cumulative_ledger.py:508-535 | in Strict mode a probe observes and changes nothing |
| `EvictionSweep.FindFollowsWalk` | python/sglang/srt/mem_cache/radix_cache.py:800-836 | the lookup of the whole prefix in its chain is exactly the walk over its segments |
| `EvictionSweep.SimulateCrossTenantHits` | user_scripts/exp2_cumulative_ledger.py:125-138 | n probes yield what n walks yield in Balanced mode, and nothing in Strict mode |
| `EvictionSweep.FlushAndEvict` | user_scripts/exp2_cumulative_ledger.py:141-152 | flush and eviction keep the durable charge |
| `EvictionSweep.RunEvictionSweep` | user_scripts/exp2_cumulative_ledger.py:155-221 | the hits of every cycle, for every budget, prefix of any length and number of cycles, under the strict, durable and residency-scoped policies |
| `EvictionSweep.SweepTotals` | user_scripts/exp7_revised_ablation.py:239-266 | cumulative hits over the cycles: nothing in Strict mode, one yield with the durable ledger, one per cycle when residency-scoped |
| `SweepPromotion.PromoteTree` | user_scripts/exp2_cumulative_ledger.py:100-121 | the walk over the heap leaves in the nodes of a tree exactly the promoted tree of which the sweep speaks |
| `EvictionSweep.DurableIsExactIff` | user_scripts/exp2_cumulative_ledger.py:168-211 | the durable total is at most B, and exactly B iff the first segment does not recur where the first probe reaches it |
| `EvictionSweep.ShortPrefixIsExact` | user_scripts/exp2_cumulative_ledger.py:562-562 | exactly B for every prefix of one segment, such as the 64 tokens of the experiment |
| `EvictionSweep.RepeatedTokenYieldsHalf` | python/sglang/srt/mem_cache/radix_cache.py:869-937 | one token repeated 2048 times yields five hits of a budget of ten |
| `SegmentWalk.YieldIsBudgetIff` | python/sglang/srt/mem_cache/radix_cache.py:746-836 | a fresh budget yields exactly B hits iff the first segment does not recur at a place that no over-used segment cuts off |
| `SegmentWalk.YieldIsWithinBudget` | python/sglang/srt/mem_cache/radix_cache.py:746-836 | it yields at least one and at most B, and is spent afterwards |
| `SegmentWalk.EqualSegmentsHalve` | python/sglang/srt/mem_cache/radix_cache.py:746-836 | two equal segments yield half the budget, rounded up |
| `Encoding.BigEndianRoundTrip` | python/sglang/srt/mem_cache/safekv_policy.py:469-522 | fixed-width big-endian integers decode to what was encoded |
| `Encoding.PrefixedThenRest` | python/sglang/srt/mem_cache/safekv_policy.py:469-471 | length-prefixed fields can be told apart from what follows them |
| `Encoding.PrefixPayloadInjective` | python/sglang/srt/mem_cache/safekv_policy.py:473-501 | equal prefix payloads have equal model, tokenizer and tokens |
| `Encoding.AuthorizationPayloadInjective` | python/sglang/srt/mem_cache/safekv_policy.py:503-522 | equal authorization payloads make equal claims |
| `Registry.AcceptedIffAuthorized` | python/sglang/srt/mem_cache/safekv_policy.py:591-645 | verification accepts exactly what the operator signed over claims about the very prefix presented, current, unrevoked and installed; no second reading of the authorization is possible |
| `Registry.MacBindsClaims` | python/sglang/srt/mem_cache/safekv_policy.py:503-535 | one MAC authorizes one set of claims and one prefix |
| `Registry.OnePrefixPerAuthorization` | python/sglang/srt/mem_cache/safekv_policy.py:591-645 | an authorization is valid for a single prefix |
| `Registry.InstalledWereSigned` | python/sglang/srt/mem_cache/safekv_policy.py:537-704 | over every run only operator-signed objects of the current epoch are installed |
| `Registry.RevocationPersistsIff` | python/sglang/srt/mem_cache/safekv_policy.py:537-730 | a revoked object stays revoked through a run iff the run neither issues it anew nor resets the registry |
| `Registry.RevokedIsDenied` | python/sglang/srt/mem_cache/safekv_policy.py:591-714 | while revoked, every verification and every reinstallation is denied |
| `Registry.NoLaterAccess` | user_scripts/exp8_auth_matrix.py:238-258 | after a revocation all later verifications and installations are denied, under that exact condition |
| `Registry.ReissueRevivesOldManifest` | python/sglang/srt/mem_cache/safekv_policy.py:537-589 | issuing a revoked object anew makes its old manifest installable and valid again |
| `Registry.SignedRevocationRevokes` | python/sglang/srt/mem_cache/safekv_policy.py:667-704 | installing a signed revocation removes the object and keeps it out |
| `Registry.PublicRegistry.Issue` | python/sglang/srt/mem_cache/safekv_policy.py:537-589 | claims issued as revoked revoke their id and leave the installed objects alone; any others install the returned authorization and lift a revocation; it fails exactly where it must, changing nothing |
| `Registry.IssueInstalls` | python/sglang/srt/mem_cache/safekv_policy.py:583-589 | issued without revocation, the returned authorization is the one installed, and verifies on its own prefix |
| `Registry.IssuedRevocationRevokes` | python/sglang/srt/mem_cache/safekv_policy.py:583-588 | issued with revocation, the id is revoked; every verification and installation is denied through any run without an unrevoked issue of it and without a reset |
| `Registry.PublicRegistry.Install` | python/sglang/srt/mem_cache/safekv_policy.py:667-704 | the method has exactly the effect of the machine's install step |
| `Registry.PublicRegistry.Verify` | python/sglang/srt/mem_cache/safekv_policy.py:647-665 | accepted iff some claims the operator signed deserve it |
| `Registry.PublicRegistry.Revoke` | python/sglang/srt/mem_cache/safekv_policy.py:706-712 | the id is revoked; the result says whether the object was installed |
| `Registry.PublicRegistry.Reset` | python/sglang/srt/mem_cache/safekv_policy.py:719-731 | nothing is installed or revoked afterwards, and the epoch is the given one or the old one |
| `Registry.PublicRegistry.VerifyLocked` | python/sglang/srt/mem_cache/safekv_policy.py:591-645 | the tests one after the other give the verdict of the first that fails |
| `Registry.ReasonsAre` | python/sglang/srt/mem_cache/safekv_policy.py:615-645 | each of the ten reasons, by its own condition on registry, authorization and prefix |
| `Registry.RevocationLinearization` | user_scripts/exp8_auth_matrix.py:272-329 | for every outcome of the races the two race counters sum to n, the allowed ones are those that came first, and post-revoke denials equal n |
| `AuthMatrix.CheckOfSigned` | python/sglang/srt/mem_cache/safekv_policy.py:591-645 | the verdict on any signed authorization in terms of its claims alone |
| `AuthMatrix.MatrixHolds` | user_scripts/exp8_auth_matrix.py:142-219 | each of the thirteen conditions gets its own reason, and a public object exists afterwards exactly for the two valid ones |
| `AuthMatrix.ActiveRevocation` | user_scripts/exp8_auth_matrix.py:420-435 | install, signed revocation, replay of the old manifest: denied as revoked, nothing installed |
| `MultiTurn.StepKeeps` | benchmark/hicache/bench_multiturn.py:259-331 | every move of sender, server and handler keeps the invariant |
| `MultiTurn.EveryInterleaving` | benchmark/hicache/bench_multiturn.py:234-331 | each client is in exactly one place, at most max_parallel requests are unanswered, unused inputs equal the rounds still to be queued, and taking one never underflows |
| `MultiTurn.NoUnderflow` | benchmark/hicache/bench_multiturn.py:318-324 | a client in the handler's hand has an input left |
| `MultiTurn.FullBarMeansDrained` | benchmark/hicache/bench_multiturn.py:289-300 | the progress bar is full iff nothing is ready, in flight, in hand or left to queue |
| `MultiTurn.SenderExitAbandonsNothing` | benchmark/hicache/bench_multiturn.py:269-300 | when the sender leaves its loop every request has been sent and answered |
| `MultiTurn.PayloadsExtend` | benchmark/hicache/bench_multiturn.py:310-328 | every payload is the previous payload, its response and one fresh input |
| `MultiTurn.EarlierPayloadIsPrefix` | benchmark/hicache/bench_multiturn.py:310-328 | as text, each payload is a prefix of the next |
| `Transcripts.PayloadsAreDialogues` | benchmark/hicache/bench_multiturn.py:259-328 | in every run the payload of turn k of a client is its first input followed by k times the text the server answered and the fresh input handed out; the replies logged are the server's texts in order, all but the one still in the response queue |
| `Transcripts.PoolIsReadBackwards` | benchmark/hicache/bench_multiturn.py:318-322 | the fresh inputs of a run are the pool read backwards, each taken once |
| `MultiTurn.WorkIsConserved` | benchmark/hicache/bench_multiturn.py:259-331 | each move uses up one unit of work and nothing gives any back |
| `MultiTurn.MovesAreBounded` | benchmark/hicache/bench_multiturn.py:259-331 | a run makes at most 4*clients*rounds - clients moves, and that many iff it completes every round |
| `MultiTurn.NoDeadlock` | benchmark/hicache/bench_multiturn.py:269-331 | while rounds are left some move is possible |
| `MultiTurn.GuardsSuffice` | benchmark/hicache/bench_multiturn.py:259-331 | in every state of the invariant the tests in the code make every index and pop safe |
| `MultiTurn.ReadyQueue.PopNext` | benchmark/hicache/bench_multiturn.py:206-217 | pops the chosen or the first request, or nothing from an empty queue |
| `MultiTurn.WorkloadGenerator.constructor` | benchmark/hicache/bench_multiturn.py:221-257 | the generator starts in the initial state of the machine |
| `MultiTurn.WorkloadGenerator.SendNext` | benchmark/hicache/bench_multiturn.py:271-288 | the pop and launch of one request is the machine's move |
| `MultiTurn.WorkloadGenerator.OnAnswer` | benchmark/hicache/bench_multiturn.py:259-267 | the request leaves the requests in flight and its client with the server's text joins the response queue |
| `MultiTurn.WorkloadGenerator.TakeResponse` | benchmark/hicache/bench_multiturn.py:302-318 | taking one response is the machine's move |
| `MultiTurn.WorkloadGenerator.QueueNextRound` | benchmark/hicache/bench_multiturn.py:318-328 | queueing the next round is the machine's move |
| `ConversationQueue.PayloadAlternates` | benchmark/hicache/bench_serving.py:97-114 | the payload of turn k has 2k + 1 messages, alternating users and assistants, with the right contents |
| `ConversationQueue.PayloadExtends` | benchmark/hicache/bench_serving.py:97-188 | each payload is the one before, its answer and the next prompt |
| `ConversationQueue.RewrittenLength` | benchmark/hicache/bench_serving.py:100-104 | despite the in-place rewriting, the tuples of earlier turns add up to all inputs and actual outputs |
| `ConversationQueue.EveryInterleaving` | benchmark/hicache/bench_serving.py:261-275 | every interleaving of gets, timeouts, posts, answers and failures keeps the invariant |
| `ConversationQueue.ConversationsAreConserved` | benchmark/hicache/bench_serving.py:170-188 | queued, in-flight and closed conversations always add up; the bounded queue never makes a put wait; open posts respect the semaphore |
| `ConversationQueue.PostsAreTurns` | benchmark/hicache/bench_serving.py:97-114 | the posts of a conversation are its turns, once each, in order, with the true prompt length and the scripted limit |
| `ConversationQueue.PostsQuoteTheServer` | benchmark/hicache/bench_serving.py:97-188 | every payload posted quotes the server's own answers to the earlier turns of its conversation |
| `ConversationQueue.GetsSuffice` | benchmark/hicache/bench_serving.py:261-275 | the get loop ends with a conversation left in the queue only by giving up |
| `ConversationQueue.AllTurnsTaken` | benchmark/hicache/bench_serving.py:412-491 | after num_actual_requests gets every turn has been taken and the queue is empty |
| `ConversationQueue.ShortfallIsExact` | benchmark/hicache/bench_serving.py:170-193 | the turns never sent are exactly those failed conversations still had and those queued again after the loop gave up |
| `ConversationQueue.EveryTurnSentIff` | benchmark/hicache/bench_serving.py:261-275 | every turn is sent iff no failure cost a conversation its remaining turns and the get loop never gave up |
| `ConversationQueue.AllTurnsPosted` | benchmark/hicache/bench_serving.py:412-491 | then the posts of every conversation are all of its turns |
| `ConversationQueue.SlowAnswerLosesTurns` | benchmark/hicache/bench_serving.py:266-272 | one answer slower than the timeout: nothing fails, and the second turn is never sent |
| `ConversationQueue.SomeStepIsEnabled` | benchmark/hicache/bench_serving.py:391-410 | the run cannot get stuck while a task is in flight or a get is awaited |
| `ConversationQueue.RunsAreBounded` | benchmark/hicache/bench_serving.py:261-275 | every run ends within three events per turn and one timeout |
| `ConversationQueue.FlattenKeepsTurns` | benchmark/hicache/bench_serving.py:412-418 | flattening shared prefixes keeps the number of turns and leaves no empty conversation |
| `ConversationQueue.FlattenAt` | benchmark/hicache/bench_serving.py:412-418 | conversation n of the flattening is exactly prompt n of the concatenated script |
| `ServingBenchmark.RequestInput.Open` | benchmark/hicache/bench_serving.py:97-114 | the user message is appended and the posted payload and prompt length are those of the conversation |
| `ServingBenchmark.RequestInput.Close` | benchmark/hicache/bench_serving.py:170-188 | the tuple, the messages, the turn counter and the queue after a response or an error |
| `ServingBenchmark.BoundedQueue.PutNowait` | benchmark/hicache/bench_serving.py:419-419 | appends unless the queue is full |
| `ServingBenchmark.SetUp` | benchmark/hicache/bench_serving.py:412-468 | no prompt list has changed after the warm-up, which works on a copy; the queue is then filled without overflow to the initial state of the machine, each entry on its own list; it fails iff there is no first prompt or the warm-up fails |
| `Excision.ExcisionIsSafe` | user_scripts/eval_detector_languages.py:87-93 | cutting spans last first never leaves a covered character, whatever the overlaps |
| `Excision.ExcisionIsExactIff` | user_scripts/eval_detector_languages.py:87-93 | for any spans inside the text the result is exactly the characters outside iff everything after a position covered twice is covered |
| `Excision.DisjointIsExact` | user_scripts/eval_detector_languages.py:87-93 | disjoint spans are cut out exactly |
| `Excision.OverlapTakesTooMuch` | user_scripts/eval_detector_languages.py:87-93 | a span marked twice takes the following character along |
| `Excision.DescendingKeeps` | user_scripts/eval_detector_languages.py:87-90 | sorting covers every position as often as before |
| `Excision.CollapseKeepsLetters` | user_scripts/eval_detector_languages.py:94-95 | collapsing keeps all non-space characters in order, leaves single blanks, and is idempotent |
| `Excision.MakeNegative` | user_scripts/eval_detector_languages.py:85-96 | entries without a start are ignored; no character that another entry covers survives; for in-range, disjoint entries the result is the collapse of exactly the uncovered characters |
| `Excision.SpansCover` | user_scripts/eval_detector_languages.py:87-90 | a position is covered as often as there are entries with a start that contain it |
| `Excision.UnmarkedSurvive` | user_scripts/eval_detector_languages.py:87-93 | disjoint entries inside the text leave exactly the characters of no entry |
| `Cascade.RunTier2` | user_scripts/eval_detector_languages.py:175-204 | for every batch size the batched, skipping run equals the pointwise decision of both tiers |
| `Cascade.Confusion` | user_scripts/eval_detector_languages.py:145-163 | each counter is the number of indices of the common part with that prediction and that label, and the three rates are the quotients of these numbers |
| `Cascade.CountsAreSamples` | user_scripts/eval_detector_languages.py:145-163 | the four tallies as numbers of samples |
| `Cascade.CascadeDominates` | user_scripts/eval_detector_languages.py:145-204 | recall and false-positive rate of the cascade are never below those of the first tier |
| `Cascade.PrecisionHoldsIff` | user_scripts/eval_detector_languages.py:145-204 | its precision is no lower iff, among the samples that only the second tier flags, true and false positives stand at least in the first tier's proportion |
| `Cascade.CascadeAdds` | user_scripts/eval_detector_languages.py:175-204 | the cascade flags what the first tier flags and what the second adds, label by label |
| `Cascade.PrecisionCanDrop` | user_scripts/eval_detector_languages.py:145-204 | one wrong addition to a perfect first tier lowers precision from 1 to 1/2 |
| `RankStats.RocAuc` | user_scripts/exp10_attack_robustness.py:185-195 | the number of pairs of a row labelled 1 and a row labelled 0 in which the former has the smaller value, plus half the ties, over the number of all such pairs; it fails iff a class is missing |
| `RankStats.ZippedAt` | user_scripts/exp10_attack_robustness.py:185-189 | row i carries label i and value i |
| `RankStats.AucCountsPairs` | user_scripts/exp10_attack_robustness.py:185-195 | the same for the sum over both classes, in terms of the index pairs |
| `RankStats.AucLowerIsPositive` | user_scripts/analyze_exp7_component_summary.py:29-42 | the same share of pairs, tied pairs counted half; an empty class is a ValueError |
| `RankStats.FourAucsAgree` | user_scripts/exp_table7_repeated_probe.py:192-199 | all lower-is-positive computations agree, lie in [0, 1], and the higher-is-positive one is their complement |
| `RankStats.OtherAucsCountPairs` | user_scripts/exp_table7_repeated_probe.py:192-199 | each in terms of the index pairs: the share of lower pairs, its complement, and a fixed answer for a missing class |
| `RankStats.WinsCounted` | user_scripts/exp3_endtoend_attack.py:408-421 | counting concordant and tied pairs gives the sum the loops accumulate |
| `RankStats.AucIgnoresScale` | user_scripts/exp10_attack_robustness.py:185-195 | strictly increasing transforms of the values change no AUC |
| `RankStats.AucIgnoresOrder` | user_scripts/exp10_attack_robustness.py:185-195 | joint reordering of the rows changes no AUC |
| `RankStats.BinaryAuc` | user_scripts/exp10_attack_robustness.py:198-203 | for 0/1 predictions AUC = (1 + TPR - FPR) / 2, so the advantage is the absolute value of 2 AUC - 1 |
| `RankStats.BalancedAdvantage` | user_scripts/exp4_public_membership.py:282-285 | with balanced classes twice the distance of the accuracy from a half is the distance between TPR and FPR |
| `RankStats.AdvantageCountsSamples` | user_scripts/exp10_attack_robustness.py:198-203 | the advantage is the distance between the shares predicted 1 among the samples of either label |
| `RankStats.AgreeingCountsSamples` | user_scripts/exp4_public_membership.py:282-285 | the right predictions counted are the samples whose prediction is their label |
| `RankStats.SummaryAgrees` | user_scripts/exp3_endtoend_attack.py:513-524 | the advantage computed from the four counts equals the one from the class means when both classes are present |
| `WilsonInterval.WilsonNeedsNoClamp` | user_scripts/exp3_endtoend_attack.py:397-405 | the exact Wilson endpoints lie in [0, 1] and enclose k/n, so the clamps change nothing; an endpoint touches its limit only when k does |
| `WilsonInterval.WilsonIsScoreInterval` | user_scripts/exp3_endtoend_attack.py:397-405 | the endpoints are exactly the proportions of which k/n is z standard errors away |
| `ChallengeSlots.SlotsAreDistinct` | user_scripts/exp10_attack_robustness.py:246-248 | the slot map is injective, in range and disjoint from calibration and background prefixes |
| `ChallengeSlots.RequestsAre` | user_scripts/exp10_attack_robustness.py:245-272 | the prober requests the target, the victim the target or the control as the bit says, cut alike, read off the nested slices of the prefix list; calibration and workers request theirs |
| `ChallengeRuns.ClearIsHonest` | user_scripts/exp10_attack_robustness.py:245-272 | over every run, whichever flushes succeed and whatever happens before the victim's request, between it and the probe, and after the probe: if no request made before the probe begins with the target's tokens, other than the victim's own, a full match means that the victim sent the target, and none occurs in Strict mode |
| `ChallengeRuns.UndisturbedHitsAreBits` | user_scripts/exp10_attack_robustness.py:245-272 | on a sharing server that is flushed and otherwise left alone, with budget for the targets, the probe of a trial is a full match iff its bit is set |
| `ChallengeRuns.Calibrate` | user_scripts/exp10_attack_robustness.py:116-132 | the loop over the calibration prefixes leaves the server that the specification of the run starts from |
| `ChallengeRuns.RunTrial` | user_scripts/exp10_attack_robustness.py:245-277 | an attempted flush, the victim's request and the probe, with traffic at all three points, report and leave what the specification of the trial says |
| `ChallengeRuns.RunMatrix` | user_scripts/exp10_attack_robustness.py:356-400 | the whole run reports for every trial whether its probe is a full match; in clear trials a full match means that the victim sent the target, none occurs in Strict mode, and on a flushed, sharing server the full matches are exactly the bits |
| `FalseMatches.FalseMatchIff` | user_scripts/exp10_attack_robustness.py:61-64 | a trial whose victim sends its control shows a full match in some run of the experiment iff some request made before its probe, cut as the run cuts it, begins with the tokens of the target |
| `PrivateServers.OpenedAnswers` | python/sglang/srt/mem_cache/radix_cache.py:473-494 | on a server that shares nothing, one label change that opens a tenant's tree turns another tenant's miss into a full match |
| `ResidualCache.FullNeedsRequest` | user_scripts/exp10_attack_robustness.py:61-64 | over every run in either protected mode a probe is a full match only if some request began with its tokens, in Strict mode one of its own user |
| `ResidualCache.OwnRequestServesIff` | python/sglang/srt/mem_cache/radix_cache.py:449-466 | after one request of the same user a probe is a full match iff the request began with its tokens |
| `ResidualCache.SharedRequestServesIff` | python/sglang/srt/mem_cache/radix_cache.py:473-494 | after another tenant's shared request with budget left a probe is a full match iff the request began with its tokens |
| `ResidualCache.FlushDoesNotMatter` | user_scripts/exp10_attack_robustness.py:55-65 | if no leftover that the victim or the prober may see begins with the target's first token, the probe gets the same answer with the flush skipped or done, in every protected mode |
| `ResidualCache.SkippedFlushHidesHit` | python/sglang/srt/mem_cache/radix_cache.py:449-466 | otherwise a leftover of the prober that shares that token turns the hit into a miss |
| `Leftovers.ThirdTenantHides` | python/sglang/srt/mem_cache/radix_cache.py:473-494 | an older tenant's shared leftover with the target's first token, but without the target, hides the victim's full match |
| `Leftovers.FailedWriteMattersIff` | python/sglang/srt/mem_cache/radix_cache.py:473-494 | when writes of the ledger may fail, such a leftover never matters iff it does not begin with the target's first token |
| `Leftovers.LeftoverMattersIff` | user_scripts/exp10_attack_robustness.py:55-65 | a leftover of any tenant but the victim makes no difference on any server whose ledger can be written iff it does not begin with the target's first token, or is another tenant's and its first segment begins with the target and goes on behind it |

## Left out

- The radix tree and the tenant cache are values: parent pointers, update in place and aliasing of nodes, lock references and access times are not captured; leaves may be evicted in any order, and the promotion walk alone works on heap nodes.
- Paged keys (page size above 1), the shared tree of mode "none", and the public-authorization paths of lookup and insertion.
- PromotionWalk.PromoteWalk: the loop itself; the early answers of zero in other modes and for a namespace without a tree are not modelled.
- EvictionSweep.RunEvictionSweep: the candidate, public and unprotected steps of the ablation are not modelled.
- EvictionSweep.SweepTotals: gives the totals of the strict, durable and residency-scoped steps only, for the same reason.
- Exposure.PathStaysInBudget: speaks of runs of probes on one tree; insertions and evictions in between can change the segments too, and are covered by the bound per segment only.
- ResidualCache.FlushDoesNotMatter: a sufficient condition for any number of leftovers; the exact one is given for a single leftover (`LeftoverMattersIff`).
- ChallengeRuns.RunMatrix: a hit is a full match of the probe; partial matches, timing and the threshold are not modelled, and a lookup and its insertion are one step.
- MultiTurn.NoDeadlock: says nothing about the response handler's exit after a timed-out get, which can race with the last response.
- Negative counts in a hand-edited ledger file, `add_hits`, and the ValueError for a budget of zero or less (a precondition here).
- Empty conversations of the serving benchmark, which its request function cannot handle; conversations are required to be non-empty except after flattening.
- `load_samples` of the detector evaluation, detectors themselves (a parameter), bootstrap intervals, percentiles, timing, thresholds, HTTP, streaming, tokenizers, plotting and table export.
