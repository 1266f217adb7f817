# Verified models of hydracache

A Dafny model of the hard parts of hydracache, with proofs about them.

- **Cache-policy simulator.** `PolicyReplay` replays LRU, LFU, Hydra and Random with an optional
  time to live; `Belady` is the offline reference. `ReplayReference` reads the replay off the trace
  alone: it keeps only which access took in each resident key, looks ages and counts up in the trace,
  and is proved to be what the program computes. `Optimality` proves that Belady's hits are exactly the
  optimum of all policies that take in every missed key, by a potential over all future deadlines.
  `ReplayReports` holds the two entry points and what their reports say.
  `OnlineBounds` applies that to the online policies, `HydraBeatsBelady` shows exactly when it fails
  for Hydra, `HydraAdmission` bounds Hydra's admission on both sides, and `StackInclusion` proves the
  inclusion property. `KeyOrder` is the order of string keys in which ties are broken.
- **Deterministic sampler.** `Sampler` proves that rejection sampling over SplitMix64 terminates for
  every seed and is exactly balanced; `KeySchedule` generates uniform schedules with it, whose keys
  are the accepted draws of the seed's stream in their order.
- **Canonical bytes.** `CanonicalBytes` gives decoders for the hashed byte strings of traces and key
  schedules, so that equal bytes mean equal inputs.
- **Client runtime.** `ClientRuntime` is a transition system: each critical section or atomic
  operation of a caller, the reader, a closer or a terminator is one step, and all interleavings are
  runs. A step is an effect on what the tasks share plus a move of one task. The reader keeps the
  mutex of the pending sessions while it handles a session acknowledgement, because the scrutinee of
  an `if let` lives to the end of the statement in the 2021 edition; that mutex is part of the state.
  `ClientOwnership` holds the invariant the others build on. `ClientPermits`, `ClientResolution`,
  `ClientCounters`, `ClientAnswers`, `ClientClose`, `ClientSubscriptions`, `ClientOrphans`,
  `ClientHolders`, `ClientLeak`, `ClientFences`, `ClientActivity`, `ClientNotices`, `ClientDeadlock`,
  `ClientHandling`, `ClientProgress` and `ClientService` prove one property each over every run; `ClientScenario` builds concrete runs. `ClientOperations` has the
  operations as methods of an object, as they run undisturbed.
- **Subscription queue.** `SubscriptionStream` is one bounded queue with its gap marker;
  `SubscriptionDelivery` says exactly which items get in.
- **History ring.** `HistoryRing` and `HistoryProperties` specify the console's snapshot history;
  `HistoryReadings` ties every retained point to its snapshot; `SnapshotHistory` is the object with its cached byte counts and its eviction loops.
- **Reference campaign.** `Campaign` is the controller as a step system with a file, a memory copy
  that a crash loses, and a count of dispatches. `CampaignSafety` is about one state, `CampaignDriver`
  about the choice of the next stage, `CampaignRuns` about whole campaigns, `CampaignOutcomes` about
  how a stage turns out, `CampaignCompletion` about when a campaign can be completed, and
  `CampaignController` is the controller as a program that takes those steps.

`Words` and `MapCounts` hold 64-bit arithmetic and counting.

Five expectations turned out not to hold as stated, and each has its exact condition:

- Belady at equal capacity does not bound Hydra: it does if and only if the capacity is zero
  (`HydraBeatsBelady.EqualCapacityIsNotEnough`); Belady with one more slot always does.
- Closing does not always fail every retained owner: the reader can close the runtime while it holds
  the mutex that termination needs. In every run the client is stuck if and only if the handling of
  some acknowledgement of a pending session failed while the client stayed open: the acknowledgement
  had no id or no fence; or it was valid, its caller's receiver was gone, the session was still active,
  and telling the server failed for want of a correlation id or because the queue refused
  (`ClientHandling.StuckExactly`). Both ways are reachable. Being stuck like this is the only way not to
  finish: every other closed client can (`ClientProgress.ClosingCanFinishExactly`).
- With nothing in flight an active entry can lack an owner. If the server acknowledged its id at most
  once, it has a handle if and only if its acknowledgement was not dropped unread
  (`ClientHolders.OwnedExactly`); for subscriptions that condition always holds, and for sessions a run
  shows that it is needed (`ClientHolders.SharedSessionIsReachable`).
- A lost event is not always announced. A drop is announced before the next event if and only if its
  watermark is positive, a marker was pending, a later drop raised the marker in time, or a gap from the
  server entered in time (`SubscriptionStream.AnnouncedExactly`); a run with a zero watermark loses an
  event silently (`SubscriptionStream.SilentLossIsPossible`).
- Not every campaign that has not ended can be completed. From a sound file without a rejection some
  answers of the outside complete it if and only if the second full-dress run is not under way on the
  run of the first (`CampaignCompletion.CompletionExactly`); a file where it is shows that the condition
  is needed (`CampaignCompletion.SharedDressRun`).

One more holds only within a bound that is proved exact: Hydra's frequency guarantee up to the
saturation of its score (`HydraAdmission.SeparationIsExact`).

## Model

| member | source | states |
|---|---|---|
| `KeyOrder.LessIsLexicographic` | crates/hydracache-cache-sim/src/lib.rs:72-94 | keys are ordered bytewise: a proper prefix first, otherwise the smaller byte at the first difference |
| `KeyOrder.SortedKeysSpec` | crates/hydracache-cache-sim/src/lib.rs:72-94 | iterating an ordered key set visits every key once in ascending order |
| `PolicyReplay.FirstMinimumIsLeast` | crates/hydracache-cache-sim/src/lib.rs:202-231 | a scan that keeps the first minimum ends at the least rank, ties broken by key order |
| `PolicyReplay.VictimIsLeast` | crates/hydracache-cache-sim/src/lib.rs:202-231 | the LRU, LFU or Hydra victim comes before every other entry in recency, frequency or score, ties by key |
| `PolicyReplay.StableIndex` | crates/hydracache-cache-sim/src/lib.rs:252-259 | the random choice is an index into the entries |
| `PolicyReplay.HashKey` | crates/hydracache-cache-sim/src/lib.rs:252-259 | the byte loop with its wrapping multiplication computes that index |
| `PolicyReplay.PolicyState.constructor` | crates/hydracache-cache-sim/src/lib.rs:131-150 | a fresh policy is empty |
| `PolicyReplay.PolicyState.ExpireEntries` | crates/hydracache-cache-sim/src/lib.rs:194-200 | in place, exactly the entries taken in longer ago than the time to live go |
| `PolicyReplay.PolicyState.SelectVictim` | crates/hydracache-cache-sim/src/lib.rs:202-231 | the scan in place finds the victim of the specification, an entry that is present |
| `PolicyReplay.PolicyState.AccessEvent` | crates/hydracache-cache-sim/src/lib.rs:152-192 | one access in place: expire, count, hit or miss, admission, eviction, insertion |
| `ReplayReference.ReplayIsReference` | crates/hydracache-cache-sim/src/lib.rs:131-231 | after every prefix of every trace the entries are those of the reference run: each says when the access that took its key in came, when the key was last asked for and how often since then; and the hits are the accesses whose key was taken in earlier, kept since, and within its time to live counted from that access |
| `ReplayReference.ReferenceIsUnique` | crates/hydracache-cache-sim/src/lib.rs:131-231 | a trace has one reference run, with the policy order and the ties of the program |
| `ReplayReports.ReplayPolicy` | crates/hydracache-cache-sim/src/lib.rs:97-108 | the report counts the hits of the reference run and the other accesses as misses, and its hits never exceed the optimum of the capacity, or of one more slot for Hydra |
| `Belady.UseRankIsFirst` | crates/hydracache-cache-sim/src/lib.rs:245-250 | the next use is the first later occurrence, or the end of the trace if there is none |
| `Belady.FurthestIsGreatest` | crates/hydracache-cache-sim/src/lib.rs:71-94 | the evicted key is the one used furthest in the future, the last of them in key order |
| `Belady.Cache` | crates/hydracache-cache-sim/src/lib.rs:71-94 | Belady's cache never exceeds its capacity |
| `Belady.AccessKey` | crates/hydracache-cache-sim/src/lib.rs:71-94 | one access of the offline replay, in place |
| `ReplayReports.BeladyOptimal` | crates/hydracache-cache-sim/src/lib.rs:71-94 | the reported hits are the largest number that any run taking in every missed key makes, some run makes them, and the other accesses are misses |
| `Optimality.BeladyKeepsSoon` | crates/hydracache-cache-sim/src/lib.rs:71-94 | evicting the furthest key costs no key that is due before any deadline the evicted one misses |
| `Optimality.AheadStep` | crates/hydracache-cache-sim/src/lib.rs:71-94 | one access keeps Belady ahead of any other cache for every deadline |
| `Optimality.AheadAlways` | crates/hydracache-cache-sim/src/lib.rs:71-94 | Belady is ahead after every prefix |
| `Optimality.BeladyIsOptimal` | crates/hydracache-cache-sim/src/lib.rs:71-94 | on every trace, capacity and prefix Belady hits at least as often as any policy that may drop entries at will but takes in every missed key |
| `Optimality.BeladyIsTheOptimum` | crates/hydracache-cache-sim/src/lib.rs:71-94 | the largest number of hits over all such policies exists and Belady makes it |
| `OnlineBounds.AccessKeys` | crates/hydracache-cache-sim/src/lib.rs:152-192 | an access keeps only live keys and the accessed one, drops at most the victim, and stays within capacity |
| `OnlineBounds.WithinCapacity` | crates/hydracache-cache-sim/src/lib.rs:152-192 | no policy ever holds more than its capacity |
| `OnlineBounds.NoRoomNoHits` | crates/hydracache-cache-sim/src/lib.rs:152-192 | without capacity there are no hits |
| `OnlineBounds.BeladyBoundsEagerReplay` | crates/hydracache-cache-sim/src/lib.rs:97-108 | Belady bounds every replay that takes in each missed key, whatever its kind |
| `OnlineBounds.BeladyBoundsOnline` | crates/hydracache-cache-sim/src/lib.rs:97-108 | for every trace, capacity and time to live, LRU, LFU and Random hit at most as often as Belady |
| `OnlineBounds.BeladyBoundsHydra` | crates/hydracache-cache-sim/src/lib.rs:97-108 | Hydra hits at most as often as Belady with one more slot |
| `HydraBeatsBelady.HydraHitsAll` | crates/hydracache-cache-sim/src/lib.rs:170-183 | on the loop trace Hydra refuses the one-off key and hits the whole second pass |
| `HydraBeatsBelady.BeladyMissesOne` | crates/hydracache-cache-sim/src/lib.rs:83-91 | on the loop trace Belady, which always inserts, misses in the second pass |
| `HydraBeatsBelady.EqualCapacityIsNotEnough` | crates/hydracache-cache-sim/src/lib.rs:71-108 | Belady bounds Hydra at equal capacity on all traces if and only if the capacity is zero |
| `HydraAdmission.ScoreShape` | crates/hydracache-cache-sim/src/lib.rs:234-239 | the score falls with age, rises with hits, and is at most eight per hit plus 32 |
| `HydraAdmission.SeparationIsExact` | crates/hydracache-cache-sim/src/lib.rs:234-243 | a candidate outranks all entries with fewer than half its observations if and only if its count is below the saturation limit |
| `HydraAdmission.FreshnessIsExact` | crates/hydracache-cache-sim/src/lib.rs:234-243 | a first-seen key is refused against an entry seen once exactly up to age three |
| `HydraAdmission.RunCounts` | crates/hydracache-cache-sim/src/lib.rs:152-168 | on every run the observed counts are the occurrences so far and every entry has a hit |
| `HydraAdmission.FrequentKeyIsAdmitted` | crates/hydracache-cache-sim/src/lib.rs:152-192 | on every run a missed key is admitted when some live entry has fewer than half as many hits as the key has occurrences |
| `HydraAdmission.FreshKeySparesRecentEntries` | crates/hydracache-cache-sim/src/lib.rs:152-192 | on every run a first-seen key never displaces an entry seen at most three ticks ago |
| `StackInclusion.LruVictimsAgree` | crates/hydracache-cache-sim/src/lib.rs:204-209 | if the larger cache's victim is in the smaller cache, it is the smaller one's victim |
| `StackInclusion.LruInclusion` | crates/hydracache-cache-sim/src/lib.rs:160-191 | without time to live, the smaller LRU cache is a subset of the larger after every prefix, and hits never fall with capacity |
| `StackInclusion.BeladyInclusion` | crates/hydracache-cache-sim/src/lib.rs:83-91 | the same for Belady with the code's tie-breaks |
| `Sampler.MixInjective` | crates/hydracache-cache-sim/src/workload.rs:192-198 | the mixer is injective on 64-bit words |
| `Sampler.StateIsLinear` | crates/hydracache-cache-sim/src/workload.rs:192-193 | the state after n draws is the seed plus n increments, modulo 2^64 |
| `Sampler.DrawsDistinct` | crates/hydracache-cache-sim/src/workload.rs:187-198 | draws within one period are pairwise different |
| `Sampler.SplitMix64.constructor` | crates/hydracache-cache-sim/src/workload.rs:187-190 | a generator starts at its seed |
| `Sampler.SplitMix64.NextU64` | crates/hydracache-cache-sim/src/workload.rs:192-198 | one draw in place: the state moves on and the value is its mix |
| `Sampler.ZoneSize` | crates/hydracache-cache-sim/src/workload.rs:151-151 | exactly one plus the remainder of the largest word are rejected, at most `upper` values |
| `Sampler.RejectionsBounded` | crates/hydracache-cache-sim/src/workload.rs:147-158 | no more consecutive rejections than rejected values, by pigeonhole |
| `Sampler.FirstAccepted` | crates/hydracache-cache-sim/src/workload.rs:147-158 | for every seed an accepted draw exists, and it is the first one |
| `Sampler.Sample` | crates/hydracache-cache-sim/src/workload.rs:147-158 | a sample is below `upper` and takes at most `upper` rejections |
| `Sampler.SampleBounded` | crates/hydracache-cache-sim/src/workload.rs:147-158 | the loop terminates for every seed and returns that sample, leaving the generator after its draws |
| `Sampler.SamplingIsBalanced` | crates/hydracache-cache-sim/src/workload.rs:147-158 | each residue has exactly zone/upper accepted generator states |
| `KeySchedule.UniformKeys` | crates/hydracache-cache-sim/src/workload.rs:90-95 | exactly as many keys as operations, all below the key count |
| `KeySchedule.KeysFollowStream` | crates/hydracache-cache-sim/src/workload.rs:90-95 | the keys are the accepted draws of the seed's stream, all of them up to the last, in order, each reduced by the number of keys; a single key takes no draw |
| `KeySchedule.GenerateUniform` | crates/hydracache-cache-sim/src/workload.rs:57-95 | a spec is refused exactly with the first error it has: version, no keys, no operations, too many of either for the platform; otherwise the keys follow the stream, as many as operations and all below the key count |
| `CanonicalBytes.LittleEndianRoundTrip` | crates/hydracache-cache-sim/src/workload.rs:163-166 | fixed-width integers are recovered from their little-endian bytes |
| `CanonicalBytes.TraceRoundTrip` | crates/hydracache-cache-sim/src/trace_catalog.rs:70-80 | a decoder recovers every event list from the bytes that the trace digest hashes |
| `CanonicalBytes.TraceBytesInjective` | crates/hydracache-cache-sim/src/trace_catalog.rs:70-80 | equal bytes mean equal traces, in order and field boundaries |
| `CanonicalBytes.BuildTraceBytes` | crates/hydracache-cache-sim/src/trace_catalog.rs:70-80 | the buffer loop builds those bytes |
| `CanonicalBytes.ScheduleRoundTrip` | crates/hydracache-cache-sim/src/workload.rs:160-179 | a decoder recovers spec and keys from the bytes that the schedule digest hashes |
| `CanonicalBytes.ScheduleBytesInjective` | crates/hydracache-cache-sim/src/workload.rs:160-179 | equal bytes mean equal specs and keys |
| `CanonicalBytes.BuildScheduleBytes` | crates/hydracache-cache-sim/src/workload.rs:160-179 | the buffer loop builds those bytes |
| `CanonicalBytes.KindsAreSeparate` | crates/hydracache-cache-sim/src/workload.rs:162-162 | no trace has the bytes of a key schedule |
| `ClientOwnership.StepIsTidy` | crates/hydracache-client-hc2/src/client.rs:883-929 | every step: tasks that end drop their receiver, only callers open one, callers do not go back |
| `ClientOwnership.StepDraws` | crates/hydracache-client-hc2/src/client.rs:1695-1702 | every step: a caller keeps its request or draws the next correlation id, and the counter never wraps |
| `ClientOwnership.StepChanges` | crates/hydracache-client-hc2/src/client.rs:744-749 | every step: a pending map only loses entries, except that a caller registers its own |
| `ClientOwnership.StepCarries` | crates/hydracache-client-hc2/src/client.rs:750-766 | every step: a registered caller carries its request on until its entry is gone |
| `ClientOwnership.StepActivates` | crates/hydracache-client-hc2/src/client.rs:1056-1066 | every step: an entry becomes active only when the reader accepts its acknowledgement |
| `ClientOwnership.StepAddressed` | crates/hydracache-client-hc2/src/client.rs:1016-1070 | every step: answers go to the caller whose entry the reader took or to the callers of a drained map |
| `ClientOwnership.ReceiverIsUnlisted` | crates/hydracache-client-hc2/src/client.rs:759-763 | a caller with an answer has no pending entry left |
| `ClientOwnership.StepOwned` | crates/hydracache-client-hc2/src/client.rs:725-1400 | every step keeps the ownership invariant |
| `ClientOwnership.RunOwned` | crates/hydracache-client-hc2/src/client.rs:725-1400 | in every state of every run each pending entry has a caller in flight with its id, ids are different, and callers are answered once, after their entry is gone |
| `ClientPermits.CallerBalanced` | crates/hydracache-client-hc2/src/client.rs:740-766 | what a caller's step takes from a permit pool it holds, and the other way round |
| `ClientPermits.TerminateBalanced` | crates/hydracache-client-hc2/src/client.rs:1352-1400 | draining pending and active entries gives every one of their permits back |
| `ClientPermits.ReaderBalanced` | crates/hydracache-client-hc2/src/client.rs:1032-1066 | the reader's permits come from pending entries and go to active ones or back, also when an id is replaced |
| `ClientPermits.ServerBalanced` | crates/hydracache-client-hc2/src/client.rs:969-1000 | taking up an envelope moves a permit to the reader and loses none |
| `ClientPermits.PermitsAreConserved` | crates/hydracache-client-hc2/src/client.rs:594-1400 | in every state of every run, for each kind, available permits plus those of pending entries, active entries and tasks equal the configured maximum |
| `ClientPermits.QuiescenceReturnsPermits` | crates/hydracache-client-hc2/src/client.rs:725-955 | once all callers have returned, in any interleaving with a close, nothing is pending, all invocation permits are back unless the reader holds one, and with an idle reader every permit that no active entry holds |
| `ClientResolution.StepBooks` | crates/hydracache-client-hc2/src/client.rs:1016-1400 | every step: a request leaves its pending map in one of three ways and is booked there |
| `ClientResolution.RequestsEndOnce` | crates/hydracache-client-hc2/src/client.rs:745-1400 | in every state of every run the ids ever registered are the pending ones and those answered, withdrawn or drained, all disjoint |
| `ClientResolution.CorrelationsAreUnique` | crates/hydracache-client-hc2/src/client.rs:1695-1702 | a pending correlation id is a positive word, in one map only, and no caller is about to register an id that was ever registered |
| `ClientResolution.LateResponsesOnlyCount` | crates/hydracache-client-hc2/src/client.rs:1016-1025 | a request that has ended never becomes pending again, and a response to it changes nothing but the late counter |
| `ClientCounters.StepCounts` | crates/hydracache-client-hc2/src/client.rs:750-1274 | every step changes the counters by what it books |
| `ClientCounters.RunCounted` | crates/hydracache-client-hc2/src/client.rs:750-1274 | in every state of every run submitted equals the registered invocations, completed those answered with success, failed the other answered ones plus rejected control messages, and cancelled the withdrawn requests, up to what is in progress |
| `ClientCounters.SubmittedIsAccountedFor` | crates/hydracache-client-hc2/src/client.rs:745-764 | submitted equals pending plus answered plus withdrawn plus drained, up to invocations registered but not counted yet |
| `ClientAnswers.StepTells` | crates/hydracache-client-hc2/src/client.rs:1016-1070 | every step: what the reader sends is what the server said when its entry was taken |
| `ClientAnswers.CallersGetTheirOwnAnswers` | crates/hydracache-client-hc2/src/client.rs:759-766 | in every run the answer a caller finds is the server's verdict on its own request, or the error of a termination that drained it |
| `ClientAnswers.VerdictsComeFromTheServer` | crates/hydracache-client-hc2/src/client.rs:1016-1194 | every such verdict was said by an earlier message with that correlation id: success for a good response, the acknowledged id for a valid acknowledgement, failure otherwise |
| `ClientSubscriptions.StepDrawsSub` | crates/hydracache-client-hc2/src/client.rs:597-598 | every step: a caller keeps its subscription id or draws the next one before it registers |
| `ClientSubscriptions.SubscriptionsNeverCollide` | crates/hydracache-client-hc2/src/client.rs:1040-1066 | in every run the subscription about to be activated is not active and nobody else's, so no acknowledgement replaces an active subscription |
| `ClientClose.StepProceeds` | crates/hydracache-client-hc2/src/client.rs:1352-1400 | every step: a termination goes from map to map in order, or leaves progress alone |
| `ClientClose.StepLets` | crates/hydracache-client-hc2/src/client.rs:1016-1400 | every step: a pending entry goes only if its caller withdraws it, the reader takes it to answer, or a drain fails its owner |
| `ClientClose.StepAttends` | crates/hydracache-client-hc2/src/client.rs:1016-1070 | every step: the reader answers the caller it took on unless the receiver is gone |
| `ClientClose.TerminationRunsOnce` | crates/hydracache-client-hc2/src/client.rs:1352-1356 | at most one task terminates the client, and exactly while progress is under way |
| `ClientClose.CloseAnswersWaiters` | crates/hydracache-client-hc2/src/client.rs:1352-1400 | after a kind is drained, every caller of that kind past its send has its answer or is being answered, even if it raced with the close; with an idle reader it can return |
| `ClientOrphans.StepCovered` | crates/hydracache-client-hc2/src/client.rs:811-875 | every step: an active entry passes from reader to slot to handle to closer, and is never without one unless an acknowledgement is dropped unread |
| `ClientOrphans.ActiveIsHandled` | crates/hydracache-client-hc2/src/client.rs:811-875 | in every run, with nothing in flight, an active entry has a live handle or its acknowledgement was dropped unread |
| `ClientOrphans.OrphansWereUnread` | crates/hydracache-client-hc2/src/client.rs:627-639 | the exceptions are exactly the ids whose unread acknowledgement some earlier step dropped |
| `ClientOrphans.OrphanIsReachable` | crates/hydracache-client-hc2/src/client.rs:1271-1273 | a run in which the guard finds nothing pending and an active subscription is left without an owner |
| `ClientHolders.StepHandsOn` | crates/hydracache-client-hc2/src/client.rs:1056-1202 | every step: an acknowledged id goes from the reader's hand to a slot to a handle or to the orphans, and comes only from an acknowledgement |
| `ClientHolders.RunHeld` | crates/hydracache-client-hc2/src/client.rs:627-680 | in every run an id is in at most as many places as the server acknowledged it, handles and closers come from handles, and a subscription is acknowledged at most once |
| `ClientHolders.OwnedExactly` | crates/hydracache-client-hc2/src/client.rs:811-875 | in every run, with nothing in flight, an active entry whose id was acknowledged at most once has a live handle if and only if its acknowledgement was not dropped unread |
| `ClientHolders.SubscriptionsAreOwnedExactly` | crates/hydracache-client-hc2/src/client.rs:811-826 | for subscriptions that equivalence holds in every run |
| `ClientHolders.SharedSessionIsReachable` | crates/hydracache-client-hc2/src/client.rs:1183-1202 | a run in which the server acknowledges one session id twice, so that it has a handle and was also dropped unread |
| `ClientLeak.DroppedIsStranded` | crates/hydracache-client-hc2/src/client.rs:811-826 | an active subscription whose acknowledgement was dropped unread has no handle, no acknowledgement on its way and no task to close it |
| `ClientLeak.OrphansStayUntilClose` | crates/hydracache-client-hc2/src/client.rs:1271-1273 | in every run such a subscription stays active, with its permit, until a termination drops the active subscriptions |
| `ClientLeak.FencesNeverFall` | crates/hydracache-client-hc2/src/client.rs:1238-1247 | in every run the fence of a session that stays active never falls, unless the server acknowledges its id for another request |
| `ClientFences.FenceIsExact` | crates/hydracache-client-hc2/src/client.rs:1183-1247 | in every run the fence of an active session is that of the acknowledgement which activated it, raised to the largest that a later message brought |
| `ClientActivity.ActiveExactly` | crates/hydracache-client-hc2/src/client.rs:992-1400 | in every run an entry is active if and only if a valid acknowledgement of it was accepted and since then it was neither closed, nor lost, nor swept by termination |
| `ClientActivity.CloserCloses` | crates/hydracache-client-hc2/src/client.rs:779-880 | in every run, after a handle is dropped or a closer used, the entry has been inactive at some moment or the task has not got to it yet |
| `ClientActivity.EndsExactly` | crates/hydracache-client-hc2/src/client.rs:956-1360 | in every run the client is closed or about to be if and only if its owner closed it, a fatal condition or an invalid acknowledgement came, or a control message found the queue full or no id left |
| `ClientActivity.NothingStartsAfterClose` | crates/hydracache-client-hc2/src/client.rs:594-736 | in every run a closed client starts no call and no heartbeat any more |
| `ClientNotices.WithdrawnIsTold` | crates/hydracache-client-hc2/src/client.rs:1250-1303 | in every run, once a caller withdraws a pending invocation or subscription the server is told, or a task is about to tell it, or the client is closed or about to be; a withdrawn session is only forgotten |
| `ClientNotices.EndedIsTold` | crates/hydracache-client-hc2/src/client.rs:1305-1350 | in every run the same holds for an entry that stops being active for any reason but the server's own word |
| `ClientNotices.SettledAtRest` | crates/hydracache-client-hc2/src/client.rs:956-967 | an open client at rest has told all of it |
| `ClientNotices.CancelsOnlyWithdrawn` | crates/hydracache-client-hc2/src/client.rs:1276-1289 | in every run the server is told to cancel only requests that their callers withdrew, never a pending or an answered one |
| `ClientNotices.EndsOnlyGone` | crates/hydracache-client-hc2/src/client.rs:1290-1326 | in every run the server is told to end a subscription only when nobody holds it, waits for it or can ever get it again |
| `ClientDeadlock.WedgedAfter` | crates/hydracache-client-hc2/src/client.rs:1169-1181 | a step leads to a stuck runtime if and only if it was stuck or the reader closes it under the mutex |
| `ClientDeadlock.WedgedIsStuck` | crates/hydracache-client-hc2/src/client.rs:1378-1384 | from then on it counts as closed, pending sessions are never drained, no envelope is handled, and a session caller that gives up cannot return |
| `ClientHandling.ReaderGoes` | crates/hydracache-client-hc2/src/client.rs:1169-1202 | where a reader that is not idle goes at its next step, and when it releases the mutex |
| `ClientHandling.FailureDecides` | crates/hydracache-client-hc2/src/client.rs:1352-1356 | once handling an acknowledgement has failed, the client gets stuck at the reader's next step if it is open then; if it is closed the reader returns and releases the mutex |
| `ClientHandling.StuckExactly` | crates/hydracache-client-hc2/src/client.rs:1169-1202 | in every run the client is stuck if and only if an earlier acknowledgement of a pending session was malformed, or was valid with its receiver gone, the session active and the control work failing, and the client was open at the reader's next step |
| `ClientHandling.InvalidAckDecides` | crates/hydracache-client-hc2/src/client.rs:1176-1182 | in every interleaving a malformed acknowledgement leaves the client stuck if it is open at the reader's second step, and otherwise the reader returns |
| `ClientHandling.ValidAckReleases` | crates/hydracache-client-hc2/src/client.rs:1183-1202 | in every interleaving a valid acknowledgement whose caller has its receiver when answered reaches it, and the mutex is released |
| `ClientHandling.InvalidAckIsReachable` | crates/hydracache-client-hc2/src/client.rs:1176-1182 | a client with room for one session can get stuck by a malformed acknowledgement |
| `ClientHandling.RefusedControlIsReachable` | crates/hydracache-client-hc2/src/client.rs:1195-1202 | and by a valid one whose caller has just given up, when the queue refuses the message to the server |
| `ClientProgress.NobodyElseIsStuck` | crates/hydracache-client-hc2/src/client.rs:725-1400 | in every state of every run that is not stuck like this, the reader can move, and every other task can move or waits for the mutex that the reader holds |
| `ClientProgress.ClosingCanFinishExactly` | crates/hydracache-client-hc2/src/client.rs:1352-1400 | in every run a client that is being closed can still drain every map if and only if it is not stuck like this |
| `ClientService.TurnedAwayExactly` | crates/hydracache-client-hc2/src/client.rs:594-742 | in every run a caller that asks for a permit is turned away if and only if pending requests, active entries and tasks use all permits of its kind; otherwise one more is in use |
| `ClientService.CallCanBeServed` | crates/hydracache-client-hc2/src/client.rs:594-1202 | in every run, from every state of an open client with an idle reader, ids left and a permit not in use, a call of any kind can go on to the server's good answer in its reply slot |
| `ClientOperations.TerminationFreesAll` | crates/hydracache-client-hc2/src/client.rs:1352-1400 | an undisturbed termination leaves nothing pending or active and every permit of an entry available |
| `ClientOperations.Runtime.constructor` | crates/hydracache-client-hc2/src/client.rs:83-101 | a fresh runtime has all its permits and nothing else |
| `ClientOperations.Runtime.NextCorrelation` | crates/hydracache-client-hc2/src/client.rs:1695-1702 | ids start at one, grow, and end in an error instead of wrapping |
| `ClientOperations.Runtime.AcceptInvocation` | crates/hydracache-client-hc2/src/client.rs:1016-1038 | a response ends in the state of its two steps, names the caller to wake, and loses no permit; a late one only counts |
| `ClientOperations.Runtime.CancelPending` | crates/hydracache-client-hc2/src/client.rs:1250-1303 | the request is gone, its permit is back, and a control message is due unless it was a session |
| `ClientOperations.Runtime.FailPending` | crates/hydracache-client-hc2/src/client.rs:1365-1384 | one kind is drained and exactly its owners are failed |
| `ClientOperations.TellAll` | crates/hydracache-client-hc2/src/client.rs:1365-1384 | the loop over drained entries reaches every owner |
| `ClientOperations.Runtime.EndSubscriptions` | crates/hydracache-client-hc2/src/client.rs:1386-1394 | the active subscriptions are dropped and exactly they are offered the end |
| `ClientOperations.TellSubscriptions` | crates/hydracache-client-hc2/src/client.rs:1386-1394 | the loop over active subscriptions reaches each of them |
| `ClientOperations.Runtime.Terminate` | crates/hydracache-client-hc2/src/client.rs:1352-1400 | closing is idempotent; the first close fails the pending handshake and exactly the owners of all pending requests, and tells exactly the active subscriptions |
| `SubscriptionStream.NoSilentLoss` | crates/hydracache-client-hc2/src/client.rs:1072-1128 | on every run, a dropped item with a positive watermark, or one that found a marker pending, is announced by a gap at or above its watermark before the next event enters the stream |
| `SubscriptionStream.RunExplained` | crates/hydracache-client-hc2/src/client.rs:1072-1128 | on every run, a marker that is pending or has entered since a drop was raised by that drop, before it or by a later one |
| `SubscriptionStream.AnnouncedExactly` | crates/hydracache-client-hc2/src/client.rs:1072-1128 | on every run, a drop is announced before the next event if and only if it raised the marker or found it raised, a later drop raised it in time, or a gap from the server entered in time |
| `SubscriptionStream.SilentLossIsPossible` | crates/hydracache-client-hc2/src/client.rs:1098-1106 | a run on which an event without a watermark is lost and the consumer sees nothing between its neighbours |
| `SubscriptionStream.OfferedIsDeliveredOrDropped` | crates/hydracache-client-hc2/src/client.rs:1072-1128 | on every run offered items are delivered events, delivered server gaps or counted drops |
| `SubscriptionDelivery.EntersExactly` | crates/hydracache-client-hc2/src/client.rs:1072-1128 | on every run an offered item gets in if and only if the consumer has not closed its end and there is room for it and for a marker that has to go first; otherwise it is counted as dropped with its watermark; and when an event is counted |
| `SubscriptionDelivery.TakenInOrder` | crates/hydracache-client-hc2/src/client.rs:1072-1128 | the consumer takes what entered, in its order, each item once |
| `SubscriptionDelivery.MarkerIsLargestLost` | crates/hydracache-client-hc2/src/client.rs:1078-1128 | on every run the pending marker is the largest watermark lost since the last announcement |
| `SubscriptionStream.ActiveSubscription.constructor` | crates/hydracache-client-hc2/src/client.rs:1059-1066 | a new subscription has no marker and an empty queue |
| `SubscriptionStream.ActiveSubscription.TrySend` | crates/hydracache-client-hc2/src/client.rs:1078-1095 | sending succeeds exactly with room and a receiver |
| `SubscriptionStream.ActiveSubscription.MarkLost` | crates/hydracache-client-hc2/src/client.rs:1084-1104 | a loss raises the marker and the drop counter |
| `SubscriptionStream.ActiveSubscription.OnEvent` | crates/hydracache-client-hc2/src/client.rs:1072-1107 | an event: the pending marker first, then the event, or a loss |
| `SubscriptionStream.ActiveSubscription.OnGap` | crates/hydracache-client-hc2/src/client.rs:1109-1128 | a server gap is queued or folded into the marker |
| `HistoryRing.OldestIsOldest` | console/src/history.ts:133-139 | the scan finds the series with the oldest first point, the first of equals, or that all are empty |
| `HistoryRing.DropFirst` | console/src/history.ts:141-143 | dropping removes one point |
| `HistoryProperties.EvictedSpec` | console/src/history.ts:116-131 | eviction meets all three bounds, the byte bound unless every series is empty, and only cuts fronts of series |
| `HistoryProperties.EvictionIsMinimal` | console/src/history.ts:116-144 | each series keeps as many of its newest points as the bound allows; from there the oldest points, the first series on a tie, go one by one, every one of them while a bound is exceeded, and dropping stops at the first history within the bounds |
| `HistoryReadings.RunListed` | console/src/history.ts:73-76 | after every ingest the series are those of the first definitions that have room, in their order |
| `HistoryReadings.StartedWithTheStretch` | console/src/history.ts:64-71 | the history dates from the snapshot at which the epoch last changed, and has the epoch of the last one |
| `HistoryReadings.PointsAreReadings` | console/src/history.ts:64-144 | for every ingest sequence the retained points of a series are one each of the latest snapshots, none older than the last change of epoch; each has the time and the reading of its snapshot; a gauge shows the reading, a counter its growth since the reading before, a reset, or nothing |
| `HistoryReadings.AllRetained` | console/src/history.ts:64-107 | with eviction off every snapshot since the last change of epoch has its point |
| `HistoryReadings.GrowthAddsUp` | console/src/history.ts:64-144 | over retained snapshots in which a counter never fell, the recorded increments add up to the difference of the outer readings |
| `HistoryProperties.CountersStayLinked` | console/src/history.ts:82-92 | retained counter points carry the differences to their retained predecessors |
| `HistoryProperties.Telescopes` | console/src/history.ts:82-92 | in a stretch without resets and gaps the increments sum to last raw minus first raw |
| `HistoryProperties.CounterIncrementsAddUp` | console/src/history.ts:64-144 | the same for every counter of every ingest sequence, also after eviction |
| `HistoryProperties.HistoryIsBounded` | console/src/history.ts:101-131 | after every ingest with eviction on, all bounds hold |
| `SnapshotHistory.History.constructor` | console/src/history.ts:59-62 | a new history is empty |
| `SnapshotHistory.History.Clear` | console/src/history.ts:109-114 | clearing empties everything, and reports zero bytes although two brackets serialize |
| `SnapshotHistory.History.Observe` | console/src/history.ts:77-92 | the point of a counter or gauge, with missing values and resets |
| `SnapshotHistory.History.RecordDefinition` | console/src/history.ts:73-100 | one definition adds its point unless there is no room for a new series, and keeps caches and totals right |
| `SnapshotHistory.History.TakeIn` | console/src/history.ts:64-107 | the state becomes the specified one, the byte size is the exact serialized length, and the bounds hold |
| `SnapshotHistory.History.Ingest` | console/src/history.ts:64-107 | the same for an object fed by any sequence of snapshots: every series shows the readings of the latest ones |
| `SnapshotHistory.History.TrimSeries` | console/src/history.ts:117-122 | one series is cut to its newest points |
| `SnapshotHistory.History.TrimAll` | console/src/history.ts:117-122 | every series is |
| `SnapshotHistory.History.DropUntilTotal` | console/src/history.ts:123-125 | oldest points go until the total fits |
| `SnapshotHistory.History.DropUntilBytes` | console/src/history.ts:126-130 | oldest points go until the bytes fit or nothing is left |
| `SnapshotHistory.History.Evict` | console/src/history.ts:116-131 | the three passes in order |
| `SnapshotHistory.History.DropOldest` | console/src/history.ts:133-144 | the oldest point goes, if there is one |
| `SnapshotHistory.History.RecountBytes` | console/src/history.ts:146-162 | the recount over cached lengths equals the serialized length |
| `SnapshotHistory.History.EntryBytes` | console/src/history.ts:149-158 | the same for one series |
| `CampaignSafety.AcceptIsSound` | scripts/perf/reference_campaign.py:2375-2391 | accepting the stage at work extends the ordered, linked chain |
| `CampaignSafety.JudgeIsSound` | scripts/perf/reference_campaign.py:2306-2391 | every outcome of a run keeps the campaign sound |
| `CampaignDriver.DoneIsPrefix` | scripts/perf/reference_campaign.py:924-960 | completed stages form a prefix of the chain and nothing beyond the next has begun |
| `CampaignDriver.NextIsDue` | scripts/perf/reference_campaign.py:924-960 | while the chain is unfinished a pending spec exists, and it is that of the next stage with the run ids that it names |
| `CampaignDriver.NeverSpins` | scripts/perf/reference_campaign.py:2682-2692 | whatever the file holds, if there are specs then one of them is pending or all eight stages are completed |
| `CampaignDriver.BuildSampleSpecs` | scripts/perf/reference_campaign.py:947-959 | the loop over samples stops at the first that is not completed |
| `CampaignDriver.StageSpecs` | scripts/perf/reference_campaign.py:924-960 | the list of specs, or the error of a prerequisite without run id |
| `CampaignRuns.StepSafe` | scripts/perf/reference_campaign.py:2206-2392 | every step, crash or restart keeps the safety invariant |
| `CampaignRuns.DispatchedAtMostOnce` | scripts/perf/reference_campaign.py:2218-2264 | over every campaign no workflow is dispatched twice, and none before its mark is in the file |
| `CampaignRuns.RunIdsStay` | scripts/perf/reference_campaign.py:2214-2272 | a persisted run id never changes, and a completed or rejected stage stays as it is |
| `CampaignRuns.ChainIsOrdered` | scripts/perf/reference_campaign.py:1999-2021 | in every file state the completed stages are a prefix, receipts name their own runs and one runner, and each sample names the admission and its predecessor's run and receipt |
| `CampaignRuns.DressRunsDiffer` | scripts/perf/reference_campaign.py:1840-1861 | the two full-dress runs of an admission are different runs |
| `CampaignRuns.DriverMovesOn` | scripts/perf/reference_campaign.py:2682-2692 | in every campaign the driver loop goes to a stage or, with the last one completed, to the end |
| `CampaignRuns.ResumesWhereItStopped` | scripts/perf/reference_campaign.py:2682-2692 | at most one stage of the chain is under way, all before it are completed and none after it begun, and a restarted controller picks that stage |
| `CampaignRuns.EndIsFinal` | scripts/perf/reference_campaign.py:2671-2674 | a stopped, complete or closed campaign changes no stage and dispatches nothing any more |
| `CampaignRuns.RejectionIsFinal` | scripts/perf/reference_campaign.py:2211-2374 | a saved rejection is such an end |
| `CampaignRuns.ExecuteKeepsSafe` | scripts/perf/reference_campaign.py:2206-2392 | whatever the controller executes keeps the safety invariant |
| `CampaignOutcomes.ChecksAreExact` | scripts/perf/reference_campaign.py:1926-2021 | the checks as coded pass exactly the evidence that is about the stage's own run on the campaign's runner, brings an admission listing both full-dress runs with their receipts exactly from the second of them, and continues the chain of samples |
| `CampaignOutcomes.JudgedExactly` | scripts/perf/reference_campaign.py:2306-2392 | in every campaign a judged stage is completed with its evidence if and only if the run succeeded and its evidence is readable, intact and passes; it waits, with the campaign still runnable, if and only if the artifacts could not be fetched; otherwise it is rejected and the campaign stopped; only a completed stage lets the controller go on |
| `CampaignOutcomes.DispatchNamesRuns` | scripts/perf/reference_campaign.py:924-978 | in every campaign a dispatched stage is the next of the chain, the second full-dress run names the first, and a sample names the run that published the admission and the sample before it, as they are in the file |
| `CampaignOutcomes.CompleteMeansDone` | scripts/perf/reference_campaign.py:2668-2703 | in every campaign a file that says complete has all eight stages of the chain completed, or the frozen candidate |
| `CampaignOutcomes.ResumesRun` | scripts/perf/reference_campaign.py:2206-2305 | in every campaign, a restart with a stage whose run is known and that has not ended, waiting for its artifacts or not, goes back to judging that run and dispatches nothing |
| `CampaignCompletion.CompletionExactly` | scripts/perf/reference_campaign.py:2206-2392 | from a sound file without a rejection some answers of the outside complete the chain if and only if the second full-dress run is not under way on the run of the first |
| `CampaignCompletion.RestartCanComplete` | scripts/perf/reference_campaign.py:2668-2693 | the same for a restart in every campaign that has not ended |
| `CampaignCompletion.SharedDressRun` | scripts/perf/reference_campaign.py:1840-1861 | a sound file from which no answers complete the chain |
| `CampaignController.Controller.constructor` | scripts/perf/reference_campaign.py:319-350 | a controller starts from the file |
| `CampaignController.Controller.SaveState` | scripts/perf/reference_campaign.py:353-354 | saving makes the file the state in memory |
| `CampaignController.Controller.Launch` | scripts/perf/reference_campaign.py:2237-2264 | with no earlier run the mark is saved before the workflow is dispatched, once |
| `CampaignController.Controller.Adopt` | scripts/perf/reference_campaign.py:2269-2272 | the run that turned up is saved |
| `CampaignController.Controller.Recover` | scripts/perf/reference_campaign.py:2222-2235 | a marked stage takes the only run of its title, or one that turns up later, and is not dispatched again |
| `CampaignController.Controller.Correlate` | scripts/perf/reference_campaign.py:2217-2272 | the stage gets the run that the answers of the outside determine, or the program ends |
| `CampaignController.Controller.Follow` | scripts/perf/reference_campaign.py:2273-2392 | viewing, watching, judging and the saves are steps of the campaign system; the judgement is in the file, and success means a completed stage |
| `CampaignController.Controller.ExecuteStage` | scripts/perf/reference_campaign.py:2206-2392 | one pass over a stage completes it with its evidence exactly if the answers of the outside identify a run whose evidence is accepted, and ends the program otherwise |
| `CampaignController.Controller.RunCampaign` | scripts/perf/reference_campaign.py:2668-2705 | from any file the driver loop terminates, takes only steps of the campaign system, keeps a safe campaign safe, and reports completion exactly if every stage in turn is picked and its pass succeeds and the checks around the loop do; then every stage is completed in the file |

## Left out

- SHA-256: the digests are opaque; injectivity is proved of the bytes that are hashed.
- Zipfian schedules: the cumulative table and the unit draws are floating point.
- Counter differences in the console are real numbers here, without floating-point rounding.
- JSON text: the encoded lengths of names and points are functions the history is given.
- The console's member set, its rendering and its other views.
- The client's handshake exchange (only its failure on close is modelled), connection setup, adapters, wire encoding, topology updates, request builders and argument checks; a malformed envelope of any kind is one fatal action.
- Client time: timeouts, dropped futures and failing sends are actions that can happen whenever the caller waits.
- Client metrics: each counter changes in the step of the critical section next to it, so a state between the two is not distinguished.
- Client state on values: interleavings are stated over a transition system whose states are values; `ClientOperations` updates fields in place only for undisturbed operations, so aliasing of runtime handles is not captured.
- Session heartbeats: a heartbeat is a control message that an active session allows at any time; its period and the fence it carries are not modelled, nor is the fence in a session close.
- Campaign: host preparation, shell, git, systemd, archives and the review commands; what they answer is part of an action, and an error of any kind ends the controller.
- Campaign: two controllers working on one directory at the same time; the program has no lock against it, and the model runs one at a time.
- Campaign receipts carry the fields that link the chain; other field checks are one open outcome. The three contract digests are one value.
- The frozen candidate's own receipt and aggregate checks beyond run id and runner.
