# jobflow: a verified model

jobflow runs a graph of jobs on a thread pool. A job's input is made of promises: the use-once, reusable,
tupled, funnelled or disjoint outputs of other jobs. A scheduler decides which jobs may run, a heap decides
which go first, and a work-stealing pool runs them. This project models those parts and proves that they fit
together: **whatever the pool and the scheduler interleave, a flow that has been wired through the wiring calls
ends with exactly the results of evaluating its dependency graph recursively**, or with an error or panic that
the recursive evaluation has too.

Check everything with `dafny verify dfyconfig.toml`.

## How the parts fit

| file | module | what it models |
|---|---|---|
| overlap.dfy | Overlap | range claims and the overlap test |
| promises.dfy | Promises | promise sets, polling order, reusable promises |
| disjointed.dfy | Disjointed | a vector handed out in disjoint pieces |
| once_lock.dfy | OnceLock | the lock-free once cell, any number of threads |
| wrappers.dfy | Wrappers | values that may be absent |
| sequences.dfy | Sequences | sequences that hold nothing twice |
| graphs.dfy | Graphs | dependency graphs, reachability, transitive reduction |
| layering.dfy | Layering | the lexicographic sort and the layering into levels |
| orderings.dfy | Orderings | both orderings, against one abstract ready-set machine |
| dispatch.dfy | Dispatch | the weights and the heap of ready jobs |
| jobs.dfy | Jobs | jobs, their inputs, and their outcomes by recursion |
| wiring.dfy | Wiring | every wiring call, and what they all keep |
| inputs.dfy | Inputs | what an action receives, promise by promise |
| dropping.dfy | Dropping | the wiring calls that lose a use-once output |
| engine.dfy | Engine | execution as interleaved small steps |
| working.dfy | Working | what a pool may do between two looks of the scheduler |
| scheduling.dfy | Scheduling | where each job is while a flow executes |
| liveness.dfy | Liveness | the polls of an execution, and how many it can take |
| execute.dfy | Execute | the execution loop, with either ordering and any pool |
| pool.dfy | Pool | the work-stealing thread pool, one atomic access at a time |
| pool_calls.dfy | PoolCalls | what a scan counts, when workers start and stop |
| pool_tasks.dfy | PoolTasks | how tasks are counted and taken, and what a panic leaves |
| job_run.dfy | JobRun | one run of a job over its capacity-1 channels |

The chain of the main result is: `Wiring.BuiltIsWellWired` (the wiring calls give a well-wired plan),
`Inputs.EvalOfInputs` and `Inputs.TupleReachesAction` (what `Jobs.Eval` means, promise by promise),
`Engine.StepKeepsInv` and `Engine.ScheduleIndependence` (every interleaving agrees with `Jobs.Eval`),
`Execute.Execute` (the loop, with either ordering, ends as `Execute.RightEnd` says), `Execute.UnstalledFlowsSucceed`
(it succeeds, exactly if all jobs evaluate to a value, once it has made two polls for every job beside the iterations
that stalled), `Execute.ResponsiveFlowsSucceed` (so it does with a pool that, whatever is in flight, completes one job
visibly every so many polls) and `Execute.OutputAfterSuccess` (the flow's output promise then delivers).
`Pool.RunningNeverExceedsMax` provides the bound on scans that `Execute.Execute` asks for, and `Layering.NearOptimal`
the quality of the stepped ordering.

A `Tick` is everything one poll of the scheduler depends on in the pool: what the scan for running workers
returned, the steps the workers took, and which completions are visible. `Execute.Execute` is proved for every
sequence of ticks; `StillRunning` is its result when the sequence ends before the flow does. The trace in its history
lists the polls that did not end it, each with the loop before and after. An iteration stalls (`Liveness.Stalled`) if
at its first poll the completion of no submitted job can be seen.

## Where the code differs from what it says

- The doc comment of `lexico_topological_sort` (src/job_ordering/stepped.rs:147-155) compares the most recently
  added neighbours first. The key of the code (lines 187-188) is the descending order of the ascending ages. The
  model follows the code, and claims Graham's bound, not the tighter one of Coffman and Graham.
- `ranges_overlap` misses every pair whose starts are both unbounded while some end is bounded, and reports some
  pairs that share nothing; `Overlap.OverlapExactly` says for which pairs, `Overlap.OverlapDefects` gives examples,
  and `Disjointed.BlindSpotPanics` shows the panic that follows. Its answer depends on the order of the two ranges
  exactly when an excluded and an included end meet at the greater start: `Overlap.OverlapSymmetry`.
- `Weighted::cmp` is not always transitive. `Dispatch.SaturationBreaksTransitivity` gives three weights with at most
  two dependents each; `Dispatch.OrderlyExactly` says for which heaps it is: those in which no job conceals that one
  job outranks another. A job does that only if its two products with one of them both reach the machine limit and
  differ (`Dispatch.ConcealingBlurs`). `Dispatch.CmpComparesRatios` says exactly when two jobs compare as their ratios.
- Wiring calls can lose a use-once output silently, and its producer then fails when it sends. `Dropping.PerformDrops`
  says exactly which calls do, in terms a caller can check beforehand: a usable second source for a single input that
  holds the promise, a tuple with an unusable output after it, and a flow output when one is set. In a flow built by
  wiring calls a job has lost its receiver exactly if its promise has been taken and nothing holds it
  (`Dropping.DroppedExactly`); it fails exactly if it would otherwise have produced its output
  (`Dropping.SendFailsExactly`). `Dropping.RewiringLosesAnOutput` is a run of five calls in which this happens.
- With a maximal size of 0 the stepped ordering puts no limit on its steps; safety is proved for that case too.

## Model

| member | source | states |
|---|---|---|
| Overlap.FirstSharedIsShared | src/backend/overlap_checking.rs:84-111 | two ranges share an index exactly if they share the one at the greater start |
| Overlap.OverlapExactly | src/backend/overlap_checking.rs:47-140 | the test is true exactly for the pairs that share an index outside the blind spot of two unbounded starts, and for the pairs of a stated family of false alarms, none of which shares an index |
| Overlap.OverlapOnHalfOpen | src/backend/overlap_checking.rs:47-82 | on ranges with included or no start and excluded or no end, the test is true exactly if an index is shared, but for the blind spot |
| Overlap.OverlapSymmetry | src/backend/overlap_checking.rs:47-140 | the test gives different answers for the two orders of a pair exactly if an excluded end meets an included one and the greater start is at the end of the first range |
| Overlap.OverlapDefects | src/backend/overlap_checking.rs:63-86 | `..3` and `..5` share an index and pass; `0..3` and `3..=3` share none and are reported in one order only |
| Overlap.AcceptedRangesDisjoint | src/backend/overlap_checking.rs:32-44 | over any sequence of insertions, two accepted ranges share an index only in the blind spot |
| Overlap.OverlapChecker.Insert | src/backend/overlap_checking.rs:32-44 | the loop accepts exactly the ranges not reported against an earlier one, appends those, and keeps accepted ranges unreported |
| Promises.PromiseSet.Drain | src/sync/promise.rs:192-201 | one pass asks every promise once; the values of those that answered follow the finished ones in the order of the promises, and the others stay in their order |
| Promises.PollsExactly | src/sync/promise.rs:185-245 | after such a pass `poll_any` returns the first finished value and the last takes its place, and `poll` returns all finished values exactly if no promise is left |
| Promises.PromiseSet.PollAny | src/sync/promise.rs:190-211 | one pass, and then the first finished value with the last put in its place, none if there are no promises either, or that nothing is ready |
| Promises.PromiseSet.PollAll | src/sync/promise.rs:223-244 | one pass, and then all finished values in order, the set being emptied, exactly if no promise is left |
| Promises.SinglePollKeepsOrder | src/sync/promise.rs:223-244 | a fresh set is ready at its first poll exactly if all its promises are, and then yields the values in insertion order |
| Promises.PromiseAccounting | src/sync/promise.rs:185-245 | over any sequence of insertions and polls, the values returned and stored are those produced, and each promise inserted has answered once or is still held |
| Promises.Reusable.PollClone | src/backend/reusable.rs:131-148 | a clone is pending exactly while no value is stored and the source is pending; a stored value never changes, and a ready answer is the stored value |
| Promises.ClonesAgree | src/backend/reusable.rs:131-148 | however the polls of the clones interleave, all answers equal the first value of the source, which is asked until then and never again |
| OnceLock.StepKeepsExclusion | src/sync/once_lock.rs:91-126 | every atomic step keeps at most one thread between a successful exchange and its store |
| OnceLock.InitializedIsNeverLeft | src/sync/once_lock.rs:98-125 | once initialised, the cell stays initialised with the same written value |
| OnceLock.OneInitialiser | src/sync/once_lock.rs:98-114 | in every run at most one initialiser runs at a time, and at most one writes |
| OnceLock.AtMostOneSuccess | src/sync/once_lock.rs:91-126 | over a whole run one initialiser has supplied the value if the cell is initialised, and none otherwise, so one `try_insert` at most keeps its value |
| OnceLock.ReadersAgree | src/sync/once_lock.rs:30-36 | any two calls that return a value, in any threads at any times, return the same one |
| OnceLock.ReadsAreOfWrittenSlots | src/sync/once_lock.rs:67-90 | the unchecked read is made only of a written slot; an `Ok` of `initialize` implies an initialised cell |
| OnceLock.NeverLost | src/sync/once_lock.rs:98-125 | a cell being initialised has a thread that can settle it, and after a failed initialiser the next exchange succeeds |
| OnceLock.CallFindsValue | src/sync/once_lock.rs:30-81 | a call made when the cell is initialised returns its value, after two steps of its own and not before |
| OnceLock.CallFindsReturned | src/sync/once_lock.rs:30-81 | once any call has returned a value, every later call returns that value |
| OnceLock.AskersAreAnswered | src/sync/once_lock.rs:98-125 | so does a thread that was waiting for the cell when it was initialised |
| OnceLock.NotFoundWasUnset | src/sync/once_lock.rs:30-36 | `get` finds nothing only if the cell was not initialised at some moment of the call |
| OnceLock.InitOutcome | src/sync/once_lock.rs:67-126 | `get_or_try_init` returns a value or the error of its own initialiser; the value is its own initialiser's exactly if that has returned one during the call |
| Disjointed.Disjointed.Get | src/backend/disjointed.rs:35-59 | a claim is granted exactly if the checker accepts its bounds |
| Disjointed.Disjointed.Poll | src/backend/disjointed.rs:87-97 | the loop over the slots takes them in order and delivers, waits or panics as specified |
| Disjointed.PollExactly | src/backend/disjointed.rs:87-202 | a poll out of bounds panics and leaves the slots; any other empties the slots of its claim up to the first empty one, and delivers their contents exactly if there is none |
| Disjointed.FirstPollExactly | src/backend/disjointed.rs:291-299 | the first poll waits for the source, and then acts as on the slots of its vector |
| Disjointed.PollDelivers | src/backend/disjointed.rs:182-202 | polling an in-bounds claim with untouched slots delivers exactly the claimed part of the vector |
| Disjointed.PollLeavesOthers | src/backend/disjointed.rs:182-202 | polling one claim leaves the slots of every claim apart from it as they were |
| Disjointed.AcceptedClaimsApart | src/backend/disjointed.rs:35-59 | two in-bounds claims that the checker does not report cover no common slot, outside the blind spot |
| Disjointed.SecondDeliversIffApart | src/backend/disjointed.rs:182-202 | of two in-bounds claims polled in turn, the second is delivered exactly if no position is claimed by both, and panics otherwise |
| Disjointed.EveryPollDelivers | src/backend/disjointed.rs:87-202 | in every run that polls each accepted claim until it is ready once, each answer is not-ready or exactly the claimed part, and no poll meets an emptied slot |
| Disjointed.BufferIsSet | src/backend/disjointed.rs:291-299 | the source is consumed once, by the first poll that finds it ready |
| Disjointed.DeliveredOnce | src/backend/disjointed.rs:87-202 | at each position claimed, exactly one accepted claim's part holds the vector's element |
| Disjointed.DeliveriesReassemble | src/backend/disjointed.rs:87-202 | if accepted claims cover the vector, there is an order in which what a run that answers them all has delivered to the claims that are not empty, put together, is the vector |
| Disjointed.ClaimsTile | src/backend/disjointed.rs:35-59 | accepted claims that cover a vector can be put in an order in which each starts where the one before ends |
| Disjointed.BlindSpotPanics | src/backend/disjointed.rs:198 | `..1` and `..2` are both granted, and the second to be polled panics |
| Graphs.NewFlowGraph | src/backend/flow_backend.rs:425-443 | one pass over the jobs builds dependencies and dependents as inverse relations |
| Graphs.ReductionKeepsReachability | src/job_ordering/stepped.rs:97-98 | a concrete transitive reduction reaches exactly what the graph does, and has no edge it could do without |
| Layering.AgesAreIncomingPositions | src/job_ordering/stepped.rs:179-189 | a node's ages are the positions of its incoming neighbours in the ordering, each once and ascending |
| Layering.LexExactly | src/job_ordering/stepped.rs:179-189 | one key is no greater than another exactly if it is a prefix of it or smaller where they first differ |
| Layering.LexTotal | src/job_ordering/stepped.rs:179-189 | the key order is total and antisymmetric |
| Layering.LexTransitive | src/job_ordering/stepped.rs:179-189 | the key order is transitive |
| Layering.Contenders | src/job_ordering/stepped.rs:163-177 | the contenders are exactly the open nodes all of whose incoming neighbours are closed |
| Layering.PickFirst | src/job_ordering/stepped.rs:179-190 | on an acyclic graph some contender exists, and the one picked has a maximal key |
| Layering.LexicoTopologicalSort | src/job_ordering/stepped.rs:156-197 | whatever the tie-breaks, the sort ends with a permutation of the nodes in which every edge goes forward, and no node that could have been placed instead of another had incoming positions that exceed it where they first differ, or properly extend its own |
| Layering.LowestOpen | src/job_ordering/stepped.rs:119-125 | the lowest level below the width, or 0 |
| Layering.ChooseLevel | src/job_ordering/stepped.rs:104-129 | the chosen level is not full and above all dependencies, and every level below it is full or no higher than some dependency |
| Layering.AssignLevels | src/job_ordering/stepped.rs:102-132 | every index is on exactly one of contiguous, non-empty levels no wider than the width; taken from the end of the order, each is on the lowest level above its dependencies that was not full |
| Layering.LevelsAreDetermined | src/job_ordering/stepped.rs:102-132 | the order of the indices determines all levels |
| Layering.ChainThroughOpenLevels | src/job_ordering/stepped.rs:102-132 | from every index a chain of dependencies descends past all open levels below it |
| Layering.GrahamBound | src/job_ordering/stepped.rs:102-132 | with n nodes, width w and k levels, w*k <= n + (w-1)*D for the length D of some chain of dependencies |
| Layering.ScheduleLowerBounds | src/job_ordering/stepped.rs:66-144 | no valid schedule of width w is shorter than a dependency walk or than the jobs divided by w |
| Layering.NearOptimal | src/job_ordering/stepped.rs:66-144 | steps within Graham's bound are at most 2 - 1/w times those of any valid schedule |
| Orderings.RunIsLegal | src/job_ordering.rs:34-52 | in every run of polls and offers, offered and handed-out jobs are disjoint and have all their dependencies offered back |
| Orderings.PolledAfterAllDependencies | src/job_ordering/stepped.rs:33-59 | a job is handed out once, and only after all its direct and indirect dependencies in the original graph have been offered back |
| Orderings.SteppedPollIsLegal | src/job_ordering/stepped.rs:33-47 | what the stepped ordering hands out is ready, distinct, and non-empty when jobs remain and none is in flight |
| Orderings.SteppedPollImplements | src/job_ordering/stepped.rs:33-47 | marking the last step is a poll of the abstract machine |
| Orderings.SteppedOfferImplements | src/job_ordering/stepped.rs:49-59 | removing an offered job and then every empty step is an offer of the abstract machine |
| Orderings.SteppedInFlightBound | src/job_ordering/stepped.rs:33-59 | at most w jobs are handed out and not offered back |
| Orderings.MarkStep | src/job_ordering/stepped.rs:36-45 | the loop hands out the unoffered jobs of a step in order and marks all |
| Orderings.RemoveFromBack | src/job_ordering/stepped.rs:51-56 | the search from the back removes the job from the last step that holds it |
| Orderings.UnofferedInOrder | src/job_ordering/stepped.rs:36-45 | the jobs of a step are handed out in its order |
| Orderings.OfferRemovesOneEntry | src/job_ordering/stepped.rs:49-59 | offering a job removes one entry of it, if there is one, and the empty steps; all other entries stay in their order |
| Orderings.SteppedOrdering.Poll | src/job_ordering/stepped.rs:33-47 | changes the steps in place, as a poll of the abstract machine |
| Orderings.SteppedOrdering.Offer | src/job_ordering/stepped.rs:49-59 | changes the steps in place, as an offer of the abstract machine for a polled job |
| Orderings.SteppedOrdering.Empty | src/job_ordering/stepped.rs:61-63 | true exactly if every job has been offered back |
| Orderings.LayeredStepsImplement | src/job_ordering/stepped.rs:134-143 | the reversed levels hold every job once, with all dependencies in later steps |
| Orderings.NewStepped | src/job_ordering/stepped.rs:68-144 | fails exactly without a topological order; otherwise the steps are the levels, highest first, that the sort of the reduced graph determines, and within Graham's bound of the original graph |
| Orderings.SomeJobIsReady | src/job_ordering/graph_traversal.rs:54-74 | in an acyclic graph some remaining job waits for nothing |
| Orderings.GraphTraversalOrdering.Poll | src/job_ordering/graph_traversal.rs:54-74 | hands out exactly the jobs whose dependencies are all offered back and that are not in flight |
| Orderings.GraphTraversalOrdering.Offer | src/job_ordering/graph_traversal.rs:76-86 | an unknown task is an error and changes nothing; a polled one is an offer of the abstract machine |
| Dispatch.CmpComparesRatios | src/backend/flow_backend.rs:371-378 | the comparison is that of the ratios of dependents to step exactly if the products are equal or one is below the machine limit |
| Dispatch.CmpIsConsistent | src/backend/flow_backend.rs:360-378 | comparing both ways is consistent, and equal weights compare equal |
| Dispatch.EqualityIsFiner | src/backend/flow_backend.rs:360-369 | equality of weights ignores the job, and tells weights apart whose ratios agree and that compare equal |
| Dispatch.OrderlyExactly | src/backend/flow_backend.rs:371-378 | the comparison is transitive on exactly the heaps in which no job conceals that one job outranks another |
| Dispatch.ConcealingBlurs | src/backend/flow_backend.rs:371-378 | a job conceals nothing unless its comparison with one of the two differs from that of their ratios |
| Dispatch.SharpIsOrderly | src/backend/flow_backend.rs:371-378 | if every two jobs compare as their ratios, the comparison is transitive |
| Dispatch.SmallFlowsAreSharp | src/backend/flow_backend.rs:168-172 | bounds on dependents and steps under which every two jobs compare as their ratios |
| Dispatch.SaturationBreaksTransitivity | src/backend/flow_backend.rs:371-378 | three weights of jobs with two, one and no dependents for which the comparison is not transitive |
| Dispatch.WaitingNeverHurts | src/backend/flow_backend.rs:371-378 | saturated or not, more dependents or an earlier step never rank lower |
| Dispatch.Pop | src/backend/flow_backend.rs:182 | a pop removes one job, and a maximum if the comparison is orderly |
| Dispatch.DrainBatch | src/backend/flow_backend.rs:177-185 | the batch and the rest make up the heap, and nothing left outranks anything drained |
| Dispatch.BatchRanksByRatio | src/backend/flow_backend.rs:177-185 | no job left has a greater ratio than a dispatched one, if the heap is orderly and the two compare as their ratios, or if every two jobs do |
| Dispatch.NextStep | src/backend/flow_backend.rs:234-240 | the step counter goes through 1 to the greatest machine word and starts again at 1, so no step is ever 0 |
| Jobs.SinglePollAssembles | src/backend/job.rs:142-155 | when all promises are ready, the one poll of a single, tuple or funnel input yields its values in wiring order |
| Inputs.ReadyInputs | src/backend/job.rs:142-155 | when all promises are ready, the one poll yields the value of a single promise, the tuple of the values in the order of its parts, or the list of the values of a funnel |
| Inputs.InputReadyExactly | src/sync/promise.rs:223-244 | the one poll of an input is ready exactly if every promise of it is |
| Inputs.FunnelGainsItem | src/backend/funnel.rs:22-62 | a funnel that gains a value yields what it did and then that value, once |
| Inputs.FunnelGainsSpread | src/backend/funnel.rs:22-62 | a funnel that gains a collection yields what it did and then the elements in their order |
| Inputs.InBoundsExactly | src/backend/disjointed.rs:182-202 | a claim that contains an index lies in the vector exactly if all its indices do, or, without an end, if it contains the index after the last |
| Inputs.IndexIsOne | src/backend/disjointed.rs:35-45 | the claim of one index contains that index only |
| Inputs.EvalChecks | src/backend/job.rs:142-158 | a job is blocked exactly if a dependency produced nothing, and fails its input check exactly if it takes input and has none or takes none and has some |
| Inputs.EvalCrashes | src/backend/job.rs:147-152 | a job crashes exactly if some promise of its input supplies nothing |
| Inputs.EvalApplies | src/backend/job.rs:142-171 | a job all of whose promises supply a value applies its action to its input, and sends the result unless nobody receives it |
| Inputs.EvalOfInputs | src/backend/job.rs:142-171 | the action gets the value of a single promise, the tuple of a tuple's values in order, the list of a funnel's values, or nothing |
| Jobs.EvalFromDependencies | src/backend/job.rs:142-171 | the outcome of a job from the values of its dependencies |
| Wiring.PerformKeepsSound | src/backend/job.rs:694-881 | every wiring call, successful or not, keeps each promise of an input with a job it depends on, use-once promises and the flow input unique, claims of one output apart but for the blind spot, and inputs of their flavor |
| Wiring.UseTupleKeepsSound | src/backend/job.rs:784-839 | so does a tuple, also when an unusable output makes it fail halfway |
| Wiring.BuiltIsSound | src/flow.rs:520-612 | so does every sequence of wiring calls on an empty flow |
| Wiring.BuiltIsWellWired | src/io/disjoint.rs:175-219 | a flow built by wiring calls is well wired exactly if its explicit dependencies exist and no two claims to one output share an index |
| Wiring.MissedIsBlindSpot | src/backend/overlap_checking.rs:63-86 | two wired claims to one output that share an index both start unbounded |
| Dropping.PerformDrops | src/backend/job.rs:697-881 | a wiring call loses the promise of a job exactly if a condition on the state before the call holds, and no call undoes it |
| Dropping.DroppedExactly | src/backend/flow_backend.rs:322-332 | in every flow built by wiring calls, a job has lost its receiver exactly if its use-once promise has been taken and neither an input nor the flow output holds it |
| Dropping.SendFailsExactly | src/backend/job.rs:160-170 | a job fails to send exactly if its receiver was lost and it would otherwise produce an output |
| Dropping.DroppedNeverDone | src/backend/job.rs:711-725 | a job whose receiver was lost never produces its output |
| Dropping.TakeAllExactly | src/backend/job.rs:787-801 | a tuple succeeds exactly if all its outputs can be used, and otherwise takes exactly the use-once outputs before the first that cannot |
| Dropping.RewiringLosesAnOutput | src/backend/job.rs:711-725 | adding three jobs and giving the first two in turn to a single input makes the first evaluate to a failed send |
| Wiring.Flow.UseOutput | src/backend/job.rs:697-773 | succeeds exactly if the job takes input and the promise is there, with the error of the source otherwise; the promise is then the whole single input or the last item of the funnel, its job a dependency, and other inputs stay |
| Wiring.Flow.UseTuple | src/backend/job.rs:784-839 | succeeds exactly if the job takes input and every output has its promise; the input then gains the tuple of these promises in the order of the call; otherwise no input changes |
| Wiring.TakeAllInOrder | src/backend/job.rs:787-801 | the promises taken are those of the outputs up to the first that cannot be used, one for each and in their order |
| Inputs.TupleReachesAction | src/backend/job.rs:802-828 | a job given a tuple applies its action to the tuple of the values its outputs evaluate to, in the order of the call |
| Inputs.OutputReachesAction | src/backend/job.rs:697-725 | a single input given a whole output applies its action to the value of that output |
| Inputs.CallsGrowFunnel | src/backend/job.rs:727-773 | a funnel given an output yields what it did and then the one value of the output; given a tuple, then the tuple |
| Inputs.FunnelOfCollection | src/backend/job.rs:190-206 | a collection wired to a job that is then made a funnel yields its elements |
| Wiring.Flow.TakePromises | src/backend/job.rs:787-801 | the loop over a tuple's outputs takes their promises in order, and stops at the first that cannot be used with the error for its kind |
| Wiring.Flow.UsePart | src/backend/disjointed.rs:105-125 | succeeds exactly for a disjoint output, a free claim and an input without a single source; then the input holds the part and depends on its job; the claim stays recorded when only the input refuses it |
| Wiring.Flow.UseFlowInput | src/backend/job.rs:862-880 | succeeds exactly if the job takes input and the flow input was not given out; it is then, once for all; other inputs stay, and an error changes nothing |
| Wiring.Flow.SetFlowOutput | src/backend/flow_backend.rs:322-332 | succeeds exactly for a usable output when none is set, and the output is then live; an error keeps the output set, but a use-once promise is gone either way |
| Wiring.Flow.MakeReusable | src/backend/job.rs:593-611 | fails exactly for a used use-once output, changing nothing; otherwise only that output changes, and nothing wired before is still connected to it |
| Wiring.Flow.MakeDisjointed | src/backend/job.rs:613-635 | fails exactly for a used use-once output, changing nothing; otherwise only that output changes, has no claims, and nothing wired before is still connected to it |
| Wiring.Flow.MakeFunnel | src/backend/job.rs:174-215 | succeeds exactly for a job with a single input, which keeps its promises and dependencies; an error changes nothing |
| Wiring.Flow.DependsOn | src/backend/job.rs:457-459 | one job gains one dependency and keeps its input, the others stay as they are, and the flow stays sound |
| Engine.PollDeliversLeaf | src/backend/job.rs:147-152 | a promise that is in place delivers the value, or the part of it, that its wiring names |
| Inputs.DeliversOnce | src/backend/job.rs:147-152 | a use-once promise, or the flow input, delivers once, and panics if it is polled again |
| Inputs.AskExactly | src/backend/job.rs:142-155 | a job asks its promises in order: a value is kept, one that is not ready is remembered, and one that panics crashes the job |
| Inputs.FinishExactly | src/backend/job.rs:142-171 | a job that has asked all fails if one was not ready; otherwise it applies its action and its output is all that changes for others, unless nobody receives it |
| Engine.PollKeepsOthers | src/backend/job.rs:142-155 | polling one promise leaves every promise it does not clash with in place |
| Engine.PollNextProgress | src/backend/job.rs:147-152 | a dispatched job never finds a promise pending, and what it finds is right |
| Engine.FinishIsEval | src/backend/job.rs:160-170 | with all its answers in, a job's action gets the input, and the job the outcome, of the recursive evaluation |
| Engine.StepKeepsInv | src/backend/flow_backend.rs:163-250 | every step of the scheduler or of a worker keeps all of the above |
| Engine.ScheduleIndependence | src/backend/flow_backend.rs:163-250 | in every interleaving a completed job has the outcome of the recursive evaluation, never an input that was not ready, and was dispatched after all its dependencies had been collected with theirs |
| Engine.OutputIsEval | src/flow.rs:213-224 | once its job is collected, the flow's output promise delivers the value of the recursive evaluation |
| Engine.RunsTerminate | src/backend/flow_backend.rs:163-250 | no run is longer than four steps for every job and one for every promise wired to it |
| Engine.NeverStuck | src/backend/flow_backend.rs:163-250 | while a job is not collected and none has failed, some step can be taken |
| Engine.MaximalRunsFinish | src/backend/flow_backend.rs:163-250 | a run that cannot go on has collected every job with its value, or a job whose outcome is a failure or crash |
| Working.WorksKeepsInv | src/sync/pool/inner_thread_pool.rs:280-341 | any steps of the workers keep the running system's invariant |
| Working.WorksMoves | src/sync/pool/inner_thread_pool.rs:280-341 | workers move only jobs they have been given and not yet completed |
| Working.FullWorkCompletes | src/sync/pool/inner_thread_pool.rs:280-341 | every flow has work that completes all it is given |
| Scheduling.SomethingToDo | src/backend/flow_backend.rs:163-173 | while jobs remain, after a poll of the ordering one is in the heap or submitted |
| Scheduling.HandOutKeepsCoherent | src/backend/flow_backend.rs:163-173 | polling the ordering keeps every job in exactly one of: not handed out, waiting, submitted, finished |
| Scheduling.SubmittedInTurn | src/backend/flow_backend.rs:187-210 | each job of a batch is still in the map `tasks` and has all its dependencies collected: it is submitted once |
| Scheduling.SubmitKeepsCoherent | src/backend/flow_backend.rs:187-210 | submitting keeps the partition, the counters, the heap and the promise set in step |
| Scheduling.AbsorbKeepsCoherent | src/backend/flow_backend.rs:211-231 | polling the promises keeps each submitted job held once, as a promise or as the result it completed with |
| Scheduling.FirstResultIsEval | src/backend/flow_backend.rs:217-230 | the result returned is what its job evaluates to |
| Scheduling.OfferBackKeepsCoherent | src/backend/flow_backend.rs:217-231 | taking a result and offering its job back keeps the partition and the counters |
| Scheduling.FinishedAreJobs | src/backend/flow_backend.rs:218-219 | the completed count never exceeds the jobs, and is below it while jobs remain |
| Liveness.TraceIsCoherent | src/backend/flow_backend.rs:163-252 | at every poll of every trace of the loop each job is in exactly one place, and at the first poll of an iteration something is in flight unless no worker was free |
| Liveness.IdleSeesNothing | src/backend/flow_backend.rs:213-217 | a poll that finds nothing had no completion of a submitted job to see |
| Liveness.PollsArePaidFor | src/backend/flow_backend.rs:163-252 | in every trace there are at most as many polls as twice the completed jobs plus the stalled iterations, and at most as many that could see a completion as completed jobs |
| Liveness.UnfinishedIsShort | src/backend/flow_backend.rs:163-252 | an execution that is still running has made fewer polls than twice its jobs and its stalled iterations, and could see a completion at no more polls than it has jobs |
| Liveness.ResponsivePoolsFinish | src/backend/flow_backend.rs:163-252 | with a pool that, whatever is in flight, completes a job visibly within every k polls, no execution goes on for k polls more than k for every job |
| Liveness.FairPollsDoNotStall | src/backend/flow_backend.rs:175-217 | a poll at which a worker was free and the pool completed all it was given is no stall |
| Execute.PushAll | src/backend/flow_backend.rs:166-173 | the jobs handed out enter the heap in order, weighted by one more than their dependents and the current step |
| Execute.Execution.PollOrdering | src/backend/flow_backend.rs:163-173 | the loop's whole new state, and that a job is in the heap or submitted while jobs remain |
| Execute.Execution.SubmitBatch | src/backend/flow_backend.rs:175-210 | as many of the best waiting jobs as workers are free, and the loop's whole new state; with a free worker something is in flight |
| Execute.Execution.SubmitAll | src/backend/flow_backend.rs:187-210 | every job of the batch leaves the map `tasks` exactly once |
| Execute.Execution.PollOnce | src/backend/flow_backend.rs:213-231 | returns nothing, a finished job that is then offered back, or the failure or panic that its job evaluates to; it returns nothing only if the completion of no submitted job can be seen |
| Execute.Execution.InFlightBounded | src/backend/flow_backend.rs:132-135 | with the stepped ordering no more jobs than workers are waiting or submitted |
| Execute.Execution.CollectFinished | src/backend/flow_backend.rs:212-233 | the inner loop keeps the state right, records each poll in the trace, and goes on until no result is left |
| Execute.Execution.Round | src/backend/flow_backend.rs:163-249 | one iteration: the step advances exactly if a job was handed out or finished, and its polls extend the trace |
| Execute.Execution.Run | src/backend/flow_backend.rs:163-252 | the loop ends with every job collected as evaluated, or with the failure or panic of the recursive evaluation, or unfinished after as many polls as there are ticks |
| Execute.CreateOrdering | src/backend/flow_backend.rs:130-136 | either orderer fails exactly without a topological order and otherwise starts with nothing handed out |
| Execute.Execute | src/backend/flow_backend.rs:139-258 | the result is right, for either ordering and every behaviour of the pool; a cycle is reported exactly when the search for a topological order, which is given, has found none |
| Execute.UnstalledFlowsSucceed | src/backend/flow_backend.rs:163-252 | once there have been two polls for every job and one for every stalled iteration, execution has succeeded exactly if every job evaluates to a value |
| Execute.ResponsiveFlowsSucceed | src/backend/flow_backend.rs:163-252 | so it has after k polls for every job and k more, if among every k polls in a row one could see the completion of a job in flight |
| Execute.CleanFlowsSucceed | src/backend/flow_backend.rs:163-252 | so it has once at twice as many polls as there are jobs the pool had room and had completed all it was given |
| Execute.SuccessesAgree | src/backend/flow_backend.rs:163-252 | two successful executions, with whatever orderings and pools, give every job the same output |
| Execute.OutputAfterSuccess | src/flow.rs:213-224 | after success the flow's output promise is ready with the value of its job |
| Pool.StepKeepsInv | src/sync/pool/inner_thread_pool.rs:112-341 | every atomic step keeps: the worker count is the workers not stopped, the reserved places and the failed spawns, at most the maximal size; and every task in one place |
| Pool.ScanContinues | src/sync/pool/inner_thread_pool.rs:104-110 | a worker found running counted as active when the scan began |
| Pool.RunningNeverExceedsMax | src/sync/pool/inner_thread_pool.rs:104-110 | in every run, with workers starting, stopping and panicking during the scan, its result is at most the maximal size |
| PoolCalls.ScanResult | src/sync/pool/inner_thread_pool.rs:104-110 | a scan reads every handle listed when it began, once, and its result is the number of those whose worker was running when its handle was read |
| PoolCalls.ScanBetween | src/sync/pool/inner_thread_pool.rs:104-110 | the result lies between the listed workers that were running all the time and those that ever were, and is at most the maximal size |
| PoolCalls.SubmissionOutcome | src/sync/pool/inner_thread_pool.rs:112-188 | a submission that has returned started a worker and listed it, or failed to, exactly if the counts it loaded said more tasks than workers and fewer workers than the maximal size |
| PoolCalls.ReservedWhenShort | src/sync/pool/inner_thread_pool.rs:112-123 | a place is reserved only on such counts, while the number of workers is still the one loaded |
| PoolCalls.StoppedOnExcess | src/sync/pool/inner_thread_pool.rs:146-176 | a worker that has stopped found more workers than tasks and than the core size, and took itself off a count that was still the one it loaded first |
| PoolCalls.StopsExactly | src/sync/pool/inner_thread_pool.rs:146-176 | a worker goes on to stop exactly on such counts, and retries exactly if the count has changed |
| Pool.StopNeverUnderflows | src/sync/pool/inner_thread_pool.rs:153-176 | the decrement of a stopping worker never takes the count below 0, however stale its loads |
| Pool.TasksRunOnce | src/sync/pool/inner_thread_pool.rs:261-326 | a task taken by a worker has not finished and is nowhere else, so it runs at most once, panics included |
| Pool.TasksConserved | src/sync/pool/inner_thread_pool.rs:179-327 | every submitted task is in exactly one of the injector, a deque, a worker's hands or finished, and a worker that has stopped has an empty deque |
| PoolTasks.TaskCount | src/sync/pool/inner_thread_pool.rs:179-188 | the count of tasks is that of those submitted and counted less those finished and taken off it |
| PoolTasks.CountReads | src/sync/pool/inner_thread_pool.rs:113-144 | a task count below 0 reads as a number greater than any of workers |
| PoolTasks.OldestFirst | src/sync/pool/inner_thread_pool.rs:253-278 | a worker takes the oldest task that waits in the injector, or in the deque it takes from, and keeps younger ones only |
| PoolTasks.WorkersAreListed | src/sync/pool/inner_thread_pool.rs:112-176 | a worker that has not left is listed from the moment on at which the thread that spawned it has listed it |
| PoolTasks.LeaverIsUnlisted | src/sync/pool/inner_thread_pool.rs:163-170 | a leaving worker removes its own handle and no other |
| PoolTasks.LeftForEver | src/sync/pool/inner_thread_pool.rs:120-170 | a worker that leaves after it has been listed is never listed again |
| PoolTasks.PanickedIsGone | src/sync/pool/inner_thread_pool.rs:312-324 | a worker whose task has panicked takes no other, ever |
| PoolTasks.EndedGoesOn | src/sync/pool/inner_thread_pool.rs:305-327 | a task is run, counted finished, taken off the count and reported, after which the worker looks for the next unless it panicked |
| JobRun.ChainDelivers | src/backend/job.rs:109-112 | for plain, no-input and funnelled jobs the chain of actions never blocks on a channel and applies the action once to the input sent |
| JobRun.BackendJob.Run | src/backend/job.rs:142-171 | one run fails the input check exactly if it takes input and has none or takes none and has some; otherwise it gives a not-ready input or the action's value for the assembled input; it never blocks, and leaves the channels empty |
| JobRun.BackendJob.MakeFunnel | src/backend/job.rs:174-215 | only single inputs; the stage added passes the funnel's elements on through the old channel |
| JobRun.CollectionThenFunnel | src/backend/job.rs:190-206 | a collection wired before the job became a funnel feeds the same elements, followed by what is funnelled in later |

## Left out

- petgraph: a topological order is what the search for one finds, given or absent; the transitive reduction is a
  concrete one that is proved right; node indices are positions in the topological order.
- crossbeam deques and channels, parking_lot locks and memory orderings: atomic steps on sequences and slots under
  sequential consistency.
- `TypeId`, downcasts and the zeroed unit input: `Data` is one type, and errors of type are not modelled.
- The panic of `execute` when starting a worker thread fails.
- The error a send to a dropped flow input gives, and reading the flow's output promise when none was set.
- Index arithmetic at the machine limit (`index + 1`, dependents + 1) and counters of jobs and tasks of that size.
- `NoOutput` jobs, flow construction from types (`JobReference`, `FlowsInto`), nicknames, listeners, tracing,
  printing, error text, builders, `Action` adapters, `Map`, `Just` and `Lazy`: they would add easy members only.
- OnceLock: initialisers that panic.
- Pool: wall-clock timing (a timeout is any step of an idle worker with an empty deque), dropping the pool, stealer
  registration, and liveness or keeping `core_size` workers, which do not hold for all runs.
- Bounds on the jobs in flight under the graph traversal ordering: there are none, because submissions that no
  worker has started are not counted as running.
- Coffman and Graham's ratio for the layering: the sort key differs from theirs.
- Wiring.Flow.UseTuple: a tuple with a disjoint output is an error here, where the code stops with `todo!`.
