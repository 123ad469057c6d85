# Verified models of SVF's solvers and of three LLVM utility scripts

The project models the algorithms of this repository that are hardest to get right, and proves what
they compute. Nine parts, each in its own modules:

- **Demand-driven points-to analysis** (`Svfg`, `Equations`, `Progress`, `DdaQueries`, `DdaBudget`,
  `DdaSolver`, `DdaExample`). A re-entrant recursive fixpoint over the sparse value-flow graph, with
  strong updates, a step budget and two caches. The solver is a class whose methods follow the
  source's; a query returns the least solution of the statement equations. An item that a query ran
  out of budget on is answered conservatively from then on, and later answers are the least solution
  given that. `Equations` spells out what the least solution holds at each kind of statement.
  `DdaBudget` says which budget no query exhausts.
- **Difference propagation** (`PointsToData`, `WaveDiff`, `WaveDriver`, `WaveTermination`,
  `WaveCorners`). The points-to data with its reverse index, the steps of the wave solver, and the
  driver, which merges copy cycles, sweeps over the nodes in topological order and then works off a
  worklist, round by round. Propagating differences computes the least solution of all constraints,
  and the driver always stops. It can nevertheless stop too early: merging a cycle may hand new
  targets to the loads of a merged node without queueing the representative.
  `WaveDriver.CoveredUnlessLost` says exactly when, `WaveCorners.MergeCanLoseWork` gives a program.
- **CFL traversal** (`Paths`, `CflTraversal`). A worklist without a visited set ends exactly when its
  source reaches no cycle, and has then processed exactly what is reachable.
- **Must-held locksets** (`Locksets`, `LockFixpoint`, `LockTermination`, `LockCorners`,
  `LockAnalysis`). The propagation ends in the greatest locksets that shrink along edges, except
  where a first mark from a source without locks leaves no entry behind: `LockCorners.BranchLock` is
  a program that ends with a lock too many. Releases never take a lock away, because what is looked
  up is the releasing statement. The propagation always ends: it would take acquires that follow each
  other directly in a circle to keep it running, and an acquire is a call inside a block.
- **Thread-alive flags** (`ForkJoin`, `ForkJoinFixpoint`, `ForkJoinTermination`, `ForkJoinCorners`,
  `ForkJoinAnalysis`). The propagation from one fork site ends in the least flags, with joins outside
  of loops killing the thread. Joins in loops overwrite the flags of the loop's exits. That can undo
  a flag that is justified, where the exit is also reached past the loop, and in code that is entered
  in the middle of cyclic control flow it can keep the analysis from ending: it ends exactly if, from
  some round on, no live exit is declared dead.
- **Case folding** (`CaseFolding`). The table compiler and the meaning of the code that it emits.
- **Mangled names** (`ItaniumNames`, `ItaniumPrinting`, `ItaniumScanning`). The parsers for the nested
  names of section 5.1 of the Itanium C++ ABI, with their regular expressions as scanning functions, a
  printer, and what each regular expression makes of any line.
- **Check lines** (`CheckLines`, `PrefixPruning`). Which prefixes are kept for the texts of a block,
  how a block is laid out line by line, and what each run then checks.
- **Conditional points-to sets** (`CondPointsTo`, `CondOrder`). Set operations on (condition, object)
  pairs, and the comparison.

`Worklists`, `Recurrence`, `FiniteSets` and `Wrappers` hold what several parts use: queues that refuse
what they hold, runs that never end, sizes of sets, and optional values.

Where the source updates fields, the model is a class whose methods are proved against functions on
values; the lemmas are about those functions. `hide` statements keep definitions that a proof does
not need out of it.

What the source takes for granted is stated as preconditions. The value-flow graph is well formed
(`Svfg.WellFormed`: definitions are unique, direct edges leave top-level statements), and the
conservative analysis speaks of its objects only (`Svfg.InRange`). That the conservative analysis
solves the statement equations (`Svfg.Sound`) is assumed only of answers after a query has run out of
budget. A statement does not both acquire and release (`LockFixpoint.WellFormed`). Methods that run a
worklist to its end require what makes it end: no cycle reachable from the source (`CflSolver`), exits
that are not lowered for ever (`AliveFlags`), which `ForkJoinTermination.CalmIsQuiet` derives from the
shape of the program, and acquires that are calls inside blocks (`LockSpans`), as the source asserts;
lemmas about runs of any length need none of these.

## Model

| member | source | states |
|---|---|---|
| DdaSolver.Solver.ComputePts | SVF-7.0.0/lib/DDA/FlowDDA.cpp:23-50 | a whole query: as long as no query has been given up, the answer is the least solution of the statement equations and every visited item holds its value in it; once one has, the same holds, with the items given up answered conservatively, if the conservative analysis solves the equations; a query given up leaves all other sets within the least solution it started from; in any case no cached set shrinks, at most `maxBudget` statements are evaluated, a budget of `Enough` suffices, and exactly the query's own items, or on exhaustion just the queried one, stay visited |
| DdaSolver.Solver.constructor | SVF-7.0.0/include/DDA/DDAVFSolver.h:37-39 | a new solver is at rest, with nothing visited or cached |
| DdaSolver.Solver.ResetQuery | SVF-7.0.0/include/DDA/DDAVFSolver.h:247-256 | a reset forgets the index and the load notes, zeroes the budget and leaves visited what `AfterReset` says |
| DdaSolver.Solver.ResetVisited | SVF-7.0.0/include/DDA/DDAVFSolver.h:258-265 | every recorded item that was not given up is un-visited; the assertion that it was visited holds each time |
| DdaSolver.Solver.HandleOutOfBudget | SVF-7.0.0/lib/DDA/FlowDDA.cpp:52-57 | a query out of budget is answered by the conservative analysis, and its item is the only one to be given up |
| DdaSolver.Solver.FindPT | SVF-7.0.0/include/DDA/DDAVFSolver.h:93-118 | re-entrant evaluation: it terminates by (room in all caches, unvisited items), visits and settles its item unless the budget is gone, returns the cached set and keeps every recorded item settled or undisturbed |
| DdaSolver.Solver.MarkVisited | SVF-7.0.0/include/DDA/DDAVFSolver.h:437-439 | marking records the item at its statement and changes nothing else |
| DdaSolver.Solver.TestOutOfBudget | SVF-7.0.0/include/DDA/DDAVFSolver.h:597-602 | the budget runs out exactly at step `maxBudget + 1`, and stays so within the query |
| DdaSolver.Solver.HandleSingleStatement | SVF-7.0.0/include/DDA/DDAVFSolver.h:122-184 | what is computed for a statement lies between its equation over what is visited and its equation over the bound |
| DdaSolver.Solver.StartFromPointer | SVF-7.0.0/include/DDA/DDAVFSolver.h:304-321 | the pointer operand of a load or store is queried at its definition |
| DdaSolver.Solver.HandleLoad | SVF-7.0.0/include/DDA/DDAVFSolver.h:141-147 | a load collects the contents of every tracked object its pointer may target |
| DdaSolver.Solver.HandleStore | SVF-7.0.0/include/DDA/DDAVFSolver.h:148-178 | a store collects the stored value and the old contents as the store equation demands |
| DdaSolver.Solver.HandleStoreTarget | SVF-7.0.0/include/DDA/DDAVFSolver.h:160-176 | each target adds its part of the store equation |
| DdaSolver.Solver.HandleStoreToObject | SVF-7.0.0/include/DDA/DDAVFSolver.h:161-173 | old contents are looked for unless the update is strong |
| DdaSolver.Solver.BacktraceToStoreSrc | SVF-7.0.0/include/DDA/DDAVFSolver.h:323-333 | the value operand of a store is queried at its definition |
| DdaSolver.Solver.BacktraceForObject | SVF-7.0.0/include/DDA/DDAVFSolver.h:141-176 | an object is looked for along the indirect edges on behalf of a load |
| DdaSolver.Solver.BacktraceAlongDirect | SVF-7.0.0/include/DDA/DDAVFSolver.h:289-300 | all direct in-edges are collected, and nothing else |
| DdaSolver.Solver.BacktraceAlongIndirect | SVF-7.0.0/include/DDA/DDAVFSolver.h:271-287 | all indirect in-edges guarded by the object are collected, and nothing else |
| DdaSolver.Solver.BackwardPropagate | SVF-7.0.0/include/DDA/DDAVFSolver.h:335-354 | one step adds the answer for one source item |
| DdaSolver.Solver.AddLoad | SVF-7.0.0/include/DDA/DDAVFSolver.h:559-587 | the load that looks for an object is noted; analysis facts are untouched |
| DdaSolver.Solver.UpdateCachedPointsTo | SVF-7.0.0/include/DDA/DDAVFSolver.h:457-463 | after a set grew, its item is settled and all that depends on it has been evaluated again |
| DdaSolver.Solver.UnionPts | SVF-7.0.0/include/DDA/DDAVFSolver.h:451-472 | the right one of the two caches grows by exactly the new objects; the flag tells whether it did |
| DdaSolver.Solver.ReCompute | SVF-7.0.0/include/DDA/DDAVFSolver.h:187-204 | every recorded item that the changed one feeds through an out-edge is up to date afterwards |
| DdaSolver.Solver.ReComputeAlong | SVF-7.0.0/include/DDA/DDAVFSolver.h:206-238 | the same along one edge |
| DdaSolver.Solver.EvaluateAgain | SVF-7.0.0/include/DDA/DDAVFSolver.h:206-238 | an item is un-visited, evaluated anew and settled |
| DdaSolver.Solver.ClearVisited | SVF-7.0.0/include/DDA/DDAVFSolver.h:443-447 | un-visiting finds the item visited and touches no other |
| Svfg.FlowMonotone | SVF-7.0.0/include/DDA/DDAVFSolver.h:122-184 | every statement equation is monotone, and only in the items whose change re-runs it |
| Svfg.StoreRuleMonotone | SVF-7.0.0/include/DDA/DDAVFSolver.h:360-372 | the strong-update rule is monotone in the set of targets |
| Svfg.FlowBounded | SVF-7.0.0/include/DDA/DDAVFSolver.h:122-184 | no equation leaves the universe of objects |
| Svfg.LeastSolves | SVF-7.0.0/include/DDA/DDAVFSolver.h:93-238 | the least solution solves the equations |
| Svfg.LeastBelow | SVF-7.0.0/include/DDA/DDAVFSolver.h:93-238 | ... and lies below every other solution |
| Svfg.LeastGrows | SVF-7.0.0/include/DDA/DDAVFSolver.h:606-612 | giving up more items only enlarges the least solution |
| Svfg.FallbackSolves | SVF-7.0.0/lib/DDA/FlowDDA.cpp:52-57 | the conservative analysis solves the equations, whatever was given up |
| Equations.LeastIsExact | SVF-7.0.0/include/DDA/DDAVFSolver.h:93-238 | the least solution holds exactly what each equation demands, no more |
| Equations.GivenUpValue | SVF-7.0.0/lib/DDA/FlowDDA.cpp:52-57 | an item that was given up holds the conservative set of its variable or object |
| Equations.PlainValues | SVF-7.0.0/include/DDA/DDAVFSolver.h:122-184 | ... which is the address taken, what comes in directly, the fields of what comes in, or what comes in for one object; all spelled out by the edges |
| Equations.LoadValue | SVF-7.0.0/include/DDA/DDAVFSolver.h:141-147 | a load holds what comes in for some object that its pointer may target, and nothing else |
| Equations.StoreValue | SVF-7.0.0/include/DDA/DDAVFSolver.h:148-178 | after a store, an object holds what was stored if it may be a target, and what it held before unless the pointer targets nothing or this one concrete object only |
| Equations.WeakUpdateKeeps | SVF-7.0.0/include/DDA/DDAVFSolver.h:360-372 | an array, heap, field-insensitive or recursive-local object keeps what comes in along every edge, even as the only target |
| Equations.StrongUpdateReplaces | SVF-7.0.0/include/DDA/DDAVFSolver.h:360-372 | any other object that is the only target holds what was stored and nothing else |
| Progress.AdvancesTransitive | SVF-7.0.0/include/DDA/DDAVFSolver.h:93-238 | nested runs compose: what one settled, a later one leaves settled |
| Progress.SettledOrRefines | SVF-7.0.0/include/DDA/DDAVFSolver.h:93-118 | after a nested run an item is settled, or nothing it reads has changed |
| Progress.AdvancesAfterGrowth | SVF-7.0.0/include/DDA/DDAVFSolver.h:187-238 | growing one set and re-running its dependants is progress |
| Progress.AdvancesFromCleared | SVF-7.0.0/include/DDA/DDAVFSolver.h:206-238 | un-visiting and re-evaluating an item is progress |
| Progress.GrowthSettles | SVF-7.0.0/include/DDA/DDAVFSolver.h:457-463 | an item whose set took in its equation is settled, even if its own re-evaluation was cut short |
| Progress.DirectStep | SVF-7.0.0/include/DDA/DDAVFSolver.h:289-300 | taking in one more direct edge keeps what the others contributed |
| Progress.IndirectStep | SVF-7.0.0/include/DDA/DDAVFSolver.h:271-287 | taking in one more indirect edge keeps what the others contributed |
| Progress.LoadStep | SVF-7.0.0/include/DDA/DDAVFSolver.h:141-147 | taking in one more object keeps what a load collected for the others |
| Progress.StoreStep | SVF-7.0.0/include/DDA/DDAVFSolver.h:148-178 | taking in one more target keeps what a store collected for the others, old contents included |
| Progress.AdvanceLeavesLess | SVF-7.0.0/include/DDA/DDAVFSolver.h:93-238 | no run enlarges the termination measure |
| Progress.RoomLess | SVF-7.0.0/include/DDA/DDAVFSolver.h:187-204 | the measure falls when a set grows, which is when items are un-visited |
| Progress.UnvisitedLess | SVF-7.0.0/include/DDA/DDAVFSolver.h:93-118 | ... and when an item is visited |
| Progress.ClosedIsLeast | SVF-7.0.0/include/DDA/DDAVFSolver.h:93-238 | items that are settled among themselves hold exactly their value in the least solution |
| DdaQueries.SettledSurvives | SVF-7.0.0/include/DDA/DDAVFSolver.h:247-256 | what earlier queries settled stays settled in later ones |
| DdaQueries.CompletedQuery | SVF-7.0.0/lib/DDA/FlowDDA.cpp:23-50 | a query within its budget leaves all visited items equal to the least solution |
| DdaQueries.AbandonedQuery | SVF-7.0.0/lib/DDA/FlowDDA.cpp:52-57 | a query given up leaves only its own item visited, with the conservative answer |
| DdaQueries.FallbackBounds | SVF-7.0.0/include/DDA/DDAVFSolver.h:606-612 | the least solution never exceeds the conservative analysis and equals it on given-up items |
| DdaQueries.AnswersAreSound | SVF-7.0.0/include/DDA/DDAVFSolver.h:93-238 | every answer lies between the exact solution and the conservative analysis |
| DdaExample.LeastHasB | SVF-7.0.0/include/DDA/DDAVFSolver.h:360-372 | on a program with two stores through one pointer, the least solution has the strong update |
| DdaBudget.PendingVisited | SVF-7.0.0/include/DDA/DDAVFSolver.h:93-118 | visiting an item leaves less that may still be evaluated |
| DdaBudget.PendingCleared | SVF-7.0.0/include/DDA/DDAVFSolver.h:443-447 | un-visiting an item adds at most one evaluation |
| DdaBudget.PendingGrown | SVF-7.0.0/include/DDA/DDAVFSolver.h:187-238 | a set that grows pays for evaluating every item again along every edge |
| DdaBudget.EnoughIs | SVF-7.0.0/include/DDA/DDAVFSolver.h:597-602 | the budget that suffices: items times objects times edges times items, and once the items |
| DdaExample.AskForX | SVF-7.0.0/lib/DDA/FlowDDA.cpp:23-50 | a query on that program: the exact answer, or the conservative one if the budget is too small, which one of `Enough` is not |
| PointsToData.DiffPtsData.AddPts | SVF-7.0.0/include/MemoryModel/PointsToDS.h:107-110 | `o` is in `pts(v)` iff `v` is in `revPts(o)` stays true; the flag tells whether the set grew |
| PointsToData.DiffPtsData.UnionPtsOf | SVF-7.0.0/include/MemoryModel/PointsToDS.h:111-114 | the same for the union with another variable's set |
| PointsToData.DiffPtsData.UnionPts | SVF-7.0.0/include/MemoryModel/PointsToDS.h:115-118 | the same for the union with a given set |
| PointsToData.DiffPtsData.AddRevPts | SVF-7.0.0/include/MemoryModel/PointsToDS.h:136-139 | the loop enters the variable for every object of the set |
| PointsToData.DiffPtsData.ComputeDiffPts | SVF-7.0.0/include/MemoryModel/PointsToDS.h:200-209 | the difference is what has not been propagated, all is then propagated, and the flag tells whether there is any |
| PointsToData.DiffPtsData.ComputeDiffs | SVF-7.0.0/include/MemoryModel/PointsToDS.h:200-209 | a series of calls for one variable yields `Diffs` of the sets found, which EachObjectOnce, DiffsDisjoint and DiffsComplete speak of |
| PointsToData.DiffPtsData.UpdatePropaPts | SVF-7.0.0/include/MemoryModel/PointsToDS.h:215-219 | the propagated set of the destination is cut to the intersection |
| PointsToData.DiffPtsData.ClearPropaPts | SVF-7.0.0/include/MemoryModel/PointsToDS.h:222-224 | clearing forgets what one variable propagated |
| PointsToData.DiffPtsData.AddCachePts | SVF-7.0.0/include/MemoryModel/PointsToDS.h:232-234 | the cache of one edge grows by the given set |
| PointsToData.EachObjectOnce | SVF-7.0.0/include/MemoryModel/PointsToDS.h:200-209 | over growing sets, an object is in the i-th difference iff the i-th call is the first to find it |
| PointsToData.DiffsDisjoint | SVF-7.0.0/include/MemoryModel/PointsToDS.h:200-209 | successive differences are pairwise disjoint |
| PointsToData.DiffsComplete | SVF-7.0.0/include/MemoryModel/PointsToDS.h:200-209 | successive differences and what was propagated before make up the last set |
| WaveDiff.DifferenceIsEnough | SVF-7.0.0/lib/WPA/AndersenWaveDiff.cpp:52-66 | if what a node has propagated has arrived, handing on the difference gives the successors the same sets as handing on everything |
| WaveDiff.MergeArrived | SVF-7.0.0/lib/WPA/AndersenWaveDiff.cpp:147-157 | after a merge that intersects the propagated sets, what is marked as propagated has still arrived everywhere |
| WaveDiff.PropagateKeeps | SVF-7.0.0/lib/WPA/AndersenWaveDiff.cpp:42-66 | handing on a difference keeps the invariants |
| WaveDiff.LoadKeeps | SVF-7.0.0/lib/WPA/AndersenWaveDiff.cpp:79-98 | handling the new targets of a load keeps the invariants |
| WaveDiff.StoreKeeps | SVF-7.0.0/lib/WPA/AndersenWaveDiff.cpp:103-122 | handling the new targets of a store keeps the invariants |
| WaveDiff.MergeKeeps | SVF-7.0.0/lib/WPA/Andersen.cpp:474-496 | merging a node into its representative keeps the invariants |
| WaveDiff.MergeHandled | SVF-7.0.0/lib/WPA/Andersen.cpp:474-496 | a merge leaves what was handled for edges that it does not touch, and edges that it redirects have nothing handled |
| WaveDiff.StepKeeps | SVF-7.0.0/lib/WPA/AndersenWaveDiff.cpp:42-157 | every step keeps: constraints are represented, propagated sets have arrived, handled targets are linked |
| WaveDiff.RunKeeps | SVF-7.0.0/lib/WPA/AndersenWaveDiff.cpp:42-157 | so does every run |
| WaveDiff.CycleEqual | SVF-7.0.0/lib/WPA/Andersen.cpp:305-349 | nodes on a copy cycle have the same set in every solution |
| WaveDiff.StepBelow | SVF-7.0.0/lib/WPA/AndersenWaveDiff.cpp:42-157 | no step leaves any solution of the constraints, merges of cycles included |
| WaveDiff.RunBelow | SVF-7.0.0/lib/WPA/AndersenWaveDiff.cpp:42-157 | so does no run |
| WaveDiff.FinishedIsLeast | SVF-7.0.0/lib/WPA/AndersenWaveDiff.cpp:42-157 | a run after which nothing is left to hand on or to handle has computed the least solution of all constraints |
| WaveDriver.CoveredUnlessLost | SVF-7.0.0/lib/WPA/Andersen.cpp:174-219 | an action keeps everything that needs work in the worklist, exactly unless it merges into a representative that gets unserved targets while neither node is queued |
| WaveDriver.SweepKeeps | SVF-7.0.0/include/WPA/WPASolver.h:92-103 | handing on the difference of the next node in topological order leaves the nodes before it without a difference |
| WaveDriver.SweptHandsOn | SVF-7.0.0/include/WPA/WPASolver.h:92-103 | after the sweep, no copy edge has a difference left to hand on |
| WaveDriver.StaysOnCourse | SVF-7.0.0/include/WPA/WPASolver.h:89-112 | each phase of a round establishes what the next one relies on; addresses stay entered, and sets grow while nodes are popped only if a new copy edge asks for another round |
| WaveDriver.DriveSound | SVF-7.0.0/lib/WPA/Andersen.cpp:68-110 | so does every run: the invariants of the steps and of the phases hold in every driver that is reached |
| WaveDriver.DriverIsExact | SVF-7.0.0/include/WPA/WPASolver.h:89-112 | a run of the driver that stops, and in which no merge loses work, ends in the least solution |
| WaveTermination.MergeReps | SVF-7.0.0/lib/WPA/Andersen.cpp:474-496 | a merge leaves fewer representatives |
| WaveTermination.NewCopy | SVF-7.0.0/include/WPA/Andersen.h:354-363 | a new copy edge leaves fewer to be added |
| WaveTermination.ActNearer | SVF-7.0.0/include/WPA/WPASolver.h:89-112 | every action lowers the measure: representatives, copy edges that can be added, stage of the round, nodes and targets left to handle |
| WaveTermination.DriverStops | SVF-7.0.0/lib/WPA/Andersen.cpp:77-97 | no sequence of actions goes on for ever |
| WaveTermination.OrderExists | SVF-7.0.0/include/WPA/WPASolver.h:92-96 | when no cycle is left to merge, the nodes have a topological order |
| WaveTermination.StuckIsStopped | SVF-7.0.0/lib/WPA/Andersen.cpp:77-97 | a driver can do nothing more iff its worklist is empty at the end of a round that added no copy edge |
| WaveCorners.MergeCanLoseWork | SVF-7.0.0/lib/WPA/Andersen.cpp:305-349 | the driver can stop with a load that was never carried out: a program of nine nodes whose copy cycle closes in the first round and is merged in the second |
| CflTraversal.RoundsSound | SVF-7.0.0/include/SABER/CFLSolver.h:85-117 | what is queued or processed is reachable, and successors of processed items are queued or processed |
| CflTraversal.EndedIsReachable | SVF-7.0.0/include/SABER/CFLSolver.h:85-117 | a traversal that ends, on any graph, has processed exactly what is reachable |
| CflTraversal.VisitLighter | SVF-7.0.0/include/SABER/CFLSolver.h:87-99 | visiting an item lowers the summed number of walks out of the queued items |
| CflTraversal.TerminatesIffCycleFree | SVF-7.0.0/include/SABER/CFLSolver.h:85-117 | the traversal ends iff its source reaches no cycle |
| CflTraversal.CflSolver.constructor | SVF-7.0.0/include/SABER/CFLSolver.h:61-63 | a solver starts with an empty worklist |
| CflTraversal.CflSolver.PushIntoWorklist | SVF-7.0.0/include/SABER/CFLSolver.h:141-143 | an item that is queued is refused; others go to the back |
| CflTraversal.CflSolver.PopFromWorklist | SVF-7.0.0/include/SABER/CFLSolver.h:138-140 | the front item is taken |
| CflTraversal.CflSolver.Propagate | SVF-7.0.0/include/SABER/CFLSolver.h:125-134 | all children are pushed in order |
| CflTraversal.CflSolver.ForwardTraverse | SVF-7.0.0/include/SABER/CFLSolver.h:85-99 | forwards, exactly the items that the source reaches are processed |
| CflTraversal.CflSolver.BackwardTraverse | SVF-7.0.0/include/SABER/CFLSolver.h:101-115 | backwards, exactly the items that reach the source are processed |
| CflTraversal.ForwardIffBackward | SVF-7.0.0/include/SABER/CFLSolver.h:85-117 | t is processed forwards from s iff s is processed backwards from t |
| Paths.DescendantsShrink | SVF-7.0.0/include/SABER/CFLSolver.h:87-99 | on an acyclic graph a successor has strictly fewer descendants |
| Paths.ReverseReaches | SVF-7.0.0/include/SABER/CFLSolver.h:101-115 | reachability in the inverse graph is reachability backwards |
| Locksets.AddRemoveExact | SVF-7.0.0/include/MTA/LockAnalysis.h:189-201 | adding and removing keep locksets and spans exact inverses |
| Locksets.RemoveIff | SVF-7.0.0/include/MTA/LockAnalysis.h:195-201 | removing takes the one pair out of both maps, if the lock was held, and changes nothing else |
| Locksets.MarkCovers | SVF-7.0.0/include/MTA/LockAnalysis.h:291-316 | marking keeps every statement in the spans of its locks |
| Locksets.MarkExactUnless | SVF-7.0.0/include/MTA/LockAnalysis.h:304-316 | marking keeps the inverse exact iff it takes no lock away |
| LockFixpoint.ReleaseIsDead | SVF-7.0.0/lib/MTA/LockAnalysis.cpp:313-315 | a release never finds itself in its lockset, so it propagates nothing |
| LockFixpoint.VisitUnfolds | SVF-7.0.0/lib/MTA/LockAnalysis.cpp:309-312 | an acquire always propagates when it is visited |
| LockFixpoint.RoundsSane | SVF-7.0.0/lib/MTA/LockAnalysis.cpp:287-330 | every run keeps: locks are visited acquires, holders hold what was held at the acquire, an acquire holds its own lock unless it waits, spans cover locksets |
| LockFixpoint.LocksetsShrink | SVF-7.0.0/include/MTA/LockAnalysis.h:291-316 | once touched, a lockset only shrinks, its own lock aside |
| LockFixpoint.MarkCoveredIff | SVF-7.0.0/include/MTA/LockAnalysis.h:293-298 | one mark keeps what edges demand iff it does not take a waiting statement without entry for a new one while the source holds locks |
| LockFixpoint.EndsInGreatest | SVF-7.0.0/lib/MTA/LockAnalysis.cpp:287-330 | a run that ends never ends below any assignment that shrinks along edges, and without such a mark ends in the greatest one |
| LockTermination.AlwaysAnswered | SVF-7.0.0/include/MTA/LockAnalysis.h:304-316 | an acquire that lacks a lock which a direct predecessor lacks too is still to be visited, or waits, or has been visited since |
| LockTermination.VisitBurden | SVF-7.0.0/lib/MTA/LockAnalysis.cpp:299-327 | unless it is robbed, a visited statement has less left to lose, and nobody else has more |
| LockTermination.NeverEndingTurns | SVF-7.0.0/lib/MTA/LockAnalysis.cpp:287-330 | a run that never ends comes to have such a circle |
| LockTermination.EndsIff | SVF-7.0.0/lib/MTA/LockAnalysis.cpp:299-327 | for an arbitrary graph of statements, more than programs give: the loop ends iff no circle of acquires that rob each other ever forms |
| LockTermination.NoChain | SVF-7.0.0/lib/MTA/LockAnalysis.cpp:121-125 | acquires, being calls inside blocks, never follow each other directly in a circle |
| LockTermination.Ends | SVF-7.0.0/lib/MTA/LockAnalysis.cpp:287-330 | on every program the analysis ends |
| LockCorners.BranchLock | SVF-7.0.0/include/MTA/LockAnalysis.h:293-298 | a lock taken on one of two branches of the same length ends up in the lockset where they meet |
| LockAnalysis.LockSpans.AddCxtStmtToSpan | SVF-7.0.0/include/MTA/LockAnalysis.h:189-192 | refines adding to lockset and span; the flag tells whether the lock is new |
| LockAnalysis.LockSpans.RemoveCxtStmtToSpan | SVF-7.0.0/include/MTA/LockAnalysis.h:194-201 | refines removing from both, creating the entry |
| LockAnalysis.LockSpans.TouchCxtStmt | SVF-7.0.0/include/MTA/LockAnalysis.h:204-206 | refines creating the entry |
| LockAnalysis.LockSpans.Intersect | SVF-7.0.0/include/MTA/LockAnalysis.h:304-316 | the two loops leave the intersection; the flag tells whether a lock was lost |
| LockAnalysis.LockSpans.MarkCxtStmtFlag | SVF-7.0.0/include/MTA/LockAnalysis.h:291-303 | refines the transfer function, lock by lock |
| LockAnalysis.LockSpans.PushToCtsWorkList | SVF-7.0.0/include/Util/WorkList.h:142-150 | the queue refuses what it holds |
| LockAnalysis.LockSpans.PopFromCtsWorkList | SVF-7.0.0/include/Util/WorkList.h:155-161 | the queue gives its front |
| LockAnalysis.LockSpans.MarkNext | SVF-7.0.0/lib/MTA/LockAnalysis.cpp:347-434 | refines marking every statement that control may reach next |
| LockAnalysis.LockSpans.VisitNext | SVF-7.0.0/lib/MTA/LockAnalysis.cpp:299-327 | refines one round of the driver |
| LockAnalysis.LockSpans.PushEntries | SVF-7.0.0/lib/MTA/LockAnalysis.cpp:289-296 | queues the entries in order |
| LockAnalysis.LockSpans.AnalyzeLockSpanCxtStmt | SVF-7.0.0/lib/MTA/LockAnalysis.cpp:287-330 | on every program the driver ends, in locksets no smaller than any that shrink along edges and, if no mark overlooked a path, in the greatest such ones |
| ForkJoin.MeetIsLub | SVF-7.0.0/include/MTA/MHP.h:363-379 | the transfer function takes the least upper bound in Empty, TDDead, TDAlive |
| ForkJoinFixpoint.VisitedAtMostTwice | SVF-7.0.0/include/MTA/MHP.h:356-379 | flags climb only, and a statement is visited at most twice, unless it is a join outside of loops or an exit that was lowered |
| ForkJoinFixpoint.RoundsBelow | SVF-7.0.0/lib/MTA/MHP.cpp:657-702 | no flag ever exceeds what the demands ask for |
| ForkJoinFixpoint.RoundsCovered | SVF-7.0.0/lib/MTA/MHP.cpp:657-702 | in every run, the demands of seeds, edges, joins and exits hold for all that does not wait, but for those on exits that were lowered |
| ForkJoinFixpoint.EndsBelowLeast | SVF-7.0.0/lib/MTA/MHP.cpp:657-702 | an analysis that ends meets all demands but those on exits it lowered, and no flag is above the least ones that meet all of them |
| ForkJoinFixpoint.EndsInLeast | SVF-7.0.0/lib/MTA/MHP.cpp:657-702 | if it lowered none, it has the least flags at or above the seeds and along all edges, joins killing the thread |
| ForkJoinFixpoint.LeastElsewhere | SVF-7.0.0/lib/MTA/MHP.cpp:657-702 | if it did, the flags are still the least ones at statements that no lowered exit leads to |
| ForkJoinFixpoint.RecordsAreLeast | SVF-7.0.0/include/MTA/MHP.h:284-300 | the records that order threads are kept for exactly the statements whose flag is dead in the end, joins outside of loops and lowered exits aside |
| ForkJoinFixpoint.RecordsIff | SVF-7.0.0/lib/MTA/MHP.cpp:692-722 | a statement, be it a join or a lowered exit, is recorded as alive iff some visit left it alive, and as dead iff some visit left it not alive |
| ForkJoinFixpoint.SetCoveredIff | SVF-7.0.0/lib/MTA/MHP.cpp:739-752 | declaring a loop exit dead keeps the demands iff it does not lower an exit that is a seed or follows a live statement which has handed its flag on |
| ForkJoinTermination.VisitUnfed | SVF-7.0.0/lib/MTA/MHP.cpp:674-698 | a round that does not visit a predecessor of a statement brings the statement's flag nearer to one that stays |
| ForkJoinTermination.VisitsPerFeed | SVF-7.0.0/lib/MTA/MHP.cpp:657-702 | any statement, joins and lowered exits included, is visited at most twice, and twice more for each visit of a statement before it |
| ForkJoinTermination.NeverEndingIsRestless | SVF-7.0.0/lib/MTA/MHP.cpp:657-702 | what a run that never ends visits again and again contains statements each of which follows another one and is an exit of a loop that joins among them |
| ForkJoinTermination.EndsIffQuiet | SVF-7.0.0/lib/MTA/MHP.cpp:657-702 | the analysis ends iff from some round on it lowers no exit |
| ForkJoinTermination.EndsUnlessLowered | SVF-7.0.0/lib/MTA/MHP.cpp:657-702 | in particular, it ends if it never lowers an exit |
| ForkJoinTermination.Ends | SVF-7.0.0/lib/MTA/MHP.cpp:657-702 | ... and on every program whose joining loops do not lead into each other as a run that never ends needs it |
| ForkJoinTermination.CalmIsQuiet | SVF-7.0.0/lib/MTA/MHP.cpp:657-702 | such a program meets what the driver requires |
| ForkJoinCorners.LoopExitLowered | SVF-7.0.0/lib/MTA/MHP.cpp:739-752 | a loop with a join, guarded by a branch past it, ends with a dead exit behind the live guard |
| ForkJoinCorners.SwapNeverEnds | SVF-7.0.0/lib/MTA/MHP.cpp:739-752 | two joining loops that exit into each other, in code entered by a switch, are visited for ever |
| ForkJoinAnalysis.AliveFlags.GetMarkedFlag | SVF-7.0.0/include/MTA/MHP.h:346-354 | a missing flag reads as Empty and gets an entry |
| ForkJoinAnalysis.AliveFlags.InitCxtStmtFlag | SVF-7.0.0/include/MTA/MHP.h:356-361 | refines overwriting a flag, queueing the statement on change |
| ForkJoinAnalysis.AliveFlags.MarkCxtStmtFlag | SVF-7.0.0/include/MTA/MHP.h:363-379 | refines the transfer function, queueing the statement on change |
| ForkJoinAnalysis.AliveFlags.ClearFlagMap | SVF-7.0.0/include/MTA/MHP.h:381-384 | all flags and the queue are dropped |
| ForkJoinAnalysis.AliveFlags.MarkNext | SVF-7.0.0/lib/MTA/MHP.cpp:777-847 | refines marking all successors |
| ForkJoinAnalysis.AliveFlags.VisitNext | SVF-7.0.0/lib/MTA/MHP.cpp:674-698 | refines one round, joins and records included |
| ForkJoinAnalysis.AliveFlags.AnalyzeForkJoinPair | SVF-7.0.0/lib/MTA/MHP.cpp:657-702 | unless it lowers exits for ever, the driver ends: never above the least flags, meeting all demands but those on lowered exits, in the least flags if none was lowered; every statement is recorded as alive or dead iff some visit left it so |
| CaseFolding.Mappings | llvm-7.0.0.src/utils/unicode-case-fold.py:29-42 | the table is read iff its sources strictly increase from zero up; otherwise an error is raised |
| CaseFolding.DumpBlock | llvm-7.0.0.src/utils/unicode-case-fold.py:60-93 | appends the code of one block |
| CaseFolding.RangeTest | llvm-7.0.0.src/utils/unicode-case-fold.py:80-93 | the range test of a block passes its sources and, in the bitwise form, characters it leaves unchanged |
| CaseFolding.RemainderTruncates | llvm-7.0.0.src/utils/unicode-case-fold.py:80-82 | the emitted remainder is smaller than the stride and has the sign of the character, as C++ has it |
| CaseFolding.DumpEval | llvm-7.0.0.src/utils/unicode-case-fold.py:60-93 | a block's code returns what the block folds a character to, or leaves the character to the code that follows |
| CaseFolding.EmittedFolds | llvm-7.0.0.src/utils/unicode-case-fold.py:60-117 | the cascade of all blocks folds like the table they were cut from |
| CaseFolding.MakeBody | llvm-7.0.0.src/utils/unicode-case-fold.py:95-117 | the loop cuts the table into blocks of one shift and one stride, none of which could have taken in the first entry of the next, and the emitted function folds exactly the sources, for every integer |
| CaseFolding.DumpIs | llvm-7.0.0.src/utils/unicode-case-fold.py:71-93 | the code of a block of several, by its first and last source, step and shift |
| CaseFolding.NotExtended | llvm-7.0.0.src/utils/unicode-case-fold.py:102-114 | a block that is closed for another shift or stride could not have taken the next entry in |
| CaseFolding.Generate | llvm-7.0.0.src/utils/unicode-case-fold.py:29-117 | from the lines of the database to the emitted function, errors included |
| CaseFolding.FoldAt | llvm-7.0.0.src/utils/unicode-case-fold.py:45-46 | the meaning of a table: a source folds to its target |
| CaseFolding.FoldElsewhere | llvm-7.0.0.src/utils/unicode-case-fold.py:60-117 | ... and every other character to itself |
| ItaniumNames.NumberIsGreedy | llvm-7.0.0.src/utils/extract_symbols.py:226 | the digit group is the longest that leaves a character for the second group |
| ItaniumNames.OperatorIsGreedy | llvm-7.0.0.src/utils/extract_symbols.py:238 | the operator group is the longest that leaves a character for the second group |
| ItaniumNames.ParseName | llvm-7.0.0.src/utils/extract_symbols.py:224-242 | a parsed name is not empty and leaves strictly less |
| ItaniumNames.SkipArgs | llvm-7.0.0.src/utils/extract_symbols.py:246-276 | skipping terminates on every string and leaves strictly less |
| ItaniumNames.ParseNames | llvm-7.0.0.src/utils/extract_symbols.py:296-318 | parsing terminates on every string and leaves strictly less |
| ItaniumNames.ParsersLeaveSuffix | llvm-7.0.0.src/utils/extract_symbols.py:246-318 | what is left of a line is a proper suffix of the argument, right behind an E |
| ItaniumNames.SkipItaniumTemplate | llvm-7.0.0.src/utils/extract_symbols.py:246-276 | the loop computes the recursive form, failures and exceptions included |
| ItaniumNames.ParseItaniumNestedName | llvm-7.0.0.src/utils/extract_symbols.py:280-318 | the loop computes the recursive form, failures and exceptions included |
| ItaniumPrinting.NamesRoundTrip | llvm-7.0.0.src/utils/extract_symbols.py:296-318 | printed components are read back, with what follows left over |
| ItaniumPrinting.ArgsRoundTrip | llvm-7.0.0.src/utils/extract_symbols.py:246-276 | printed template arguments are skipped, with what follows left over |
| ItaniumPrinting.NestedNameRoundTrip | llvm-7.0.0.src/utils/extract_symbols.py:280-318 | a printed nested name, with substitution and qualifiers, parses to its components and the untouched remainder |
| ItaniumPrinting.TemplateRoundTrip | llvm-7.0.0.src/utils/extract_symbols.py:246-276 | printed template arguments are skipped down to the untouched remainder |
| ItaniumScanning.SubstitutionIff | llvm-7.0.0.src/utils/extract_symbols.py:258 | a substitution is matched iff the text starts with `S`, capitals and digits, `_` and something more on the line, which is what is left |
| ItaniumScanning.QualifiersSkipped | llvm-7.0.0.src/utils/extract_symbols.py:293-295 | any run of `r`, `V`, `K`, `R`, `O` is skipped and nothing else; the last one is left if the line ends there |
| ItaniumScanning.NothingSkipped | llvm-7.0.0.src/utils/extract_symbols.py:285-295 | a nested name that starts with neither is parsed from its second character |
| ItaniumScanning.NumberedName | llvm-7.0.0.src/utils/extract_symbols.py:226-231 | a name with a number takes as many characters as it says, or as there are |
| ItaniumScanning.StructorIff | llvm-7.0.0.src/utils/extract_symbols.py:233-235 | a structor is `C` or `D`, then `1`, `2` or `3`, then something more on the line, which is what is left |
| ItaniumScanning.OperatorName | llvm-7.0.0.src/utils/extract_symbols.py:238-240 | any other name goes on up to the next `E`, or up to the last character |
| ItaniumScanning.NoNameIff | llvm-7.0.0.src/utils/extract_symbols.py:224-242 | a line has no name iff it has less than two characters or starts with `E` |
| ItaniumScanning.NameAndRest | llvm-7.0.0.src/utils/extract_symbols.py:224-242 | on one line, the name and what is left are the argument |
| ItaniumScanning.ExpressionIsTooComplex | llvm-7.0.0.src/utils/extract_symbols.py:268-269 | an expression among the arguments raises the exception |
| ItaniumScanning.InnerIsTooComplex | llvm-7.0.0.src/utils/extract_symbols.py:262-263 | ... and so does a template whose own arguments raise it |
| ItaniumScanning.EndlessFails | llvm-7.0.0.src/utils/extract_symbols.py:246-276 | arguments without an end fail |
| CheckLines.BreakDownChecked | llvm-7.0.0.src/utils/update_mca_test_checks.py:163-202 | whoever checks the common prefix and one prefix of a text checks exactly that text's lines, in order |
| CheckLines.PrefixGivesText | llvm-7.0.0.src/utils/update_mca_test_checks.py:163-202 | keeping the entries tagged with one prefix or common gives back that text |
| CheckLines.BreakDownEmptyIff | llvm-7.0.0.src/utils/update_mca_test_checks.py:166-190 | a block is not broken down iff some text differs from the first in the first line, or in any line while the first text has no prefix |
| CheckLines.CommonLines | llvm-7.0.0.src/utils/update_mca_test_checks.py:172-184 | what goes out under the common prefix is, in order, exactly the lines on which all texts agree |
| CheckLines.BreakDownOrdered | llvm-7.0.0.src/utils/update_mca_test_checks.py:177-202 | from one such line to the next, entries go out in ascending order of prefix |
| CheckLines.FlushedRises | llvm-7.0.0.src/utils/update_mca_test_checks.py:177-180 | a batch goes out in ascending order of prefix |
| CheckLines.FlushBatch | llvm-7.0.0.src/utils/update_mca_test_checks.py:177-180 | batches are flushed one prefix at a time in order |
| CheckLines.BatchLine | llvm-7.0.0.src/utils/update_mca_test_checks.py:193-197 | a line goes to the batch of every prefix of its text |
| CheckLines.BreakDownBlock | llvm-7.0.0.src/utils/update_mca_test_checks.py:143-202 | the loop computes the layout, sync points and bail-out included |
| PrefixPruning.KeptTellsApart | llvm-7.0.0.src/utils/update_mca_test_checks.py:289-324 | a prefix is kept for a text only if a run of that text has it and no run of another text does |
| PrefixPruning.KeptDisjoint | llvm-7.0.0.src/utils/update_mca_test_checks.py:289-324 | two texts of a block keep no common prefix |
| PrefixPruning.CoveredIff | llvm-7.0.0.src/utils/update_mca_test_checks.py:289-324 | a run has a kept prefix iff its pruned set is not empty |
| PrefixPruning.SharedKeepsOne | llvm-7.0.0.src/utils/update_mca_test_checks.py:303-310 | a prefix shared by all runs of a text makes it the only one kept |
| PrefixPruning.KeptIff | llvm-7.0.0.src/utils/update_mca_test_checks.py:289-324 | what is kept is the first of the prefixes that all runs of the text, and no run of another, have; if there is none, the first prefix of each of its runs that no run of another text has |
| PrefixPruning.CommonNotKept | llvm-7.0.0.src/utils/update_mca_test_checks.py:294-301 | the prefix common to all runs is kept for no text of several |
| PrefixPruning.OtherPrefixes | llvm-7.0.0.src/utils/update_mca_test_checks.py:297-300 | the prefixes of all other texts are collected |
| PrefixPruning.KeptPrefixes | llvm-7.0.0.src/utils/update_mca_test_checks.py:307-322 | the shared prefixes, or failing that each set, give their first one |
| PrefixPruning.PruneBlock | llvm-7.0.0.src/utils/update_mca_test_checks.py:289-324 | computes the kept prefixes of every text, in order |
| PrefixPruning.RunChecksItsText | llvm-7.0.0.src/utils/update_mca_test_checks.py:143-340 | after pruning and breaking down, a run with one kept prefix checks its text and nothing else |
| PrefixPruning.RunChecksItsTextIff | llvm-7.0.0.src/utils/update_mca_test_checks.py:143-340 | ... and if the texts differ, only such a run does |
| PrefixPruning.KeepsOneIff | llvm-7.0.0.src/utils/update_mca_test_checks.py:303-322 | a run keeps exactly one prefix iff its pruned set is not empty and, unless all runs of the text share a prefix, the first prefix of no other pruned set is in it besides its own first one |
| PrefixPruning.PairwiseKeepsTwo | llvm-7.0.0.src/utils/update_mca_test_checks.py:303-322 | three runs that share prefixes pairwise: one of them keeps two |
| CondPointsTo.CondPointsToSet.UnionWith | SVF-7.0.0/include/MemoryModel/ConditionalPT.h:511-523 | union of pairs; true iff the pairs changed; entries are created for all conditions of the operand |
| CondPointsTo.CondPointsToSet.IntersectWith | SVF-7.0.0/include/MemoryModel/ConditionalPT.h:474-500 | intersection of pairs; true iff the pairs changed |
| CondPointsTo.CondPointsToSet.Subtract | SVF-7.0.0/include/MemoryModel/ConditionalPT.h:455-471 | difference of pairs |
| CondPointsTo.CondPointsToSet.StoreDifference | SVF-7.0.0/include/MemoryModel/ConditionalPT.h:428-452 | the whole map that is stored, whichever of the three sets coincide |
| CondPointsTo.DifferenceIff | SVF-7.0.0/include/MemoryModel/ConditionalPT.h:428-452 | the stored map stands for the difference iff an operand has no entries or the receiver held no other condition with objects |
| CondPointsTo.DifferenceOnCleared | SVF-7.0.0/include/MemoryModel/ConditionalPT.h:428-452 | on a cleared receiver it always does |
| CondPointsTo.CondPointsToSet.NumElement | SVF-7.0.0/include/MemoryModel/ConditionalPT.h:321-332 | the number of pairs |
| CondPointsTo.CondPointsToSet.IsEmpty | SVF-7.0.0/include/MemoryModel/ConditionalPT.h:334-336 | no pairs, though there may be entries |
| CondPointsTo.CondPointsToSet.Clear | SVF-7.0.0/include/MemoryModel/ConditionalPT.h:316-318 | no entries |
| CondPointsTo.CondPointsToSet.TestAndSet | SVF-7.0.0/include/MemoryModel/ConditionalPT.h:573-576 | adds a pair; true iff it is new |
| CondPointsTo.CondPointsToSet.Test | SVF-7.0.0/include/MemoryModel/ConditionalPT.h:577-583 | whether a pair is in the set |
| CondPointsTo.CondPointsToSet.Reset | SVF-7.0.0/include/MemoryModel/ConditionalPT.h:588-593 | removes a pair and no entry |
| CondPointsTo.CondPointsToSet.Aliased | SVF-7.0.0/include/MemoryModel/ConditionalPT.h:366-383 | whether two sets share a pair |
| CondPointsTo.CondPointsToSet.IsSubset | SVF-7.0.0/include/MemoryModel/ConditionalPT.h:386-404 | pairs and entries are contained |
| CondOrder.LessThan | SVF-7.0.0/include/MemoryModel/ConditionalPT.h:533-569 | the nested loops return true iff the left operand has fewer entries, or as many and at the first entries that differ the smaller condition, fewer objects, or the smaller first object that differs |
| CondOrder.ListBelowIff | SVF-7.0.0/include/MemoryModel/ConditionalPT.h:537-566 | the entry-by-entry comparison decides at the first entries that differ: the smaller condition, then fewer objects, then the smaller first object that differs |
| CondOrder.LessIff | SVF-7.0.0/include/MemoryModel/ConditionalPT.h:533-569 | a set with fewer conditions is less; of two with as many, the one whose listing is below |
| CondOrder.Equals | SVF-7.0.0/include/MemoryModel/ConditionalPT.h:348-361 | the loop compares entry by entry |
| CondOrder.LessIsTotal | SVF-7.0.0/include/MemoryModel/ConditionalPT.h:533-569 | given a strict total order on conditions, exactly one of a < b, a == b, b < a holds for all sets |
| CondOrder.LessIsTransitive | SVF-7.0.0/include/MemoryModel/ConditionalPT.h:533-569 | the comparison is transitive |
| CondOrder.EntriesInjective | SVF-7.0.0/include/MemoryModel/ConditionalPT.h:348-361 | sets with the same listing are the same map |
| CondOrder.ListedAscends | SVF-7.0.0/include/MemoryModel/ConditionalPT.h:258-260 | listings are in ascending order |
| CondOrder.EntriesAscend | SVF-7.0.0/include/MemoryModel/ConditionalPT.h:258-260 | so are the entries of a set, by condition, and the objects of each entry |

## Left out

- Growth of the call graph during a demand-driven query, context sensitivity and the test for must
  aliases: the graph is fixed, every edge condition holds, and no load must alias a store.
- Fields in the demand-driven solver are a fixed map from objects to field objects per statement;
  the arithmetic of offsets is not modelled. In the wave solver there are no field edges, and no
  objects are collapsed.
- Growth of the call graph between rounds of the wave solver. The order in which nodes leave the
  worklist, and the order in which the loads and stores of a node are handled: every order is
  covered.
- WaveDriver.DriverIsExact: does not say that a run that loses work ends with a wrong result,
  because work that is lost can be made up for when the representative is queued later; which
  merges lose work is exact in CoveredUnlessLost.
- LockFixpoint.EndsInGreatest: does not say that a run with an overlooked path ends with a wrong
  result, because another path may take the lock away again; which marks break a demand is exact
  in MarkCoveredIff.
- ForkJoinTermination.Ends: the condition on the program is sufficient only; which runs end is exact
  in EndsIffQuiet.
- ForkJoinFixpoint.VisitedAtMostTwice: has no fixed bound for joins outside of loops and for lowered
  exits, which are visited again for every live predecessor; VisitsPerFeed bounds them by that.
- ForkJoinFixpoint.RecordsAreLeast: does not cover joins and lowered exits, which stay in the records
  of their earlier flags; what is recorded for them is exact in RecordsIff.
- The branch of `handleJoin` for a join in a loop that scalar evolution does not match with the fork
  (SVF-7.0.0/lib/MTA/MHP.cpp:750-751): it is never taken, because `isAliasedForkJoin`, which guards
  it, demands the match already.
- The handlers of calls, returns, forks and branches: the statements they mark are given as a
  successor list per statement. The collection of locks and of candidate functions is not
  modelled.
- Thread pairs: the records of statements visited alive and dead are modelled, not their grouping by
  thread, nor the interleaving analysis built on them.
- Alias queries between locks, and protection by common locks or spans.
- CondStdSet::operator&=, CondPtsSetIterator and LockAnalysis::intersects, which do not do what their
  names say.
- CondPointsTo.CondPointsToSet.NumElement: does not model the width of the counter; object
  identifiers are unbounded as well.
- CaseFolding.Generate: emits tests as values, not as text. The emitted function's integers are
  unbounded; it only returns its argument or a target of the table, so no sum can overflow that
  fits the table.
- Prefixes are numbers in the place of strings, in alphabetical order; lines are compared as given,
  and the splitting of tool output into blocks is not modelled.
- ItaniumNames.ParseName: digits are the ten ASCII digits, as for byte strings.
- The printers cover source names, constructors and destructors, and the argument forms that the
  skipper distinguishes; operator names are read imprecisely by the source and are not printed.
- Memory release, statistics, timing, debug output, files, the network and subprocesses.
- The remaining scripts and the headers of CUDD.
