# Train control system: models and proofs

A Dafny model of the algorithmic core of a microkernel and of the train-control programs that run on it. The
repository's C code that changes state is modelled by classes, arrays and loops. Each loop and each state-changing
method is proved against a specification that is much simpler than the code, and the specifications are then related
to each other by lemmas over all inputs, all runs and all reachable states.

To verify the project, run this in its directory:

    dafny verify --verification-time-limit 0 dfyconfig.toml

## What is modelled

**Track and routes.** `Track` holds the layout as a graph: sensors, branches, merges and exits, with a leg ahead and,
at a branch, a curved one. A `Net` is that graph for one leg search, with blocked nodes and pinned switches. The
specification of everything in the route planner is `IsDistance`: the least cost of any node-by-node path.

* `SegmentCache`, `FreeTrack` and `FreeTable` are the precomputation. A Dijkstra that only ever expands the start and
  the branches fills an all-pairs table with exact node-by-node distances. For every start, the sensors are listed by
  (distance, index).
* `Labels` holds the invariant that this Dijkstra and the A* share. Labels are costs of real simple paths that follow
  `prev`, and every edge out of a settled or passed node is relaxed, but for the one edge that a walk is looking at.
* `AStarSpec` gives one leg search as a function and proves that it is exact and that its bound does not influence its
  labels. `AStar` is the code itself, with its label arrays, its static heap buffers, packed 32-bit keys and bit-set
  prefilter, and equals that function step by step.
* `Driving` says what a leg search means on the track itself, with literal letters and legs: which way a train can drive
  on from each node under the pins, how far a drive is, and what the labels along a found drive are.
* `Plan` turns labels into node lists and switch lists and does the path sum and the clearance test.
* `RouteSpec` defines what an unpruned search would choose from: every direct plan and every single-reversal plan, for
  the target and its reverse. `RoutePlanner` is the branch-and-bound over it, with its sorted candidate list, its
  thresholds and its early exits, and returns exactly the one plan that beats all others. `RouteAnswers` says what such
  an answer is worth to the caller: a plan that can be driven leg by leg, with the switch settings each leg needs, and
  no better drive or turn. `BootstrapRoom` says when the bootstrap search leaves the room for braking that its header
  promises.

**Yielding and deadlock.** `YieldPick` merges two sensor lists that are each sorted by a different distance into one
list sorted by the smaller of both, and picks a yield target from it. `Deadlock` builds the wait graph on bit masks,
closes it in place and reports a train's wait cycle or the stopped trains in its way. `DeadlockFleet` says what that
answer means for the fleet: round trips of trains that hold each other up, and which trains drop out at the cap.

**Kernel.** `KernelModel` and `KernelSteps` give every system call and interrupt as a function on the whole kernel
state; `KernelRuns` follows them over whole runs from boot, `KernelParents` says whom a task is told to be its
parent, `KernelEffects` says all that one dispatch can do to any task's buffers and books, and `KernelReceipts` shows
that a reply always follows the reception of its message. `KernelCalls`, `KernelMessages`, `KernelExits` and
`KernelSignals` are the calls as a caller sees them, written out one by one and proved of every dispatch: the changed
task records, the value returned, who joins which ready list in which order, every other queue, and who runs next.
Every queue is a chain through one `next` field, and history variables record sends, completions, letters, queue
traffic and interrupts. `KernelLists` is the pointers themselves (heads, tails and one shared `next` array) and
`KernelTable` the task table; each dispatch of theirs is one step of the state machine.

**Servers and games.** `MinHeap` is the array heap that the planner and the clock server share. `ClockServer`,
`RingBuffer`, `TerminalModel`, `TerminalReplies`, `TerminalCalls`, `Terminal`, `GameEvents` and `GameScore` are the
clock server, the ring buffer macros, the terminal server and what it tells its callers, the event log and the scoring
of whole games. `TravelTime` is the integer square root and the launch time.

### What the source demands of its inputs

* The track has 5 to 256 nodes, legs are 0 to 32767 mm long, the two legs of a branch lead to different nodes, and
  every cycle contains a branch (`Track.WellFormed`). Then no f-cost reaches 2^24, so the packed keys never overflow;
  this is proved, not assumed.
* The sums of `2 * d_brake` and leg lengths that a planning call can form fit 32 bits, and none equals the "no plan yet"
  value (`RouteSpec.SumsFit`); C leaves an overflow undefined. On every track this holds for a `d_brake` between
  -1065000000 and 1065000000 mm (`RouteSpec.PenaltyFits`). The bootstrap search does not use `d_brake`.
* Clock: no tick or wake tick exceeds 2^31 - 1. Events: fewer than 2^32 - 1 are published, and there is no reset.
* Deadlock masks have eight bits, so at most eight trains.

### Where the code is not what it is meant to be

* `bfs_find_bootstrap_midrev` promises a second leg of at least `d_brake` (`include/user/train_tracking/route_priv.h:110-114`)
  and never reads it. `BootstrapRoom.RoomExactly` gives the exact condition: the room is there for every track and every
  request exactly if `d_brake` is at most the minimum distance the caller passes, or not positive, or the minimum
  distance is longer than any leg. `BootstrapRoom.ShortLoopExample` is a five-node track where it is missing for the
  minimum distance 0, which `pos_evaluate_target_short_ready_now` passes.
* Three guards in the A* main loop, for an unreachable node, an unreachable goal and a node beyond the bound, never
  fire, and its last test never finds a goal that the loop did not settle. `AStar.RoundFacts` and `AStar.UnfoundLabel`
  prove this.

The product under the root in `attr_travel_time_from_launch_us` can wrap at 64 bits, and `TravelTime.MonotoneExactly`
says for which arguments the time is then not monotone (`TravelTime.DropExample` is a pair). The program never has such
arguments: with the speeds and accelerations of its own table the time is non-decreasing over all distances
(`TravelTime.TableMonotone`).

## Model

| member | source | states |
|---|---|---|
| SegmentCache.PackBlocked | src/user/train_tracking/route/route_search_cache.c:34-42 | the packed words hold exactly the blocked nodes |
| SegmentCache.Intersects | src/user/train_tracking/route/route_search_astar.c:12-18 | true exactly when some word of both sets shares a bit |
| SegmentCache.NoSharedWord | src/user/train_tracking/route/route_search_astar.c:68-77 | a node in both sets shows up as a common bit, so the prefilter never misses a blocked node |
| SegmentCache.WalkSegment | src/user/train_tracking/route/route_search_cache.c:175-190 | the walk lists every node up to the next branch or exit, with running distances and its bit set |
| SegmentCache.PrecomputeSegments | src/user/train_tracking/route/route_search_cache.c:153-193 | every node and direction has its exact segment cached |
| MinHeap.SwapUp | src/kernel/min_heap.c:43-60 | swapping a too small node with its parent moves the only place out of order up |
| MinHeap.SwapDown | src/kernel/min_heap.c:63-97 | swapping a too large node with its smaller child moves the only place out of order down |
| MinHeap.RootIsLeast | src/kernel/min_heap.c:113-132 | in an ordered heap the root is a least key |
| MinHeap.MinHeap.Insert | src/kernel/min_heap.c:99-111 | keeps heap order and adds exactly one pair; refuses when full |
| MinHeap.MinHeap.Pop | src/kernel/min_heap.c:113-128 | keeps heap order and removes exactly one pair, which has a least key |
| MinHeap.MinHeap.TopKey | src/kernel/min_heap.c:130-132 | a least key that is present |
| Labels.ImprovedNode | src/user/train_tracking/route/route_search_cache.c:108-129 | a strict improvement never reaches a settled node or the start and never closes a cycle |
| Labels.RelaxKeeps | src/user/train_tracking/route/route_search_astar.c:57-98 | one relaxation improves a node and moves the open edge on, or changes nothing |
| Labels.ExpandKeeps | src/user/train_tracking/route/route_search_astar.c:160-172 | settling and expanding a node with a final label keeps all labels costs of real simple paths and all edges relaxed |
| Labels.Frontier | src/user/train_tracking/route/route_search_cache.c:60-74 | on any path from the start the last label is no worse than the path, or an unsettled start or branch on it is |
| FreeTrack.CollectBranches | src/user/train_tracking/route/route_search_cache.c:243-253 | lists every branch |
| FreeTrack.PickNearest | src/user/train_tracking/route/route_search_cache.c:60-74 | a nearest unsettled start or branch, or none is reachable |
| FreeTrack.ExpandFree | src/user/train_tracking/route/route_search_cache.c:76-130 | walking both legs relaxes every edge that settling the node had opened |
| FreeTrack.AllFinal | src/user/train_tracking/route/route_search_cache.c:52-132 | with no pending branch left every label, also of nodes never expanded, is a node-by-node shortest distance |
| FreeTrack.RunFrom | src/user/train_tracking/route/route_search_cache.c:134-151 | terminates with the shortest node-by-node distance of every node, DIJK_INF exactly where there is no path |
| FreeTable.InsertSensor | src/user/train_tracking/route/route_search_cache.c:214-237 | the row stays sorted by (distance, index) and gains exactly one sensor |
| FreeTable.SortRow | src/user/train_tracking/route/route_search_cache.c:214-240 | each physical sensor the start reaches, once, by (distance, index) |
| FreeTable.RouteTables.constructor | src/user/train_tracking/route/route_search_cache.c:195-241 | the table holds all-pairs shortest distances, with every start's sorted sensors |
| AStarSpec.KeyOrder | src/user/train_tracking/route/route_search_astar.c:35-38 | packed keys compare like (f-cost, node) and unpack without loss |
| AStarSpec.Consistent | src/user/train_tracking/route/route_search_cache.c:195-212 | the free-track table is a consistent heuristic under any blocked nodes and pinned switches |
| AStarSpec.PushKeeps | src/user/train_tracking/route/route_search_astar.c:40-55 | a push keeps every node that can still matter in the open list under its current cost |
| AStarSpec.WalkPushes | src/user/train_tracking/route/route_search_astar.c:57-98 | walking one segment pushes at most two entries |
| AStarSpec.OpenFits | src/user/train_tracking/route/route_search_astar.c:40-55 | the open list never holds more than 4N+1 entries, so the insertion into the N*N heap cannot fail |
| AStarSpec.PopsLeast | src/user/train_tracking/route/route_search_astar.c:130-149 | a popped unsettled node carries its current cost, and none that waits has a smaller one |
| AStarSpec.PoppedIsFinal | src/user/train_tracking/route/route_search_astar.c:130-158 | its label is the shortest distance |
| AStarSpec.ExpandRoundKeeps | src/user/train_tracking/route/route_search_astar.c:130-173 | a round of the main loop keeps the invariant of the search |
| AStarSpec.RunFinds | src/user/train_tracking/route/route_search_astar.c:130-176 | from any state of the search the goal is settled exactly when it can be reached within the bound |
| AStarSpec.LegSearch | src/user/train_tracking/route/route_search_astar.c:100-177 | for every query: settled goal, true shortest distance and a faithful predecessor tree, or no path within the bound |
| AStarSpec.RunSame | src/user/train_tracking/route/route_search_astar.c:130-173 | two searches that differ only in a bound the goal fits stay in step to the end |
| AStarSpec.BoundIndependent | src/user/train_tracking/route/route_search_astar.c:40-55 | any two bounds at or above the optimum give the same settled order and the same labels |
| AStarSpec.LegUnbounded | src/user/train_tracking/route/route_search.c:367-404 | a successful bounded search ends with the labels of the unbounded one, so the clearance test does not depend on the best total so far |
| LabelStore.LabelArrays.Reset | src/user/train_tracking/route/route_search_astar.c:20-33 | the arrays hold the initial labels |
| LabelStore.LabelArrays.Lower | src/user/train_tracking/route/route_search_astar.c:80-84 | the arrays hold the relaxed labels |
| AStar.SegmentSearch.constructor | src/user/train_tracking/route/route_search_cache.c:243-253 | segments and table are exact for the layout |
| AStar.SegmentSearch.PushOpen | src/user/train_tracking/route/route_search_astar.c:40-55 | the heap gains exactly the entry of the specification; the assertion on the insertion holds |
| AStar.PrefilterExact | src/user/train_tracking/route/route_search_astar.c:68-77 | a node that passes the guard of the walk is not barred, whether or not it was looked up |
| AStar.SegmentSearch.ExpandSegment | src/user/train_tracking/route/route_search_astar.c:57-98 | labels and heap end as by a node-by-node walk of the graph, with at most two pushes |
| AStar.SegmentSearch.ExpandNode | src/user/train_tracking/route/route_search_astar.c:160-172 | a pinned branch is expanded in one direction, another in both; Driving.AnswerMeans says which one |
| AStar.BarredGoal | src/user/train_tracking/route/route_search_astar.c:122 | a blocked goal is out of reach |
| AStar.FarGoal | src/user/train_tracking/route/route_search_astar.c:123 | a goal that free track does not reach is out of reach under any constraints |
| AStar.RoundFacts | src/user/train_tracking/route/route_search_astar.c:137-146 | the guards of the main loop that skip a fresh node never fire, and the heap has room for a round |
| AStar.UnfoundLabel | src/user/train_tracking/route/route_search_astar.c:175-176 | the final test never succeeds for a goal the loop has not settled |
| AStar.SegmentSearch.SearchLoop | src/user/train_tracking/route/route_search_astar.c:130-173 | the loop terminates with the labels of the specification |
| Driving.DriveIsPath | src/user/train_tracking/route/route_search_astar.c:154-172 | the paths of the search graph are exactly the drives: ahead, or by the leg a branch is pinned to ('S' straight, 'C' curved), or by either leg; never into a blocked node but the start |
| Driving.MileageIsCost | src/user/train_tracking/route/route_search_astar.c:57-98 | the cost of a path is the sum of the lengths of the legs driven |
| Driving.WithinMeans | src/user/train_tracking/route/route_search_astar.c:100-125 | the condition for success is that a drive to the goal is no longer than the bound |
| Driving.AnswerMeans | src/user/train_tracking/route/route_search_astar.c:57-98 | after success: a shortest drive without a repeated node, on which each label is the distance so far, the node before and the number and letter of the branch just passed, and each pinned branch is left by the pinned leg |
| Driving.FreeMeans | src/user/train_tracking/route/route_search_cache.c:195-212 | an entry of the free-track table is the length of a shortest drive with nothing blocked or pinned, DIJK_INF exactly if there is none |
| AStar.SegmentSearch.SearchLeg | src/user/train_tracking/route/route_search_astar.c:100-177 | returns 1 exactly when some drive that keeps the pins and avoids blocked nodes fits the bound; then its labels are those of the unbounded search and lead back along a shortest drive, whose every pinned branch is left by the leg of its letter and recorded with it |
| Plan.PrevStep | src/user/train_tracking/route/route_search.c:25-51 | prev leads to the node before the last of a node's own path |
| Plan.ReconstructNodes | src/user/train_tracking/route/route_search.c:25-51 | the nodes of that path in travel order, cut to the array's size |
| Plan.ReconstructSwitches | src/user/train_tracking/route/route_search.c:53-84 | the label, and the last 20 branch crossings of the path with their directions in travel order |
| Plan.LinkSumIsCost | src/user/train_tracking/route/route_follow.c:11-27 | on a real path the sum of the links is the cost of the path |
| Plan.PathDistFrom | src/user/train_tracking/route/route_follow.c:11-27 | the link sum of the rest of the path; -1 exactly if two nodes are not joined |
| Plan.HasBranchClearance | src/user/train_tracking/route/route_search.c:109-131 | true exactly if 250 mm lie before the first branch, or there is none and the path is intact |
| Plan.FaithfulRoute | src/user/train_tracking/route/route_search.c:167-187 | a found goal's path is simple, follows real edges, and its link sum is the reported shortest distance |
| InsertionOrder.SiftedAscends | src/user/train_tracking/route/route_search.c:274-289 | sifting a new entry into a sorted list gives a sorted list |
| InsertionOrder.SiftedBag | src/user/train_tracking/route/route_search.c:277-288 | sifting adds exactly the new entry: none is lost or repeated |
| InsertionOrder.Sift | src/user/train_tracking/route/route_search.c:277-288 | the shifting loop does that in place |
| InsertionOrder.SortPrefix | src/user/train_tracking/route/route_search.c:274-289 | the candidates come out sorted by (lower bound, index), the same ones, each as often |
| RouteSpec.GoesIffConnected | src/user/train_tracking/route/route_search.c:321-336 | a leg can be travelled exactly when its ends are connected in the constrained graph |
| RouteSpec.LegFound | src/user/train_tracking/route/route_search.c:167-187 | a leg's path is a real simple path of exactly the leg's shortest length |
| RouteSpec.LegUnder | src/user/train_tracking/route/route_search.c:133-137 | a bounded leg search fails only where the leg is longer than its bound or there is none |
| RouteSpec.FreeIsLower | src/user/train_tracking/route/route_search_cache.c:44-50 | the free-track distance is a lower bound of any constrained leg |
| RouteSpec.PenaltyFits | src/user/train_tracking/route/route_search.c:351-404 | on every track, twice a d_brake of up to 1065000000 mm and the lengths of any two legs sum up within 32 bits |
| RouteSpec.TotalRange | src/user/train_tracking/route/route_search.c:189-237 | where the sums fit, no plan's total equals the "no plan yet" marker, and what a best total leaves over for two legs fits too |
| RouteSpec.BeatsIsLexicographic | src/user/train_tracking/route/route_search.c:139-165 | the comparison is the strict total order of (total, target order, direct first, reversal index) |
| RouteSpec.OptimalUnique | src/user/train_tracking/route/route_search.c:139-165 | at most one plan beats all others |
| RouteSpec.OptimalPlanIsReal | src/user/train_tracking/route/route_search.c:301-418 | the chosen plan's legs are real shortest paths, sum up to its total, keep the thresholds and the clearance, and no plan of an unpruned search is shorter |
| RouteSpec.CandidateBound | src/user/train_tracking/route/route_search.c:239-272 | every sensor that gives a plan is a candidate, and its lower bound is at most the plan's total |
| RouteSpec.DirectHopeless | src/user/train_tracking/route/route_search.c:321-336 | a direct leg not found within the best total cannot win |
| RouteSpec.FirstLegHopeless | src/user/train_tracking/route/route_search.c:364-376 | nor a reversal whose first leg is not found within what penalty and cheapest second leg leave over |
| RouteSpec.BetweenLegsHopeless | src/user/train_tracking/route/route_search.c:378-387 | nor one that the tests between the legs reject |
| RouteSpec.SecondLegHopeless | src/user/train_tracking/route/route_search.c:389-398 | nor one whose second leg is not found within the rest |
| RouteSpec.RestHopeless | src/user/train_tracking/route/route_search.c:356-359 | once a lower bound exceeds the best total, that candidate and all later ones are out |
| RouteSpec.Improved | src/user/train_tracking/route/route_search.c:400-411 | after a comparison the running best beats everything considered so far |
| RouteSpec.LeaderIsAnswer | src/user/train_tracking/route/route_search.c:415-418 | the best of everything considered is the best of all plans |
| RouteAnswers.SwitchesMean | src/user/train_tracking/route/route_search.c:53-84 | a leg's switch list: the last 20 branches that its own path leaves, in travel order, each with its number, 'S' if the next node is straight ahead, else 'C' |
| RouteAnswers.TurnMeans | include/user/train_tracking/route_priv.h:75-91 | a train turns only at a sensor other than C12, E5, E14 and C9 whose reverse is not the sensor E12 or E6 |
| RouteAnswers.LegMeans | src/user/train_tracking/route/route_search.c:167-187 | a leg of a plan is a drive under its pins without a repeated node, as long as reported, no other drive being shorter, with its own switch settings |
| RouteAnswers.GoesMeans | src/user/train_tracking/route/route_search.c:133-137 | a leg can be travelled exactly if there is a drive |
| RouteAnswers.ClearMeans | src/user/train_tracking/route/route_search.c:109-131 | the clearance test asks for 250 mm before the first branch after the start |
| RouteAnswers.OptimalMeans | src/user/train_tracking/route/route_search.c:189-237 | the chosen plan goes to the requested node or its reverse; each of its lists belongs to its own leg: the first leg under the pins, the second from the reverse of the turning sensor with free switches |
| RouteAnswers.AnswerFulfils | src/user/train_tracking/route/route_search.c:301-418 | an answered plan is such a plan; no direct drive and no way to turn is shorter, and a direct drive to the requested node itself wins a tie; without an answer there is none at all |
| RoutePlanner.Planner.BuildDirectPlan | src/user/train_tracking/route/route_search.c:167-187 | builds the direct plan of the specification and never fails after a successful search |
| RoutePlanner.Planner.BuildMidrevPlan | src/user/train_tracking/route/route_search.c:189-237 | builds the reversal plan of the specification and rejects it exactly for lack of clearance; RouteAnswers.OptimalMeans says what is in it |
| RoutePlanner.Planner.BuildCandidates | src/user/train_tracking/route/route_search.c:239-292 | lists exactly the candidates by (lower bound, index) |
| RoutePlanner.Planner.TryDirect | src/user/train_tracking/route/route_search.c:321-336 | the running best stays the best with one more direct plan considered |
| RoutePlanner.Planner.TryReversal | src/user/train_tracking/route/route_search.c:361-411 | and with one more reversal considered, whichever prune is taken |
| RoutePlanner.Planner.TryReversals | src/user/train_tracking/route/route_search.c:338-413 | and with all reversals towards one target, although the loop may stop early |
| RoutePlanner.Planner.FindOptimal | src/user/train_tracking/route/route_search.c:301-418 | returns the one plan that beats every plan an unpruned search would build, and that plan can be driven with the switch settings it lists, at a total that no drive or turn undercuts; fails exactly if there is none |
| RoutePlanner.Planner.FindBootstrap | src/user/train_tracking/route/route_search.c:420-516 | the same over reversal plans only, without penalty; the second leg is at least d_brake if the minimum distance is |
| BootstrapRoom.LoopOptimal | src/user/train_tracking/route/route_search.c:420-516 | the plan chosen on a balloon loop, by which the train turns on the loop's other side |
| BootstrapRoom.ShortLoopExample | include/user/train_tracking/route_priv.h:110-114 | a track and a request with minimum distance 0 whose plan leaves 0 mm after the reversal, whatever the braking distance |
| BootstrapRoom.RoomExactly | include/user/train_tracking/route_priv.h:110-114 | every plan for every track leaves d_brake mm after the reversal exactly if d_brake is at most the minimum distance, or not positive, or no leg reaches the minimum distance |
| YieldPick.SortDistIsNearer | src/user/train_tracking/position/pos_route_yield.c:38-52 | the candidate distance is the smaller of both origins' distances, -1 if neither reaches |
| YieldPick.ChosenIsLeast | src/user/train_tracking/position/pos_route_yield.c:54-112 | the smaller head comes before every unseen entry of both lists, although each is sorted by its own distance |
| YieldPick.MergeStep | src/user/train_tracking/position/pos_route_yield.c:54-112 | taking a head keeps the output sorted, duplicate-free and ahead of everything left |
| YieldPick.MergeCandidates | src/user/train_tracking/position/pos_route_yield.c:54-112 | every sensor reached from either origin, exactly once, by (smaller distance, index) |
| YieldPick.CheckOccupied | src/user/train_tracking/position/pos_route_yield.c:23-36 | true exactly if another train stands on the same physical sensor |
| YieldPick.UnlockIsRight | src/user/train_tracking/position/pos_route_yield.c:180-203 | the first unlocking candidate is the nearest one that passes all filters |
| YieldPick.FallbackIsRight | src/user/train_tracking/position/pos_route_yield.c:196-220 | the fallback is the farthest eligible candidate, and is used only if none unlocks |
| YieldPick.FallbackNearest | src/user/train_tracking/position/pos_route_yield.c:196-220 | the fallback is the nearest eligible sensor exactly if it is the only one |
| YieldPick.PickYieldTarget | src/user/train_tracking/position/pos_route_yield.c:180-220 | both of these over the merged list |
| YieldPick.FillSorted | src/user/train_tracking/route/route_search_cache.c:255-274 | an origin's row and its sorted sensors; nothing for a missing origin |
| YieldPick.ChooseYield | src/user/train_tracking/position/pos_route_yield.c:154-220 | the right target over the cached tables; none without a current sensor |
| Deadlock.BitCount | src/user/train_tracking/position/pos_deadlock.c:32-39 | the number of set bits |
| Deadlock.CollectParticipants | src/user/train_tracking/position/pos_deadlock.c:74-111 | the first trains that wait or stand in the way, with exact masks of both kinds; DeadlockFleet says which ones they are and in which mask |
| Deadlock.ParticipantIndex | src/user/train_tracking/position/pos_deadlock.c:113-120 | the first participant with the number, -1 exactly if there is none |
| Deadlock.BuildGraph | src/user/train_tracking/position/pos_deadlock.c:188-210 | row i holds exactly the waiting trains that train i waits for |
| Deadlock.Shorten | src/user/train_tracking/position/pos_deadlock.c:212-231 | every chain of waits can be shortened to at most as many trains as there are |
| Deadlock.ExpandedRow | src/user/train_tracking/position/pos_deadlock.c:212-231 | one in-place pass covers all chains that are one train longer, and nothing else |
| Deadlock.ComputeReachability | src/user/train_tracking/position/pos_deadlock.c:212-231 | as many passes as participants give exactly the reflexive-transitive closure |
| Deadlock.CycleNeedsTwo | src/user/train_tracking/position/pos_deadlock.c:253-286 | a train is on a wait cycle exactly if another one leads to it and back |
| Deadlock.ComponentMask | src/user/train_tracking/position/pos_deadlock.c:272-280 | the mask is exactly the train's strongly connected component |
| Deadlock.ComponentSize | src/user/train_tracking/position/pos_deadlock.c:282-286 | the component has at least two trains exactly if a wait cycle runs through the train |
| Deadlock.BlockerMask | src/user/train_tracking/position/pos_deadlock.c:233-251 | the train and the stopped trains in its way, nothing if there are none |
| Deadlock.FindAmong | src/user/train_tracking/position/pos_deadlock.c:253-294 | the answer over the collected participants: a wait cycle with its whole component, else the stopped blockers, else nothing |
| DeadlockFleet.NobodyDropsOut | src/user/train_tracking/position/pos_deadlock.c:89-101 | with at most as many trains in the way as the cap all of them take part; in general exactly the first ones do |
| DeadlockFleet.CycleMeans | src/user/train_tracking/position/pos_deadlock.c:253-286 | a train is on a wait cycle exactly if a chain of waiting trains leads from it back to it, each with the place bit of the next in its blockers |
| DeadlockFleet.ShareMeans | src/user/train_tracking/position/pos_deadlock.c:272-280 | two trains lead to each other exactly if one such round trip passes both |
| DeadlockFleet.AnswerMeans | src/user/train_tracking/position/pos_deadlock.c:253-294 | what the answer over the participants says about the fleet |
| DeadlockFleet.FindMask | src/user/train_tracking/position/pos_deadlock.c:253-294 | over the fleet: a wait cycle exactly if a round trip of waiting trains runs through the train, with the bits of exactly those on such round trips with it; stopped blockers exactly if there is none but a stopped train is in the blockers of the waiting train, with their bits and its own; else nothing |
| KernelModel.MoveKeepsPartition | src/kernel/task_manager.c:79-101 | moving a task between chains keeps all chains disjoint, acyclic and equal to the task states |
| KernelModel.MoveKeepsFifo | src/kernel/task_list.c:15-39 | every chain still lets out exactly what was put in, in that order |
| KernelModel.MoveKeepsMail | src/kernel/task_manager.c:257-266 | a move at one send queue disturbs no other receiver's letters |
| KernelModel.MoveKeeps | src/kernel/task_manager.c:79-101 | what a change of state must satisfy to keep the whole invariant |
| KernelSteps.ScheduleKeeps | src/kernel/task_scheduler.c:40-56 | the head of the most urgent ready list runs, and the invariant holds |
| KernelSteps.NoneMoreUrgent | src/kernel/task_scheduler.c:40-56 | no ready task is more urgent than the running one |
| KernelSteps.CreateKeeps | src/kernel/task_manager.c:161-188 | Create keeps the invariant, in an unused slot, a freed slot or on failure |
| KernelSteps.DeadIsLonely | src/kernel/task_manager.c:79-101 | nobody waits for a tid that is not in use, so its next life starts with no debts |
| KernelSteps.DeliverKeeps | src/kernel/task_manager.c:283-294 | Send to a waiting receiver keeps the invariant |
| KernelSteps.EnqueueKeeps | src/kernel/task_manager.c:294-297 | Send to a busy receiver keeps the invariant |
| KernelSteps.ReceiveKeeps | src/kernel/task_manager.c:311-335 | Receive keeps the invariant, with or without a queued sender |
| KernelSteps.ReplyKeeps | src/kernel/task_manager.c:339-365 | Reply keeps the invariant |
| KernelSteps.AwaitKeeps | src/kernel/task_manager.c:388-416 | AwaitEvent keeps the invariant |
| KernelSteps.FireKeeps | src/kernel/task_manager.c:419-446 | an interrupt keeps the invariant |
| KernelSteps.ExitKeeps | src/kernel/task_manager.c:217-238 | Exit fails every queued and every replying-for sender and keeps the invariant |
| KernelRuns.BootInv | src/kernel/main.c:53-66 | the invariant holds after boot |
| KernelRuns.StepKeeps | src/kernel/task_manager.c:481-635 | every system call and interrupt keeps the whole invariant |
| KernelRuns.StepSchedules | src/kernel/task_manager.c:550-557 | after every dispatch the running task was the head of the most urgent non-empty ready list |
| KernelRuns.StatesKeep | src/kernel/task_manager.c:481-635 | every state of every run from boot satisfies the invariant |
| KernelRuns.RunStates | src/kernel/main.c:53-66 | every sequence of dispatches from boot that does not end in a panic is such a run |
| KernelRuns.RunReaches | src/kernel/task_manager.c:481-635 | and every run ends in the state that its inputs lead to |
| KernelRuns.ChainsApart | src/kernel/task_list.c:15-39 | in every state of a run from boot two chains never share a task, none repeats one, a task's chain is its state, and the running task is in none |
| KernelRuns.WaitsForTheLiving | src/kernel/task_manager.c:339-365 | in every state of a run from boot reply_wait_tid names a living task in the very life the message was sent to, so a reused tid cannot reply |
| KernelRuns.SendsComplete | src/kernel/task_manager.c:145-158 | in every state of a run from boot each accepted send is completed at most once, in order, by the life of the task it was sent to; at most one is open |
| KernelRuns.MailInOrder | src/kernel/task_manager.c:257-335 | in every state of a run from boot messages are received in the order of sending, each once, and the unread ones are those of the queued senders |
| KernelRuns.EventsConserved | src/kernel/task_manager.c:371-446 | in every state of a run from boot a task waits for an event only while none is pending; interrupts = wake-ups + immediate consumptions + pending + lost to saturation |
| KernelRuns.StepGrows | src/kernel/task_manager.c:481-635 | no step takes back or reorders a send, a completion, a letter or a queue's traffic |
| KernelRuns.RunGrows | src/kernel/task_manager.c:481-635 | nor does any run |
| KernelRuns.RunIsFifo | src/kernel/task_manager.c:207-238 | over whole runs every ready list, send queue and event slot is first in, first out |
| KernelParents.StatesGrow | src/kernel/task_manager.c:481-635 | between any two states of a run nothing logged is taken back, and no task changes its parent in its life |
| KernelParents.CreateParents | src/kernel/task_manager.c:161-188 | the tid that Create returns has the caller as its parent |
| KernelParents.ParentAnswer | src/kernel/task_manager.c:195-205 | in every run a task is told its creator's tid exactly as long as the creator lives or a later life has that tid, and -2 otherwise |
| KernelEffects.SendersFailed | src/kernel/task_manager.c:145-158 | failing the queued senders completes each of them once with -2 and touches nobody else |
| KernelEffects.ExitEffects | src/kernel/task_manager.c:217-238 | an exit completes only sends to the exiting task, with -2 |
| KernelEffects.StepEffects | src/kernel/task_manager.c:270-365 | per dispatch a task gets a message only by a send to it or its own receive, with the right bytes, sender and length; its send is completed only by its addressee's reply, with that reply's bytes, or with -2 at its addressee's exit |
| KernelEffects.StepPosts | src/kernel/task_manager.c:270-307 | an accepted send is entered with its sender and its receiver at once and with nobody else; a new life starts without letters |
| KernelReceipts.BooksKept | src/kernel/task_manager.c:257-365 | every dispatch keeps sends made and letters written in agreement, for every sender and every life of a receiver |
| KernelReceipts.Received | src/kernel/task_manager.c:311-365 | whoever waits for a reply: its receiver has read as many of its letters as it has sent to that life, the last of them being this message |
| KernelReceipts.ReadBefore | src/kernel/task_manager.c:270-335 | in every run whatever a task has read it read at one earlier dispatch of its present life |
| KernelReceipts.ReplyFollowsReception | src/kernel/task_manager.c:339-365 | in every run from boot a send completed without error is completed by a reply of the life it went to, after an earlier dispatch at which that life read this very message |
| KernelCalls.BootMeans | src/kernel/main.c:53-66 | after boot one task runs, with the priority asked for and no parent, and all queues and counters are empty |
| KernelCalls.Scheduled | src/kernel/task_scheduler.c:40-56 | at the end of a dispatch the first task of the first non-empty ready list leaves it and runs, and nothing else changes |
| KernelCalls.MyTidCall | src/kernel/task_manager.c:190-193 | the caller gets its own tid and joins its ready list; nothing else changes |
| KernelCalls.MyParentTidCall | src/kernel/task_manager.c:195-205 | likewise with the parent's tid, -2 if that slot is not in use |
| KernelCalls.UnknownCall | src/kernel/task_manager.c:623-634 | likewise with -1 |
| KernelCalls.YieldCall | src/kernel/task_manager.c:207-215 | the caller joins the end of the ready list of its priority; nothing else changes |
| KernelCalls.CreateUnusedCall | src/kernel/task_manager.c:161-188 | below 4096 slots: the new task, of the priority asked for, is the next slot, in its first life, and joins its ready list before the caller |
| KernelCalls.CreateFreedCall | src/kernel/task_manager.c:161-188 | with all slots used: the same in the first slot of the free list, in a further life |
| KernelCalls.CreateResult | src/kernel/task_manager.c:161-188 | Create returns -1 exactly for a priority outside 0..31, -2 exactly if all slots have been used and none is free, and else the tid of a task that was not alive, has the priority asked for and the caller as parent, starts a new life, and runs or waits in its ready list behind all who were there |
| KernelMessages.SendCall | src/kernel/task_manager.c:270-307 | -1 for a tid not in use; a waiting receiver gets what fits of the message, its length and the sender's tid and joins its ready list, and the caller waits for the reply; else the caller joins the end of the receiver's queue |
| KernelMessages.ReceiveCall | src/kernel/task_manager.c:311-335 | the letter of the first task in the caller's queue, which then waits for the reply; without one the caller waits |
| KernelMessages.ReplyCall | src/kernel/task_manager.c:339-365 | -1 for a tid not in use, -2 for a task that does not wait for this caller; else that task gets what fits of the reply and its length, the caller gets how much fitted, and they join their ready lists in this order |
| KernelExits.ExitCall | src/kernel/task_manager.c:217-238 | those queued for the caller, in order, and then those that wait for its reply, by number, get -2 and join their ready lists; the caller's queue is empty and its slot heads the free list |
| KernelSignals.AwaitCall | src/kernel/task_manager.c:388-416 | -1 for no such event, -2 if somebody waits for it; a pending one is taken with 0; else the caller waits |
| KernelSignals.InterruptCall | src/kernel/task_manager.c:419-446 | event by event the waiting task joins its ready list with the event's value, or the event stays pending, up to 4294967295; then the interrupted task joins its own |
| KernelLists.WithoutKeeps | src/kernel/task_scheduler.c:20-38 | removal keeps the order of all other tasks |
| KernelLists.WithoutMissing | src/kernel/task_scheduler.c:20-38 | removing a task that is not in the list changes nothing |
| KernelLists.RotateOnce | src/kernel/task_scheduler.c:27-37 | one round of the rotation |
| KernelLists.TaskQueues.Append | src/kernel/task_list.c:15-26 | one ready list gains the task at its end; all other chains through the shared links are as before |
| KernelLists.TaskQueues.PopLeft | src/kernel/task_list.c:28-39 | one ready list loses its head, which is then in no chain; all others are as before |
| KernelLists.TaskQueues.RemoveTask | src/kernel/task_scheduler.c:20-38 | the rotation takes out the first occurrence only, whether or not there is one |
| KernelLists.TaskQueues.NextTask | src/kernel/task_scheduler.c:40-56 | the head of the first non-empty ready list |
| KernelLists.TaskQueues.EnqueueSender | src/kernel/task_manager.c:257-266 | one send queue gains the task at its end, nothing else changes |
| KernelLists.TaskQueues.DequeueSender | src/kernel/task_manager.c:133-143 | one send queue loses its head, nothing else changes |
| KernelLists.TaskQueues.EnqueueWaiter | src/kernel/task_manager.c:371-375 | an empty event slot gains the task |
| KernelLists.TaskQueues.DequeueWaiter | src/kernel/task_manager.c:377-384 | an event slot loses its task |
| KernelLists.TaskQueues.PushFree | src/kernel/task_manager.c:97-101 | the free list gains the slot at its front |
| KernelLists.TaskQueues.PopFree | src/kernel/task_manager.c:79-95 | the free list loses its front |
| KernelTable.TaskManager.constructor | src/kernel/task_manager.c:34-44 | empty tables stand for the empty kernel |
| KernelTable.TaskManager.Start | src/kernel/main.c:63-66 | creating and activating the first task gives the boot state |
| KernelTable.TaskManager.CreateTask | src/kernel/task_manager.c:161-188 | tables and lists show the new state of the specification, with its return value; KernelCalls.CreateResult says what that is |
| KernelTable.TaskManager.SendMessage | src/kernel/task_manager.c:270-307 | likewise for Send, including its failure |
| KernelTable.TaskManager.ReceiveMessage | src/kernel/task_manager.c:311-335 | likewise for Receive |
| KernelTable.TaskManager.ReplyTo | src/kernel/task_manager.c:339-365 | likewise for Reply, with both errors and truncation to the caller's buffer |
| KernelTable.TaskManager.AwaitEvent | src/kernel/task_manager.c:388-416 | likewise for AwaitEvent, with both errors and the pending counter |
| KernelTable.TaskManager.FireEvent | src/kernel/task_manager.c:419-446 | likewise for an interrupt, with the saturating counter |
| KernelTable.TaskManager.ExitCurrent | src/kernel/task_manager.c:217-238 | likewise for Exit |
| KernelTable.TaskManager.SyscallDispatch | src/kernel/task_manager.c:563-635 | one system call is one step of the state machine; fails exactly if no task is ready |
| KernelTable.TaskManager.IrqDispatch | src/kernel/task_manager.c:481-558 | one interrupt with any number of events is one step |
| ClockServer.HandlesKeeps | src/user/server/clock_server.c:63-117 | between requests every queued wake tick is greater than the current tick |
| ClockServer.RunConserves | src/user/server/clock_server.c:63-117 | over any run accepted delays = queued + woken, as multisets |
| ClockServer.NoneEarly | src/user/server/clock_server.c:68-85 | nobody has been woken with a tick still to come |
| ClockServer.WokenExactly | src/user/server/clock_server.c:63-117 | each accepted delay is answered exactly once, in the notify step whose tick is its wake tick |
| ClockServer.DelayIsExact | src/user/server/clock_server.c:68-100 | in every run: Delay(t), t > 0, at tick k with fewer than 64 queued is not answered in its step nor at any tick below k + t, and is answered with k + t in the step that makes the tick k + t |
| ClockServer.DelayUntilIsExact | src/user/server/clock_server.c:68-109 | the same for DelayUntil(t), t > k, and the tick t |
| ClockServer.AnsweredAtOnce | src/user/server/clock_server.c:63-117 | what is answered at once: k for a delay that is over, -1 for a full queue or an unknown request, k for Time; a notification makes the tick k + 1 and is answered with it |
| ClockServer.Server.InsertDelay | src/user/server/clock_server.c:32-41 | the queue gains the delay, or the caller gets -1 if it is full |
| ClockServer.Server.WakeDue | src/user/server/clock_server.c:68-85 | exactly the due tasks leave the queue and are answered with the tick |
| ClockServer.Server.Handle | src/user/server/clock_server.c:63-117 | one round of the server does what the request asks for |
| RingBuffer.Ring.Put | include/user/ring_buffer.h:34-40 | appends unless full |
| RingBuffer.Ring.Get | include/user/ring_buffer.h:43-49 | takes the oldest unless empty |
| TerminalModel.FillStream | src/user/server/terminal_server.c:29-47 | exactly the bytes that fit enter the stream, in order, and no other request's bytes move |
| TerminalModel.FlushKeeps | src/user/server/terminal_server.c:29-47 | waiters are served in order, and serving stops only when the ring is full or nobody waits |
| TerminalModel.WriteKeeps | src/user/server/terminal_server.c:190-272 | a new request's bytes enter in order, and the rest waits or is refused |
| TerminalModel.InputKeeps | src/user/server/terminal_server.c:121-141 | received bytes are handed out in order, each once, and nobody waits while one is buffered |
| TerminalModel.StepKeeps | src/user/server/terminal_server.c:121-272 | every request keeps the invariant: no lost wake-up, no byte lost, doubled or reordered |
| TerminalModel.NotifierAnswered | src/user/server/terminal_server.c:143-171 | the notifier is answered exactly when it stops being parked |
| TerminalModel.RunKeeps | src/user/server/terminal_server.c:121-272 | the invariant holds in every reachable state |
| TerminalModel.WrittenIsWhole | src/user/server/terminal_server.c:190-272 | a request that counts as written has all its bytes in the stream, in order, exactly once, even if it was split |
| TerminalReplies.StepReplies | src/user/server/terminal_server.c:121-272 | the replies of a step are exactly the answers to requests to write, in order, and those to notifiers and readers |
| TerminalReplies.StepTells | src/user/server/terminal_server.c:29-47 | a step answers exactly the requests it settles, each once and with the status it settles them with |
| TerminalReplies.AnsweredOnce | src/user/server/terminal_server.c:190-272 | in every run a request is answered at most once and not while it waits; with -1 if it was refused, else with its length (cut to 128), or 0 for a Putc; and then all its bytes are in the stream, in order, exactly once |
| TerminalCalls.WriteCall | src/user/server/terminal_server.c:190-272 | Putc and Puts: as many bytes as the 2048 of the ring have room for enter behind the others; the answer is at once if all do, -1 if not and eight wait already, and else the caller queues with the rest; the notifier is woken if it is parked and anything is left |
| TerminalCalls.ReadCall | src/user/server/terminal_server.c:173-188 | Getc: the oldest received byte; without one the caller waits, or gets -1 if eight do already |
| TerminalCalls.HearCall | src/user/server/terminal_server.c:121-141 | a received byte goes to the first who waits; without one it is kept unless 256 are |
| Terminal.TerminalServer.DrainWaiters | src/user/server/terminal_server.c:29-47 | ring, waiters and replies are those of the specification |
| Terminal.TerminalServer.Notified | src/user/server/terminal_server.c:143-171 | likewise for the TX notification |
| Terminal.TerminalServer.WriteData | src/user/server/terminal_server.c:190-272 | likewise for the bytes of Putc and Puts |
| Terminal.TerminalServer.Received | src/user/server/terminal_server.c:121-141 | likewise for a received byte |
| Terminal.TerminalServer.GetChar | src/user/server/terminal_server.c:173-188 | likewise for Getc |
| Terminal.TerminalServer.Handle | src/user/server/terminal_server.c:121-272 | one round of the server is one step, and what the UART got is what left the ring |
| TravelTime.DecideDigit | src/user/train_tracking/traffic/traffic_attr_rescue.c:52-60 | one round of the digit loop decides one binary digit of the root, without overflow |
| TravelTime.Isqrt | src/user/train_tracking/traffic/traffic_attr_rescue.c:47-62 | r * r <= x < (r + 1) * (r + 1) for every 64-bit x |
| TravelTime.TravelTimeFromLaunch | src/user/train_tracking/traffic/traffic_attr_rescue.c:64-90 | the time of the specification, refused for a speed or acceleration that is not positive or a negative distance |
| TravelTime.TimeIsExact | src/user/train_tracking/traffic/traffic_attr_rescue.c:64-90 | where nothing overflows: before cruising speed the whole microseconds of sqrt(2 * d / a); after it those of v / a plus those of the rest of the distance at speed v |
| TravelTime.AccelBound | src/user/train_tracking/traffic/traffic_attr_rescue.c:64-90 | before cruising speed the time is at most that of the whole acceleration |
| TravelTime.LaterIsLonger | src/user/train_tracking/traffic/traffic_attr_rescue.c:64-90 | without overflow the time is non-decreasing, also across the boundary |
| TravelTime.OverflowDrops | src/user/train_tracking/traffic/traffic_attr_rescue.c:64-90 | at the first overflowing distance before cruising speed the time drops |
| TravelTime.MonotoneExactly | src/user/train_tracking/traffic/traffic_attr_rescue.c:64-90 | non-decreasing up to a limit exactly unless the limit reaches the first distance whose product overflows and the train still accelerates there |
| TravelTime.DropExample | src/user/train_tracking/traffic/traffic_attr_rescue.c:64-90 | two 32-bit arguments of the formula for which it drops |
| TravelTime.TableMonotone | src/user/train_tracking/data/speed_table.c:6-64 | for every speed up to 365 mm/s and acceleration from 37 mm/s^2, which covers the whole table, the time is non-decreasing over all 32-bit distances |
| GameEvents.EventLog.Publish | src/user/train_tracking/position/pos_game_events.c:17-38 | the log gains the event with the next number, and the ring holds the last 64 |
| GameEvents.EventLog.Look | src/user/train_tracking/position/pos_game_events.c:73-82 | a slot is skipped exactly if its event has been overwritten; otherwise it yields the event asked for |
| GameEvents.EventLog.Read | src/user/train_tracking/position/pos_game_events.c:62-86 | hands out the next events in order, leaving out only those that 64 later ones have overwritten, until the batch is full or the log is at its end |
| GameEvents.RunKeeps | src/user/train_tracking/position/pos_game_events.c:17-86 | with publishes before, between and after the turns of the read loop: strictly increasing numbers, each event as published, none missed but overwritten ones |
| GameEvents.ReaderMissesOnlyOverwritten | src/user/train_tracking/position/pos_game_events.c:62-86 | in every such run an event the reader has passed was given to it or has been overwritten |
| GameEvents.ReadAtOnce | src/user/train_tracking/position/pos_game_events.c:62-86 | the turns of a read without a publish in between do what the read as a whole promises |
| GameScore.ConsumeConserves | src/user/game_manager_round.c:1011-1025 | one event keeps human + AI score equal to the worth of the claimed sensors, 0, 3 or 5 half points each |
| GameScore.AllConserve | src/user/game_manager_round.c:1001-1044 | any sequence of events in one round keeps the scores equal to the worth of the claims, and score minus round gain constant |
| GameScore.GameConserves | src/user/game_manager_round.c:1001-1044 | at every point of every game from its start, over any rounds and events: human + AI score is what the claimed sensors are worth, and a round's gain is what the score grew by in it |
| GameScore.ScoresGrow | src/user/game_manager_round.c:1011-1025 | a score never goes down and a claim is never taken back |
| GameScore.ClaimedOnce | src/user/game_manager_round.c:1011-1025 | hitting the same sensor again changes nothing |
| GameScore.HitScores | src/user/game_manager_round.c:1011-1025 | a hit changes the score and gain of the hitting player only: by 3 for an unclaimed sensor, by 2 for one only the other player has claimed, by nothing for one of its own |
| GameScore.OthersDoNot | src/user/game_manager_round.c:1006-1025 | nothing else changes a claim, a score or a gain |
| GameScore.ScoreIsShares | src/user/game_manager_round.c:1001-1044 | at every point of every game each player's score is 3 times the sensors it claimed first plus 2 times those it claimed second |
| GameScore.DoneExactly | src/user/game_manager_round.c:1027-1042 | a train counts as done exactly if it has stopped at its target or the reverse of it in the present round, and the neutral train as standing by exactly if it has stopped at the standby target it was sent to |
| GameScore.Scorer.constructor | src/user/game_manager.c:118-145 | a new game: nothing claimed, nothing scored |
| GameScore.Scorer.BeginRound | src/user/game_manager_round.c:595-608 | a new round keeps claims and scores and clears what belongs to a round |
| GameScore.Scorer.ConsumeEvent | src/user/game_manager_round.c:1006-1042 | the arrays show the state of the specification |
| GameScore.Scorer.ConsumeEvents | src/user/game_manager_round.c:1001-1044 | whatever the batches, all events the log still holds are consumed in order, and the scores add up to the worth of the claims |

## Left out

- Plan.ReconstructSwitches: only the last 20 crossings of a longer path are kept, as in the code; a complete list beyond 20 is not promised.
- FreeTrack.RunFrom: the free-track Dijkstra is modelled without blocked nodes and pinned switches, because every call in the repository passes none.
- RoutePlanner.Planner.FindOptimal: a NULL array of blocked nodes or pinned switches is modelled as one that blocks or pins nothing; the minimum distance applies to reversal legs only, as in the code.
- YieldPick.PickYieldTarget: whether a candidate can be reserved and which waiting trains it would release are parameters (`ready`, `unblocks`), because they depend on the reservation state.
- YieldPick.ChooseYield: likewise, and the two origins are parameters, because the position state machine chooses them.
- Deadlock.CollectParticipants: when a train counts as waiting or as standing in the way is a parameter, because it depends on the position state machine.
- KernelRuns.StepKeeps: what user programs do between two calls is not modelled; any sequence of calls and interrupts is allowed.
- KernelTable.TaskManager.SyscallDispatch: stacks, canaries, trapframe registers other than the first, idle-time accounting and the shutdown call are not modelled; messages are byte sequences, so negative lengths and copying between address spaces are not either.
- KernelTable.TaskManager.IrqDispatch: the interrupt controller's and UART's registers are replaced by the list of events that an interrupt brings.
- ClockServer.Server.Handle: the order in which tasks with the same wake tick are answered is left open, and failures of Reply are ignored, as in the code.
- ClockServer.DelayIsExact: a task asks for nothing else while it waits for its answer, as it does whenever it calls the server through Send, which blocks it; the same holds for ClockServer.DelayUntilIsExact.
- Terminal.TerminalServer.Handle: how many bytes the UART takes during a request is a parameter; first-in-first-out order between different callers is not promised, since a new request can enter the ring before a waiter's remainder.
- RouteSpec.OptimalPlanIsReal: a reversal is judged by the one shortest path that the leg search finds; another path of the same or greater length that would pass the clearance test is not a plan, as in the code.
- YieldPick.FallbackIsRight: the fallback is the farthest eligible candidate, as in the code, and so the nearest one exactly when it is the only one.
- TravelTime.TravelTimeFromLaunch: positive inputs whose 32-bit difference with the acceleration distance overflows are excluded, since C leaves that undefined.
- GameEvents.RunKeeps: a publish, and the copy of one slot in the read loop, are single steps; a copy torn by 64 publishes is not modelled.
- GameScore.Scorer.ConsumeEvents: nothing is published while it runs; GameScore.GameConserves covers any events in any order.
- GameEvents.EventLog.Publish: wrap-around of the 32-bit sequence number and a reset under a reader are not modelled.
- GameScore.ConsumeConserves: scores are per sensor number, not per physical location, as in the code.
- `bfs_find_route_optimal`, which only computes a default minimum distance for the constrained search.
- Choosing a victim, the no-solution cache, notices and rerouting in `pos_deadlock.c`, which rest on the reservation code.
- Notifier tasks and the client wrappers of the clock and terminal servers.
- Reservation and prefix plans, the position state machine, speed tables, sensor attribution, the user interface and game set-up.
- Hardware access: GPIO, UART, CAN, caches, the memory unit and the context switch.
