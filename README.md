# PlanningOfMotionSequences, modelled in Dafny

This project models the planning orchestrator `PlanningOfMotionSequences` of
the dwl motion-planning library. The orchestrator does two jobs:

- **Term registry.** It owns constraint and cost terms:
  - an active and an inactive constraint list, split by each constraint's `isActive()` when it is added;
  - an ordered cost list;
  - an "ever added" flag per list.

  Terms are removed by name. For constraints the scan is interleaved: at each index `i` it tries `active[i]` and then `inactive[i]`. The first hit is deleted and erased, and a miss changes nothing. The destructor deletes whatever is still held.
- **Lifecycle state machine.** It has two flags, solver-set and planning-initialized:
  - the two `reset` overloads set solver-set;
  - `initPlan` sets planning-initialized when the subclass hook `init()` succeeds;
  - `computePlan` runs the hook `compute()` only when both flags are set.

Files:

- `terms.dfy` (module `Terms`): the terms as values, with these definitions:
  - the scans `ScanFrom`/`FindConstraint` and `FindCostFrom`/`FindCost`;
  - independent "first match" definitions (`IsFirstConstraintMatch`, `IsFirstCostMatch`), with lemmas connecting the scans to them;
  - the effect of each registry operation on the term lists, as the functions `AddConstraintTo`, `RemoveConstraintFrom`, `DestroyConstraints`, `AddCostTo`, `RemoveCostFrom` and `DestroyCosts`;
  - the ownership accounting `HandedOverConstraints`/`HandedOverCosts`: every term handed to the planner is in one list or deleted, and is counted once per hand-over.

  Lemmas prove that each operation keeps or extends the accounting exactly, and that adding a term under a name no held term already has, and then removing that name, round-trips.
- `planning.dfy` (module `Planning`): the class `PlanningOfMotionSequences`:
  - it holds the source's fields: pointers as `Option<Handle>`, the three lists as `seq` fields, the flags as `bool`;
  - two logs make effects visible: `calls` records calls into collaborators and hooks, and `deletedConstraints`/`deletedCosts` record every `delete`;
  - each method's `ensures` ties its new list state to the matching value-level function in `Terms`, through the views `Constraints()` and `Costs()`;
  - `Valid()` is kept by every method: a constraint sits in the list its activity chose, an unset "added" flag means an empty list, and initialization implies a bound solver.

A note on how `init()` and `compute()` are modelled: the method receives what the hook would answer as a parameter, and the `calls` log shows whether the hook was invoked.

## Model

| member | source | states |
|---|---|---|
| Terms.RemoveAt | src/planning/PlanningOfMotionSequences.cpp:113 | erasing index k shortens the list by one, keeps the elements before k in place and moves those after k down by one, so relative order is preserved |
| Terms.RemoveAtMultiset | src/planning/PlanningOfMotionSequences.cpp:112-113 | erasing removes exactly one occurrence of the erased element and nothing else |
| Terms.ScanFrom | src/planning/PlanningOfMotionSequences.cpp:107-131 | a hit found from index i on names a position at or after i whose constraint has the name |
| Terms.FindConstraint | src/planning/PlanningOfMotionSequences.cpp:107-131 | a hit of the interleaved scan is an in-range position whose constraint has the name |
| Terms.ScanFromIsFirst | src/planning/PlanningOfMotionSequences.cpp:107-131 | no position scanned before the hit, from index i on, matches the name |
| Terms.ScanFromNone | src/planning/PlanningOfMotionSequences.cpp:107-135 | a scan from i that finds nothing means that no position at or after i matches |
| Terms.FindConstraintIsFirstMatch | src/planning/PlanningOfMotionSequences.cpp:107-131 | the scan returns position h if and only if h is the match with the smallest index, with active[i] preferred over inactive[i] at equal index |
| Terms.FindConstraintNoneIffNoMatch | src/planning/PlanningOfMotionSequences.cpp:104-135 | the scan finds nothing if and only if no constraint in either list has the name |
| Terms.AddedConstraintIsRemovedFirst | src/planning/PlanningOfMotionSequences.cpp:70-131 | a constraint added under a fresh name is the first match at the end of its list, and erasing it gives back the list as it was |
| Terms.FindCostFrom | src/planning/PlanningOfMotionSequences.cpp:155-166 | a hit found from index i on is an in-range index at or after i whose cost has the name |
| Terms.FindCost | src/planning/PlanningOfMotionSequences.cpp:155-166 | a hit is an in-range index whose cost has the name |
| Terms.FindCostFromSkips | src/planning/PlanningOfMotionSequences.cpp:155-166 | costs between i and the hit do not match; with no hit, no cost from i on matches |
| Terms.FindCostIsFirstMatch | src/planning/PlanningOfMotionSequences.cpp:155-166 | the scan returns k if and only if k is the smallest index whose cost has the name |
| Terms.FindCostNoneIffNoMatch | src/planning/PlanningOfMotionSequences.cpp:163-165 | the scan finds nothing if and only if no cost has the name |
| Terms.AddedCostIsRemovedFirst | src/planning/PlanningOfMotionSequences.cpp:140-161 | a cost added under a fresh name is found at the end of the list, and erasing it gives back the list as it was |
| Terms.AddConstraintHandsOverOne | src/planning/PlanningOfMotionSequences.cpp:70-86 | adding hands over exactly the new constraint: the held-or-deleted multiset grows by exactly that constraint |
| Terms.RemoveConstraintKeepsHandedOver | src/planning/PlanningOfMotionSequences.cpp:107-131 | removal loses and duplicates nothing (the erased constraint is now deleted), and exactly one constraint leaves the lists when a match exists, none otherwise |
| Terms.RemoveConstraintWithoutMatchIsNoOp | src/planning/PlanningOfMotionSequences.cpp:104-135 | with no constraint of that name, including two empty lists, removal changes nothing |
| Terms.DestroyConstraintsDeletesAll | src/planning/PlanningOfMotionSequences.cpp:18-27 | after the destructor the deleted constraints are exactly the ones ever handed over, each deleted once |
| Terms.AddCostHandsOverOne | src/planning/PlanningOfMotionSequences.cpp:140-146 | adding hands over exactly the new cost |
| Terms.RemoveCostKeepsHandedOver | src/planning/PlanningOfMotionSequences.cpp:155-161 | cost removal loses and duplicates nothing, and erases exactly one cost when a match exists, none otherwise |
| Terms.RemoveCostWithoutMatchIsNoOp | src/planning/PlanningOfMotionSequences.cpp:151-166 | with no cost of that name, including an empty list, removal changes nothing |
| Terms.DestroyCostsDeletesAll | src/planning/PlanningOfMotionSequences.cpp:28-31 | after the destructor the deleted costs are exactly the ones ever handed over, each deleted once |
| Terms.AddThenRemoveConstraint | src/planning/PlanningOfMotionSequences.cpp:70-137 | adding a constraint under a fresh name and removing that name deletes exactly that constraint and restores both lists; a second removal changes nothing |
| Terms.AddThenRemoveCost | src/planning/PlanningOfMotionSequences.cpp:140-171 | adding a cost under a fresh name and removing that name deletes exactly that cost and restores the list; a second removal changes nothing |
| Planning.RouteComputationTime | src/planning/PlanningOfMotionSequences.cpp:224-240 | the body planner gets the budget for the path solver (path flag true) and the pose solver (false), and the footstep planner for the contact solver; any other kind gets no call; the budget passes through unchanged |
| Planning.PlanningOfMotionSequences.constructor | src/planning/PlanningOfMotionSequences.cpp:10-15 | all pointers NULL, all flags false, no terms, the largest double as computation time, and the invariant holds |
| Planning.PlanningOfMotionSequences.Destroy | src/planning/PlanningOfMotionSequences.cpp:18-32 | appends the remaining active and then the remaining inactive constraints to the constraint deletion log, and the remaining costs to the separate cost deletion log, each list in order, and changes nothing else; the order between constraint and cost deletions is not stated |
| Planning.PlanningOfMotionSequences.DeleteEach | src/planning/PlanningOfMotionSequences.cpp:20-27 | the destructor's loop deletes every entry of a constraint list, in order |
| Planning.PlanningOfMotionSequences.DeleteEachCost | src/planning/PlanningOfMotionSequences.cpp:29-30 | the destructor's loop deletes every cost, in order |
| Planning.PlanningOfMotionSequences.ResetWithSolver | src/planning/PlanningOfMotionSequences.cpp:35-47 | stores robot, solver and environment, sets solver-set, and resets the solver once with robot and environment |
| Planning.PlanningOfMotionSequences.ResetWithPlanners | src/planning/PlanningOfMotionSequences.cpp:50-67 | stores robot, environment and both planners, resets the body planner and then the footstep planner, and sets solver-set |
| Planning.PlanningOfMotionSequences.AddConstraint | src/planning/PlanningOfMotionSequences.cpp:70-86 | appends the constraint to the end of the active list exactly when it is active, otherwise to the inactive list; the other list, the costs and the other flag are unchanged; the matching flag becomes and stays true |
| Planning.PlanningOfMotionSequences.RemoveConstraint | src/planning/PlanningOfMotionSequences.cpp:89-137 | the lists and deletions become RemoveConstraintFrom of the old ones: the first match of the interleaved scan is deleted and erased; with no flag set, empty lists or no match, nothing changes |
| Planning.PlanningOfMotionSequences.AddCost | src/planning/PlanningOfMotionSequences.cpp:140-146 | appends the cost to the end of the cost list and sets the cost flag; the constraint lists are unchanged |
| Planning.PlanningOfMotionSequences.RemoveCost | src/planning/PlanningOfMotionSequences.cpp:149-171 | the first cost of that name is deleted and erased, and the rest keep their order; with no flag set, an empty list or no match, nothing changes |
| Planning.PlanningOfMotionSequences.InitPlan | src/planning/PlanningOfMotionSequences.cpp:174-191 | without a solver it returns false, calls no hook and leaves the initialized flag; otherwise it calls init() once, returns its result and sets the flag only on success |
| Planning.PlanningOfMotionSequences.ComputePlan | src/planning/PlanningOfMotionSequences.cpp:194-214 | returns false and calls no hook unless both flags hold; otherwise it calls compute(state) once and returns its result; no flag and no list changes |
| Planning.PlanningOfMotionSequences.SetComputationTime | src/planning/PlanningOfMotionSequences.cpp:217-221 | stores the given budget as the computation time |
| Planning.PlanningOfMotionSequences.SetComputationTimeFor | src/planning/PlanningOfMotionSequences.cpp:224-240 | makes exactly the call RouteComputationTime names, or none for an unlisted kind |
| Planning.PlanningOfMotionSequences.SetRewardMap | src/planning/PlanningOfMotionSequences.cpp:243-246 | forwards the reward map unchanged to the environment |
| Planning.PlanningOfMotionSequences.SetObstacleMap | src/planning/PlanningOfMotionSequences.cpp:249-252 | forwards the obstacle map unchanged to the environment |
| Planning.InitPlanBeforeResetFails | src/planning/PlanningOfMotionSequences.cpp:174-191 | a freshly built planner refuses to initialize, does not call init() and holds no terms |
| Planning.PlanAfterReset | src/planning/PlanningOfMotionSequences.cpp:174-214 | with one solver: computing before initializing fails; after reset, initializing answers init()'s result; computing then succeeds exactly when both init() and compute() succeed |

## Left out

- `printf` diagnostics are left out: they carry no state. One of them prints "Adding the active" also for an inactive constraint, which has no effect on state.
- Foreign calls are modelled only as entries in the `calls` log: the bodies of `solver_->reset`, `body_planner_->reset`, `footstep_planner_->reset`, the sub-planners' `setComputationTime` and `environment_->setEnvironmentInformation` are not part of this model.
- The hooks `init()` and `compute()` are oracles: their result is a parameter, and what they do to the subclass's own state is not modelled.
- Deleting a term is modelled as appending it to a deletion log; the memory itself is not modelled.
- Pointers are handles. The source dereferences `solver`, the body planner, the footstep planner and `environment_` without a NULL check: `ResetWithSolver` and `ResetWithPlanners` take non-null handles, and `SetComputationTimeFor`, `SetRewardMap` and `SetObstacleMap` require the pointer to be set. A NULL dereference is therefore not modelled.
- Terms.Constraint and Terms.Cost are records, so a term cannot be NULL: `addConstraint(NULL)` (line 72, `constraint->isActive()`) and `addCost(NULL)` (line 142, `cost->getName()`) dereference NULL in the source, and `AddConstraint`/`AddCost` do not model that crash.
- Terms.MatchesAt, Terms.FindCostFrom: names are compared as whole strings. The source compares `std::string == const char*` built with `getName().c_str()` (lines 110, 122, 156), which stops at the stored name's first NUL character: a term named "a\0b" is removed by the name "a" and never by "a\0b". The model agrees with the source only for stored names without a NUL character.
- `computation_time_` is a `double`; it is modelled as an abstract `real` budget, with `LargestDouble` standing for the largest double.
- Planning.PlanningOfMotionSequences.Destroy: the source leaves the vectors to be freed with the object; the model empties the lists afterwards so that a deleted term is no longer counted as held (`HandedOverConstraints`, `HandedOverCosts`): without it each deleted term would be counted twice, once in a list and once in a deletion log.
- Planning.PlanningOfMotionSequences.RemoveConstraint: the source stores the larger list size in the `int` `max_num_constraints` (line 93) and counts with an `int`; the model uses unbounded naturals, which agree with the source for lists shorter than 2^31 entries. For a longer list of n entries the conversion at line 93 keeps n mod 2^32 as a signed value (an implementation-defined conversion, modular on common targets). When that residue is 2^31 or more the bound is negative, and when it is 0 line 104 skips the search; in both cases the source removes nothing. Otherwise the source scans only the indices below n mod 2^32. The model scans every index, so it differs exactly when the first match lies at or beyond that bound.
- Planning.PlanningOfMotionSequences.RemoveCost: the loop counter `int i` (line 155) is modelled as an unbounded natural, which agrees with the source whenever some cost with an index below 2^31 matches, because line 161 returns before `i++` can overflow. The model differs only for a list of more than 2^31 entries with no match below index 2^31, where the signed counter overflows (undefined behaviour).
- The getters `getBodyPath`, `getContactSequence` and `getName` are left out: they return fields that only subclasses write, so this file gives them no behaviour.
- `include/model/WholeBodyKinematics.h`, `src/model/FullDynamicalSystem.cpp` and `src/ConstrainedWholeBodyPlanner.cpp` are not part of this model: they are declarations, floating-point dynamics over external libraries, and ROS node wiring.
