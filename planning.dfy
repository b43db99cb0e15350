/** The planning orchestrator PlanningOfMotionSequences: it owns the
    constraint and cost terms, keeps the wiring to its solver or to its
    body and footstep planners, and gates initialization and computation
    of a plan on two lifecycle flags.

    Collaborators are outside the model.  Pointers to them are handles
    (None stands for NULL).  What the planner asks of them is appended to
    the log `calls`.  The subclass hooks init() and compute() are oracles:
    the caller passes in what the hook would answer, and the log shows
    whether it was called.  Every `delete` of a term is appended to
    `deletedConstraints` or `deletedCosts`. */
module Planning {
  import opened Terms

  /** An opaque, non-null pointer to a collaborator. */
  datatype Handle = Handle(address: nat)

  /** The robot state passed to computePlan, kept abstract. */
  datatype Pose = Pose(id: nat)

  /** Environment cells forwarded verbatim, kept abstract. */
  datatype RewardCell = RewardCell(id: nat)
  datatype Cell = Cell(id: nat)

  /** The stored computation time: the largest double until one is set. */
  datatype TimeBudget = LargestDouble | Seconds(value: real)

  /** Which sub-solver a computation time is routed to; UnlistedSolver
      stands for any other value of the enumeration. */
  datatype SolverKind = BodyPathSolver | BodyPoseSolver | ContactSolver | UnlistedSolver(code: int)

  /** A call from the planner into a collaborator or a subclass hook. */
  datatype ForeignCall =
    | SolverReset(solver: Handle, robot: Option<Handle>, environment: Option<Handle>)
    | BodyPlannerReset(planner: Handle, robot: Option<Handle>, environment: Option<Handle>)
    | FootstepPlannerReset(planner: Handle, robot: Option<Handle>, environment: Option<Handle>)
    | InitHook
    | ComputeHook(state: Pose)
    | BodyPlannerSetTime(planner: Handle, budget: real, pathSolver: bool)
    | FootstepPlannerSetTime(planner: Handle, budget: real)
    | RewardMapForwarded(env: Handle, rewardMap: seq<RewardCell>)
    | ObstacleMapForwarded(env: Handle, obstacleMap: seq<Cell>)

  /** The call setComputationTime(budget, kind) makes: the body planner
      for the two body solvers (path or pose), the footstep planner for the
      contact solver, none for any other kind.  The budget is passed on
      unchanged.  A routed-to planner is dereferenced, so it must be set. */
  function RouteComputationTime(budget: real, kind: SolverKind, bodyPlanner: Option<Handle>, footstepPlanner: Option<Handle>): (r: Option<ForeignCall>)
    requires (kind.BodyPathSolver? || kind.BodyPoseSolver?) ==> bodyPlanner.Some?
    requires kind.ContactSolver? ==> footstepPlanner.Some?
    ensures r.None? <==> kind.UnlistedSolver?
    ensures r.Some? ==> (r.value.BodyPlannerSetTime? || r.value.FootstepPlannerSetTime?) && r.value.budget == budget
    ensures r.Some? && r.value.BodyPlannerSetTime? ==>
      !kind.ContactSolver? && r.value.planner == bodyPlanner.value && (r.value.pathSolver <==> kind.BodyPathSolver?)
    ensures r.Some? && r.value.FootstepPlannerSetTime? ==>
      kind.ContactSolver? && r.value.planner == footstepPlanner.value
  {
    match kind
    case BodyPathSolver => Some(BodyPlannerSetTime(bodyPlanner.value, budget, true))
    case BodyPoseSolver => Some(BodyPlannerSetTime(bodyPlanner.value, budget, false))
    case ContactSolver => Some(FootstepPlannerSetTime(footstepPlanner.value, budget))
    case UnlistedSolver(_) => None
  }

  class PlanningOfMotionSequences {
    var robot: Option<Handle>
    var solver: Option<Handle>
    var bodyPlanner: Option<Handle>
    var footstepPlanner: Option<Handle>
    var environment: Option<Handle>

    var activeConstraints: seq<Constraint>
    var inactiveConstraints: seq<Constraint>
    var costs: seq<Cost>

    var isAddedActiveConstraint: bool
    var isAddedInactiveConstraint: bool
    var isAddedCost: bool
    var isSetSolver: bool
    var isInitializedPlanning: bool

    var computationTime: TimeBudget

    /** Calls into collaborators and hooks, oldest first. */
    var calls: seq<ForeignCall>
    /** Terms deleted by this planner, in the order of deletion. */
    var deletedConstraints: seq<Constraint>
    var deletedCosts: seq<Cost>

    /** The object invariant. */
    ghost predicate Valid()
      reads this
    {
      ConstraintsValid() && CostsValid() && LifecycleValid()
    }

    /** Constraints sit in the list their activity chose, and a list whose
        "added" flag is unset is empty. */
    ghost predicate ConstraintsValid()
      reads this`activeConstraints, this`inactiveConstraints, this`isAddedActiveConstraint, this`isAddedInactiveConstraint
    {
      (forall c :: c in activeConstraints ==> c.isActive) &&
      (forall c :: c in inactiveConstraints ==> !c.isActive) &&
      (!isAddedActiveConstraint ==> activeConstraints == []) &&
      (!isAddedInactiveConstraint ==> inactiveConstraints == [])
    }

    ghost predicate CostsValid()
      reads this`costs, this`isAddedCost
    {
      !isAddedCost ==> costs == []
    }

    /** Initialization implies a bound solver, and a bound solver is a
        monolithic solver or a pair of body and footstep planners. */
    ghost predicate LifecycleValid()
      reads this`isInitializedPlanning, this`isSetSolver, this`solver, this`bodyPlanner, this`footstepPlanner
    {
      (isInitializedPlanning ==> isSetSolver) &&
      (isSetSolver ==> solver.Some? || (bodyPlanner.Some? && footstepPlanner.Some?))
    }

    /** The planner's constraints as a value: both lists and the deleted ones. */
    function Constraints(): ConstraintLists
      reads this`activeConstraints, this`inactiveConstraints, this`deletedConstraints
    {
      ConstraintLists(activeConstraints, inactiveConstraints, deletedConstraints)
    }

    /** The planner's costs as a value: the list and the deleted ones. */
    function Costs(): CostLists
      reads this`costs, this`deletedCosts
    {
      CostLists(costs, deletedCosts)
    }

    /** All pointers NULL, all flags false, no terms, the largest double as
        computation time. */
    constructor ()
      ensures Valid()
      ensures robot.None? && solver.None? && bodyPlanner.None? && footstepPlanner.None? && environment.None?
      ensures activeConstraints == [] && inactiveConstraints == [] && costs == []
      ensures !isAddedActiveConstraint && !isAddedInactiveConstraint && !isAddedCost
      ensures !isSetSolver && !isInitializedPlanning
      ensures computationTime == LargestDouble
      ensures calls == [] && deletedConstraints == [] && deletedCosts == []
    {
      robot, solver, bodyPlanner, footstepPlanner, environment := None, None, None, None, None;
      activeConstraints, inactiveConstraints, costs := [], [], [];
      isAddedActiveConstraint, isAddedInactiveConstraint, isAddedCost := false, false, false;
      isSetSolver, isInitializedPlanning := false, false;
      computationTime := LargestDouble;
      calls, deletedConstraints, deletedCosts := [], [], [];
    }

    /** The destructor: deletes every term still held, active constraints
        first, then inactive ones, then costs, each list in order; the
        lists go away with the object.  Afterwards every hand-over has been
        matched by exactly one deletion. */
    method Destroy()
      requires Valid()
      modifies this`activeConstraints, this`inactiveConstraints, this`costs,
        this`deletedConstraints, this`deletedCosts
      ensures Valid()
      ensures Constraints() == DestroyConstraints(old(Constraints()))
      ensures Costs() == DestroyCosts(old(Costs()))
    {
      if isAddedActiveConstraint {
        DeleteEach(activeConstraints);
      }
      if isAddedInactiveConstraint {
        DeleteEach(inactiveConstraints);
      }
      if isAddedCost {
        DeleteEachCost(costs);
      }
      activeConstraints, inactiveConstraints, costs := [], [], [];
    }

    /** The destructor's loop over one constraint list: delete each entry, in order. */
    method DeleteEach(list: seq<Constraint>)
      modifies this`deletedConstraints
      ensures deletedConstraints == old(deletedConstraints) + list
    {
      var i := 0;
      while i < |list|
        invariant 0 <= i <= |list|
        invariant deletedConstraints == old(deletedConstraints) + list[..i]
      {
        deletedConstraints := deletedConstraints + [list[i]];
        i := i + 1;
      }
      assert list[..i] == list;
    }

    /** The destructor's loop over the cost list: delete each entry, in order. */
    method DeleteEachCost(list: seq<Cost>)
      modifies this`deletedCosts
      ensures deletedCosts == old(deletedCosts) + list
    {
      var i := 0;
      while i < |list|
        invariant 0 <= i <= |list|
        invariant deletedCosts == old(deletedCosts) + list[..i]
      {
        deletedCosts := deletedCosts + [list[i]];
        i := i + 1;
      }
      assert list[..i] == list;
    }

    /** reset(robot, solver, environment): stores the three pointers, marks
        the solver as set and resets the solver with robot and environment. */
    method ResetWithSolver(robotHandle: Option<Handle>, solverHandle: Handle, environmentHandle: Option<Handle>)
      requires Valid()
      modifies this`robot, this`solver, this`environment, this`isSetSolver, this`calls
      ensures Valid()
      ensures robot == robotHandle && solver == Some(solverHandle) && environment == environmentHandle
      ensures isSetSolver
      ensures calls == old(calls) + [SolverReset(solverHandle, robotHandle, environmentHandle)]
    {
      robot := robotHandle;
      isSetSolver := true;
      solver := Some(solverHandle);
      calls := calls + [SolverReset(solverHandle, robotHandle, environmentHandle)];
      environment := environmentHandle;
    }

    /** reset(robot, body_planner, footstep_planner, environment): stores
        the pointers, resets the body planner and then the footstep planner
        with robot and environment, and marks the solver as set.  The
        monolithic solver pointer is left as it was. */
    method ResetWithPlanners(robotHandle: Option<Handle>, bodyHandle: Handle, footstepHandle: Handle, environmentHandle: Option<Handle>)
      requires Valid()
      modifies this`robot, this`bodyPlanner, this`footstepPlanner, this`environment, this`isSetSolver, this`calls
      ensures Valid()
      ensures robot == robotHandle && environment == environmentHandle
      ensures bodyPlanner == Some(bodyHandle) && footstepPlanner == Some(footstepHandle)
      ensures isSetSolver
      ensures calls == old(calls) + [BodyPlannerReset(bodyHandle, robotHandle, environmentHandle),
                                     FootstepPlannerReset(footstepHandle, robotHandle, environmentHandle)]
    {
      robot := robotHandle;
      environment := environmentHandle;
      bodyPlanner := Some(bodyHandle);
      calls := calls + [BodyPlannerReset(bodyHandle, robotHandle, environmentHandle)];
      footstepPlanner := Some(footstepHandle);
      calls := calls + [FootstepPlannerReset(footstepHandle, robotHandle, environmentHandle)];
      isSetSolver := true;
    }

    /** addConstraint: takes ownership of c and appends it to the active
        list if c is active, to the inactive list otherwise, setting that
        list's "added" flag.  The other list and its flag are unchanged. */
    method AddConstraint(c: Constraint)
      requires Valid()
      modifies this`activeConstraints, this`inactiveConstraints,
        this`isAddedActiveConstraint, this`isAddedInactiveConstraint
      ensures Valid()
      ensures Constraints() == AddConstraintTo(old(Constraints()), c)
      ensures isAddedActiveConstraint == (old(isAddedActiveConstraint) || c.isActive)
      ensures isAddedInactiveConstraint == (old(isAddedInactiveConstraint) || !c.isActive)
    {
      if c.isActive {
        activeConstraints := activeConstraints + [c];
        if !isAddedActiveConstraint {
          isAddedActiveConstraint := true;
        }
      } else {
        inactiveConstraints := inactiveConstraints + [c];
        if !isAddedInactiveConstraint {
          isAddedInactiveConstraint := true;
        }
      }
    }

    /** removeConstraint: deletes and erases the first constraint named
        `name` in the interleaved scan (FindConstraint); with no match, or
        no constraint ever added, or both lists empty, nothing changes. */
    method RemoveConstraint(name: string)
      requires Valid()
      modifies this`activeConstraints, this`inactiveConstraints, this`deletedConstraints
      ensures Valid()
      ensures Constraints() == RemoveConstraintFrom(old(Constraints()), name)
    {
      var maxNumConstraints: nat;
      if isAddedActiveConstraint && isAddedInactiveConstraint {
        maxNumConstraints := if |activeConstraints| > |inactiveConstraints| then |activeConstraints| else |inactiveConstraints|;
      } else if isAddedActiveConstraint {
        maxNumConstraints := |activeConstraints|;
      } else if isAddedInactiveConstraint {
        maxNumConstraints := |inactiveConstraints|;
      } else {
        return;
      }

      if maxNumConstraints == 0 {
        return;
      }
      var i := 0;
      while i < maxNumConstraints
        invariant 0 <= i <= maxNumConstraints == Max(|activeConstraints|, |inactiveConstraints|)
        invariant activeConstraints == old(activeConstraints) && inactiveConstraints == old(inactiveConstraints)
        invariant deletedConstraints == old(deletedConstraints)
        invariant FindConstraint(activeConstraints, inactiveConstraints, name) == ScanFrom(activeConstraints, inactiveConstraints, name, i)
      {
        if isAddedActiveConstraint && i < |activeConstraints| && activeConstraints[i].name == name {
          deletedConstraints := deletedConstraints + [activeConstraints[i]];
          activeConstraints := RemoveAt(activeConstraints, i);
          return;
        }
        if isAddedInactiveConstraint && i < |inactiveConstraints| && inactiveConstraints[i].name == name {
          deletedConstraints := deletedConstraints + [inactiveConstraints[i]];
          inactiveConstraints := RemoveAt(inactiveConstraints, i);
          return;
        }
        i := i + 1;
      }
    }

    /** addCost: takes ownership of c, appends it to the cost list and sets
        the "added cost" flag.  Constraints are not touched. */
    method AddCost(c: Cost)
      requires Valid()
      modifies this`costs, this`isAddedCost
      ensures Valid()
      ensures Costs() == AddCostTo(old(Costs()), c) && isAddedCost
    {
      costs := costs + [c];
      isAddedCost := true;
    }

    /** removeCost: deletes and erases the first cost named `name`
        (FindCost); with no match, or no cost ever added, nothing changes. */
    method RemoveCost(name: string)
      requires Valid()
      modifies this`costs, this`deletedCosts
      ensures Valid()
      ensures Costs() == RemoveCostFrom(old(Costs()), name)
    {
      if isAddedCost {
        if |costs| == 0 {
          return;
        }
        var i := 0;
        while i < |costs|
          invariant 0 <= i <= |costs|
          invariant costs == old(costs) && deletedCosts == old(deletedCosts)
          invariant FindCost(costs, name) == FindCostFrom(costs, name, i)
        {
          if costs[i].name == name {
            deletedCosts := deletedCosts + [costs[i]];
            costs := RemoveAt(costs, i);
            return;
          }
          i := i + 1;
        }
      }
    }

    /** initPlan: without a solver it fails and calls nothing; otherwise
        it calls init() and answers its result, marking the planning as
        initialized only on success (a failure keeps the old mark). */
    method InitPlan(initOutcome: bool) returns (ok: bool)
      requires Valid()
      modifies this`isInitializedPlanning, this`calls
      ensures Valid()
      ensures ok == (isSetSolver && initOutcome)
      ensures calls == if isSetSolver then old(calls) + [InitHook] else old(calls)
      ensures isInitializedPlanning == (old(isInitializedPlanning) || ok)
    {
      if isSetSolver {
        calls := calls + [InitHook];
        if !initOutcome {
          return false;
        }
        isInitializedPlanning := true;
      } else {
        return false;
      }
      return true;
    }

    /** computePlan: unless the planning is initialized and a solver set it
        fails and calls nothing; otherwise it calls compute(state) and
        answers its result.  No flag and no term list changes. */
    method ComputePlan(state: Pose, computeOutcome: bool) returns (ok: bool)
      modifies this`calls
      ensures ok == (isInitializedPlanning && isSetSolver && computeOutcome)
      ensures calls == if isInitializedPlanning && isSetSolver then old(calls) + [ComputeHook(state)] else old(calls)
    {
      if isInitializedPlanning {
        if isSetSolver {
          calls := calls + [ComputeHook(state)];
          if !computeOutcome {
            return false;
          }
        } else {
          return false;
        }
      } else {
        return false;
      }
      return true;
    }

    /** setComputationTime(t): stores the budget of the coupled planner. */
    method SetComputationTime(budget: real)
      modifies this`computationTime
      ensures computationTime == Seconds(budget)
    {
      computationTime := Seconds(budget);
    }

    /** setComputationTime(t, solver): hands the budget to the sub-planner
        RouteComputationTime names; an unlisted kind changes nothing. */
    method SetComputationTimeFor(budget: real, kind: SolverKind)
      requires (kind.BodyPathSolver? || kind.BodyPoseSolver?) ==> bodyPlanner.Some?
      requires kind.ContactSolver? ==> footstepPlanner.Some?
      modifies this`calls
      ensures calls == match RouteComputationTime(budget, kind, bodyPlanner, footstepPlanner)
        case Some(call) => old(calls) + [call]
        case None => old(calls)
    {
      var route := RouteComputationTime(budget, kind, bodyPlanner, footstepPlanner);
      if route.Some? {
        calls := calls + [route.value];
      }
    }

    /** setEnvironmentInformation(reward_map): forwards the map verbatim. */
    method SetRewardMap(rewardMap: seq<RewardCell>)
      requires environment.Some?
      modifies this`calls
      ensures calls == old(calls) + [RewardMapForwarded(environment.value, rewardMap)]
    {
      calls := calls + [RewardMapForwarded(environment.value, rewardMap)];
    }

    /** setEnvironmentInformation(obstacle_map): forwards the map verbatim. */
    method SetObstacleMap(obstacleMap: seq<Cell>)
      requires environment.Some?
      modifies this`calls
      ensures calls == old(calls) + [ObstacleMapForwarded(environment.value, obstacleMap)]
    {
      calls := calls + [ObstacleMapForwarded(environment.value, obstacleMap)];
    }
  }

  /** A freshly built planner refuses to initialize, does not call init(),
      and holds no terms. */
  method InitPlanBeforeResetFails(initOutcome: bool) returns (ok: bool, hookCalls: nat, terms: nat)
    ensures !ok && hookCalls == 0 && terms == 0
  {
    var p := new PlanningOfMotionSequences();
    ok := p.InitPlan(initOutcome);
    hookCalls := |p.calls|;
    terms := |p.activeConstraints| + |p.inactiveConstraints| + |p.costs|;
  }

  /** The lifecycle of a planner wired to one solver: computing before
      initializing fails, initializing answers init()'s result, and
      computing then answers compute()'s result exactly when init() had
      succeeded. */
  method PlanAfterReset(solverHandle: Handle, state: Pose, initOutcome: bool, computeOutcome: bool)
    returns (earlyOk: bool, initOk: bool, computeOk: bool)
    ensures !earlyOk
    ensures initOk == initOutcome
    ensures computeOk == (initOutcome && computeOutcome)
  {
    var p := new PlanningOfMotionSequences();
    earlyOk := p.ComputePlan(state, computeOutcome);
    p.ResetWithSolver(None, solverHandle, None);
    initOk := p.InitPlan(initOutcome);
    computeOk := p.ComputePlan(state, computeOutcome);
  }
}
