/** Constraints and costs as the planner stores them, and the value-level
    meaning of looking one up by name.

    removeConstraint scans the active and the inactive list together: at
    each index i it first tries active[i], then inactive[i].  removeCost
    scans the single cost list from the front.  Both stop at the first
    name match. */
module Terms {

  datatype Option<T> = None | Some(value: T)

  /** A constraint handed to the planner: its identity (the object), its
      name, and what isActive() answered when it was added. */
  datatype Constraint = Constraint(id: nat, name: string, isActive: bool)

  /** A cost term: its identity and its name. */
  datatype Cost = Cost(id: nat, name: string)

  /** Which of the two constraint lists a position refers to. */
  datatype Side = ActiveList | InactiveList

  /** A position in the interleaved scan of the two constraint lists. */
  datatype Hit = Hit(side: Side, index: nat)

  function Max(x: nat, y: nat): nat
  {
    if x < y then y else x
  }

  /** The sequence with its k-th element erased (std::vector::erase):
      the elements before k stay in place, those after it move down one. */
  function RemoveAt<T>(s: seq<T>, k: nat): (r: seq<T>)
    requires k < |s|
    ensures |r| == |s| - 1
    ensures forall j :: 0 <= j < k ==> r[j] == s[j]
    ensures forall j :: k <= j < |r| ==> r[j] == s[j + 1]
  {
    s[..k] + s[k + 1..]
  }

  /** Erasing moves exactly one occurrence of s[k] out of the sequence. */
  lemma RemoveAtMultiset<T>(s: seq<T>, k: nat)
    requires k < |s|
    ensures multiset(RemoveAt(s, k)) + multiset{s[k]} == multiset(s)
  {
    assert s == s[..k] + [s[k]] + s[k + 1..];
  }

  /** The constraint at position h exists and carries the given name. */
  predicate MatchesAt(active: seq<Constraint>, inactive: seq<Constraint>, name: string, h: Hit)
  {
    match h.side
    case ActiveList => h.index < |active| && active[h.index].name == name
    case InactiveList => h.index < |inactive| && inactive[h.index].name == name
  }

  /** g comes before h in the scan order: lower index first, and at the
      same index the active list before the inactive one. */
  predicate ScannedBefore(g: Hit, h: Hit)
  {
    g.index < h.index || (g.index == h.index && g.side == ActiveList && h.side == InactiveList)
  }

  /** Reference definition: h is a match and no position scanned earlier is one. */
  ghost predicate IsFirstConstraintMatch(active: seq<Constraint>, inactive: seq<Constraint>, name: string, h: Hit)
  {
    MatchesAt(active, inactive, name, h) &&
    forall g :: ScannedBefore(g, h) ==> !MatchesAt(active, inactive, name, g)
  }

  /** The scan of removeConstraint, from index i up to the longer length. */
  function ScanFrom(active: seq<Constraint>, inactive: seq<Constraint>, name: string, i: nat): (r: Option<Hit>)
    ensures r.Some? ==> MatchesAt(active, inactive, name, r.value) && i <= r.value.index
    decreases Max(|active|, |inactive|) - i
  {
    if i >= Max(|active|, |inactive|) then None
    else if i < |active| && active[i].name == name then Some(Hit(ActiveList, i))
    else if i < |inactive| && inactive[i].name == name then Some(Hit(InactiveList, i))
    else ScanFrom(active, inactive, name, i + 1)
  }

  /** The position removeConstraint erases, if any. */
  function FindConstraint(active: seq<Constraint>, inactive: seq<Constraint>, name: string): (r: Option<Hit>)
    ensures r.Some? ==> MatchesAt(active, inactive, name, r.value)
  {
    ScanFrom(active, inactive, name, 0)
  }

  lemma {:induction false} ScanFromIsFirst(active: seq<Constraint>, inactive: seq<Constraint>, name: string, i: nat, h: Hit)
    requires ScanFrom(active, inactive, name, i) == Some(h)
    ensures forall g :: ScannedBefore(g, h) && i <= g.index ==> !MatchesAt(active, inactive, name, g)
    decreases Max(|active|, |inactive|) - i
  {
    if i < |active| && active[i].name == name {
    } else if i < |inactive| && inactive[i].name == name {
      assert h == Hit(InactiveList, i);
      forall g | ScannedBefore(g, h) && i <= g.index
        ensures !MatchesAt(active, inactive, name, g)
      {
        assert g == Hit(ActiveList, i);
      }
    } else {
      ScanFromIsFirst(active, inactive, name, i + 1, h);
      forall g | ScannedBefore(g, h) && i <= g.index
        ensures !MatchesAt(active, inactive, name, g)
      {
        if g.index == i {
          assert g == Hit(ActiveList, i) || g == Hit(InactiveList, i);
        }
      }
    }
  }

  lemma {:induction false} ScanFromNone(active: seq<Constraint>, inactive: seq<Constraint>, name: string, i: nat)
    requires ScanFrom(active, inactive, name, i) == None
    ensures forall g: Hit :: i <= g.index ==> !MatchesAt(active, inactive, name, g)
    decreases Max(|active|, |inactive|) - i
  {
    if i < Max(|active|, |inactive|) {
      ScanFromNone(active, inactive, name, i + 1);
      forall g: Hit | i <= g.index
        ensures !MatchesAt(active, inactive, name, g)
      {
        if g.index == i {
          assert g.side == ActiveList || g.side == InactiveList;
        }
      }
    }
  }

  /** removeConstraint erases exactly the first match in scan order. */
  lemma FindConstraintIsFirstMatch(active: seq<Constraint>, inactive: seq<Constraint>, name: string, h: Hit)
    ensures FindConstraint(active, inactive, name) == Some(h) <==> IsFirstConstraintMatch(active, inactive, name, h)
  {
    match ScanFrom(active, inactive, name, 0)
    case Some(f) =>
      ScanFromIsFirst(active, inactive, name, 0, f);
    case None =>
      ScanFromNone(active, inactive, name, 0);
  }

  /** removeConstraint finds nothing exactly when no constraint in either
      list has the name. */
  lemma FindConstraintNoneIffNoMatch(active: seq<Constraint>, inactive: seq<Constraint>, name: string)
    ensures FindConstraint(active, inactive, name) == None <==>
      (forall c :: c in active ==> c.name != name) && (forall c :: c in inactive ==> c.name != name)
  {
    if FindConstraint(active, inactive, name) == None {
      ScanFromNone(active, inactive, name, 0);
      forall c | c in active ensures c.name != name {
        var j :| 0 <= j < |active| && active[j] == c;
        assert !MatchesAt(active, inactive, name, Hit(ActiveList, j));
      }
      forall c | c in inactive ensures c.name != name {
        var j :| 0 <= j < |inactive| && inactive[j] == c;
        assert !MatchesAt(active, inactive, name, Hit(InactiveList, j));
      }
    } else {
      var h := FindConstraint(active, inactive, name).value;
      if h.side == ActiveList {
        assert active[h.index] in active;
      } else {
        assert inactive[h.index] in inactive;
      }
    }
  }

  /** A constraint just appended under a fresh name is the one the next
      removal by that name erases, and erasing it gives back the old list. */
  lemma AddedConstraintIsRemovedFirst(active: seq<Constraint>, inactive: seq<Constraint>, c: Constraint)
    requires forall x :: x in active ==> x.name != c.name
    requires forall x :: x in inactive ==> x.name != c.name
    ensures c.isActive ==>
      FindConstraint(active + [c], inactive, c.name) == Some(Hit(ActiveList, |active|)) &&
      RemoveAt(active + [c], |active|) == active
    ensures !c.isActive ==>
      FindConstraint(active, inactive + [c], c.name) == Some(Hit(InactiveList, |inactive|)) &&
      RemoveAt(inactive + [c], |inactive|) == inactive
  {
    if c.isActive {
      var a, h := active + [c], Hit(ActiveList, |active|);
      forall g | ScannedBefore(g, h) ensures !MatchesAt(a, inactive, c.name, g) {
        if g.side == ActiveList {
          assert g.index < |active| ==> a[g.index] == active[g.index];
          assert g.index < |active| ==> active[g.index] in active;
        } else {
          assert g.index < |inactive| ==> inactive[g.index] in inactive;
        }
      }
      FindConstraintIsFirstMatch(a, inactive, c.name, h);
      assert a[..|active|] == active;
    } else {
      var b, h := inactive + [c], Hit(InactiveList, |inactive|);
      forall g | ScannedBefore(g, h) ensures !MatchesAt(active, b, c.name, g) {
        if g.side == ActiveList {
          assert g.index < |active| ==> active[g.index] in active;
        } else {
          assert g.index < |inactive| ==> b[g.index] == inactive[g.index];
          assert g.index < |inactive| ==> inactive[g.index] in inactive;
        }
      }
      FindConstraintIsFirstMatch(active, b, c.name, h);
      assert b[..|inactive|] == inactive;
    }
  }

  /** Reference definition: k is the smallest index of a cost with the name. */
  ghost predicate IsFirstCostMatch(costs: seq<Cost>, name: string, k: nat)
  {
    k < |costs| && costs[k].name == name &&
    forall j :: 0 <= j < k ==> costs[j].name != name
  }

  /** The scan of removeCost, from index i. */
  function FindCostFrom(costs: seq<Cost>, name: string, i: nat): (r: Option<nat>)
    ensures r.Some? ==> i <= r.value < |costs| && costs[r.value].name == name
    decreases |costs| - i
  {
    if i >= |costs| then None
    else if costs[i].name == name then Some(i)
    else FindCostFrom(costs, name, i + 1)
  }

  /** The index removeCost erases, if any. */
  function FindCost(costs: seq<Cost>, name: string): (r: Option<nat>)
    ensures r.Some? ==> r.value < |costs| && costs[r.value].name == name
  {
    FindCostFrom(costs, name, 0)
  }

  lemma {:induction false} FindCostFromSkips(costs: seq<Cost>, name: string, i: nat)
    ensures FindCostFrom(costs, name, i).Some? ==>
      forall j :: i <= j < FindCostFrom(costs, name, i).value ==> costs[j].name != name
    ensures FindCostFrom(costs, name, i).None? ==>
      forall j :: i <= j < |costs| ==> costs[j].name != name
    decreases |costs| - i
  {
    if i < |costs| && costs[i].name != name {
      FindCostFromSkips(costs, name, i + 1);
    }
  }

  /** removeCost erases exactly the first cost with the name. */
  lemma FindCostIsFirstMatch(costs: seq<Cost>, name: string, k: nat)
    ensures FindCost(costs, name) == Some(k) <==> IsFirstCostMatch(costs, name, k)
  {
    FindCostFromSkips(costs, name, 0);
  }

  /** removeCost finds nothing exactly when no cost has the name. */
  lemma FindCostNoneIffNoMatch(costs: seq<Cost>, name: string)
    ensures FindCost(costs, name) == None <==> forall c :: c in costs ==> c.name != name
  {
    FindCostFromSkips(costs, name, 0);
    if FindCost(costs, name).Some? {
      assert costs[FindCost(costs, name).value] in costs;
    }
  }

  /** A cost just appended under a fresh name is the one the next removal
      by that name erases, and erasing it gives back the old list. */
  lemma AddedCostIsRemovedFirst(costs: seq<Cost>, c: Cost)
    requires forall x :: x in costs ==> x.name != c.name
    ensures FindCost(costs + [c], c.name) == Some(|costs|)
    ensures RemoveAt(costs + [c], |costs|) == costs
  {
    var s := costs + [c];
    forall j | 0 <= j < |costs| ensures s[j].name != c.name {
      assert s[j] == costs[j] && costs[j] in costs;
    }
    FindCostIsFirstMatch(s, c.name, |costs|);
    assert s[..|costs|] == costs;
  }

  /** What the planner holds of its constraints: the two lists, and the
      constraints it has deleted, in the order of deletion. */
  datatype ConstraintLists = ConstraintLists(active: seq<Constraint>, inactive: seq<Constraint>, deleted: seq<Constraint>)

  /** What the planner holds of its costs: the list and the deleted ones. */
  datatype CostLists = CostLists(costs: seq<Cost>, deleted: seq<Cost>)

  /** Every constraint handed over, once per hand-over: live or deleted. */
  ghost function HandedOverConstraints(l: ConstraintLists): multiset<Constraint>
  {
    multiset(l.active) + multiset(l.inactive) + multiset(l.deleted)
  }

  /** Every cost handed over, once per hand-over: live or deleted. */
  ghost function HandedOverCosts(l: CostLists): multiset<Cost>
  {
    multiset(l.costs) + multiset(l.deleted)
  }

  /** addConstraint on the lists: append to the list isActive() selects. */
  function AddConstraintTo(l: ConstraintLists, c: Constraint): ConstraintLists
  {
    if c.isActive then l.(active := l.active + [c]) else l.(inactive := l.inactive + [c])
  }

  /** removeConstraint on the lists: erase and delete the first match of
      the interleaved scan, or change nothing. */
  function RemoveConstraintFrom(l: ConstraintLists, name: string): ConstraintLists
  {
    match FindConstraint(l.active, l.inactive, name)
    case None => l
    case Some(Hit(ActiveList, k)) => ConstraintLists(RemoveAt(l.active, k), l.inactive, l.deleted + [l.active[k]])
    case Some(Hit(InactiveList, k)) => ConstraintLists(l.active, RemoveAt(l.inactive, k), l.deleted + [l.inactive[k]])
  }

  /** The destructor on the lists: delete the active, then the inactive
      constraints, each list in order. */
  function DestroyConstraints(l: ConstraintLists): ConstraintLists
  {
    ConstraintLists([], [], l.deleted + l.active + l.inactive)
  }

  /** addCost on the lists: append. */
  function AddCostTo(l: CostLists, c: Cost): CostLists
  {
    l.(costs := l.costs + [c])
  }

  /** removeCost on the lists: erase and delete the first match, or change nothing. */
  function RemoveCostFrom(l: CostLists, name: string): CostLists
  {
    match FindCost(l.costs, name)
    case None => l
    case Some(k) => CostLists(RemoveAt(l.costs, k), l.deleted + [l.costs[k]])
  }

  /** The destructor on the cost list: delete every cost in order. */
  function DestroyCosts(l: CostLists): CostLists
  {
    CostLists([], l.deleted + l.costs)
  }

  /** Adding hands over exactly the new constraint. */
  lemma AddConstraintHandsOverOne(l: ConstraintLists, c: Constraint)
    ensures HandedOverConstraints(AddConstraintTo(l, c)) == HandedOverConstraints(l) + multiset{c}
  {
  }

  /** Removal neither loses nor duplicates a constraint: the erased one is
      now among the deleted, and at most one constraint is erased, exactly
      when some constraint has the name. */
  lemma RemoveConstraintKeepsHandedOver(l: ConstraintLists, name: string)
    ensures HandedOverConstraints(RemoveConstraintFrom(l, name)) == HandedOverConstraints(l)
    ensures var r := RemoveConstraintFrom(l, name);
      |r.active| + |r.inactive| + (if FindConstraint(l.active, l.inactive, name).Some? then 1 else 0) == |l.active| + |l.inactive|
  {
    match FindConstraint(l.active, l.inactive, name)
    case None =>
    case Some(Hit(ActiveList, k)) => RemoveAtMultiset(l.active, k);
    case Some(Hit(InactiveList, k)) => RemoveAtMultiset(l.inactive, k);
  }

  /** With no constraint of that name in either list (in particular with
      both lists empty), removal changes nothing. */
  lemma RemoveConstraintWithoutMatchIsNoOp(l: ConstraintLists, name: string)
    requires forall x :: x in l.active ==> x.name != name
    requires forall x :: x in l.inactive ==> x.name != name
    ensures RemoveConstraintFrom(l, name) == l
  {
    FindConstraintNoneIffNoMatch(l.active, l.inactive, name);
  }

  /** With no cost of that name (in particular with an empty list),
      removal changes nothing. */
  lemma RemoveCostWithoutMatchIsNoOp(l: CostLists, name: string)
    requires forall x :: x in l.costs ==> x.name != name
    ensures RemoveCostFrom(l, name) == l
  {
    FindCostNoneIffNoMatch(l.costs, name);
  }

  /** The destructor deletes exactly what was handed over and not yet deleted. */
  lemma DestroyConstraintsDeletesAll(l: ConstraintLists)
    ensures HandedOverConstraints(DestroyConstraints(l)) == HandedOverConstraints(l)
    ensures multiset(DestroyConstraints(l).deleted) == HandedOverConstraints(l)
  {
  }

  lemma AddCostHandsOverOne(l: CostLists, c: Cost)
    ensures HandedOverCosts(AddCostTo(l, c)) == HandedOverCosts(l) + multiset{c}
  {
  }

  /** Cost removal neither loses nor duplicates a cost, and erases one
      exactly when some cost has the name. */
  lemma RemoveCostKeepsHandedOver(l: CostLists, name: string)
    ensures HandedOverCosts(RemoveCostFrom(l, name)) == HandedOverCosts(l)
    ensures |RemoveCostFrom(l, name).costs| + (if FindCost(l.costs, name).Some? then 1 else 0) == |l.costs|
  {
    match FindCost(l.costs, name)
    case None =>
    case Some(k) => RemoveAtMultiset(l.costs, k);
  }

  lemma DestroyCostsDeletesAll(l: CostLists)
    ensures multiset(DestroyCosts(l).deleted) == HandedOverCosts(l)
  {
  }

  /** Adding a constraint under a fresh name and then removing that name
      deletes exactly that constraint and gives back both lists; a second
      removal of the name changes nothing. */
  lemma AddThenRemoveConstraint(l: ConstraintLists, c: Constraint)
    requires forall x :: x in l.active ==> x.name != c.name
    requires forall x :: x in l.inactive ==> x.name != c.name
    ensures RemoveConstraintFrom(AddConstraintTo(l, c), c.name) == l.(deleted := l.deleted + [c])
    ensures RemoveConstraintFrom(l.(deleted := l.deleted + [c]), c.name) == l.(deleted := l.deleted + [c])
  {
    AddedConstraintIsRemovedFirst(l.active, l.inactive, c);
    FindConstraintNoneIffNoMatch(l.active, l.inactive, c.name);
  }

  /** Adding a cost under a fresh name and then removing that name deletes
      exactly that cost and gives back the list; a second removal changes
      nothing. */
  lemma AddThenRemoveCost(l: CostLists, c: Cost)
    requires forall x :: x in l.costs ==> x.name != c.name
    ensures RemoveCostFrom(AddCostTo(l, c), c.name) == l.(deleted := l.deleted + [c])
    ensures RemoveCostFrom(l.(deleted := l.deleted + [c]), c.name) == l.(deleted := l.deleted + [c])
  {
    AddedCostIsRemovedFirst(l.costs, c);
    FindCostNoneIffNoMatch(l.costs, c.name);
  }
}
