/**
 * CRMergeGroupBuilder: declares a merge group, a set of merge points the
 * runtime waits for together. Creating the builder appends a fresh empty group
 * to the graph; each `with` registers an item and adds the one merge point
 * that belongs to it; a merge point may only be started from a group that
 * has at least two members.
 */
module MergeGroupDsl {
  import opened Wrappers
  import opened Identities
  import opened ProcessingItems
  import opened ReactorGraphs

  datatype GroupError =
    | Registration(cause: RegistrationError)
    | MergePointCount(item: Identity, count: nat)
    | TooFewMembers(members: seq<Identity>)

  /**
   * What `mergePoint(...)` hands over to the merge-point builder (which is not
   * part of this model): the item whose merge point is being declared.
   */
  datatype MergePointStart = MergePointStart(item: ProcessingItem)

  /** The positions of the merge points whose owner `equals` the item. */
  function OwnedMergePoints(mps: seq<MergePoint>, item: ProcessingItem): set<nat>
    requires forall i :: 0 <= i < |mps| ==> mps[i].WellFormed()
    reads ItemObjects(MergePointsItems(mps)), item.Objects()
  {
    set i | 0 <= i < |mps| && ItemEquals(OwnerAt(mps, i), item)
  }

  /** In a graph whose identities are unique, a registered item owns only merge points it is itself the owner of. */
  lemma OwnedMergePointsAreTheItems(mps: seq<MergePoint>, keys: set<ProcessingItem>, item: ProcessingItem, i: nat)
    requires forall j :: 0 <= j < |mps| ==> mps[j].WellFormed()
    requires item in keys && IdentitiesUnique(keys)
    requires i < |mps| && mps[i].AsProcessingItem().value in keys
    ensures i in OwnedMergePoints(mps, item) <==> mps[i].AsProcessingItem().value == item
  {
    var owner := mps[i].AsProcessingItem().value;
    assert owner in mps[i].Items();
    if ItemEquals(owner, item) {
      EqualItemsShareIdentity(owner, item);
    }
    if owner == item {
      assert ItemEquals(item, item);
    }
  }

  class CRMergeGroupBuilder {
    const graph: ReactorGraph
    /** The group this builder fills, by position in `graph.mergeGroups`. */
    const groupIndex: nat

    ghost predicate Valid()
      reads this, graph
    {
      graph.Valid() && groupIndex < |graph.mergeGroups|
    }

    /** Appends exactly one new, empty group to the graph's merge groups. */
    constructor (graph: ReactorGraph)
      requires graph.Valid()
      modifies graph`mergeGroups
      ensures Valid()
      ensures this.graph == graph
      ensures graph.mergeGroups == old(graph.mergeGroups) + [MergeGroup([])]
      ensures groupIndex == |old(graph.mergeGroups)|
    {
      this.graph := graph;
      groupIndex := |graph.mergeGroups|;
      new;
      graph.mergeGroups := graph.mergeGroups + [MergeGroup([])];
    }

    /** The merge points the group holds so far. */
    ghost function Members(): seq<nat>
      reads this, graph
      requires Valid()
    {
      graph.mergeGroups[groupIndex].mergePoints
    }

    /**
     * `with(item)` (all three overloads): registers the item, then appends the
     * one merge point whose owner equals it. A registration conflict, or zero
     * or several such merge points, fail; the group is then unchanged (the
     * registration, once done, stays). The same merge point may be appended
     * again.
     */
    method With(item: ProcessingItem) returns (r: Result<CRMergeGroupBuilder, GroupError>)
      requires Valid()
      modifies graph`processingItems, graph`mergeGroups
      ensures Valid()
      ensures old(Conflicts(graph.processingItems.Keys, item)) ==>
        r == Err(Registration(DuplicateIdentity(ItemType(item), item.Identity())))
        && graph.processingItems == old(graph.processingItems)
        && graph.mergeGroups == old(graph.mergeGroups)
      ensures !old(Conflicts(graph.processingItems.Keys, item)) ==>
        graph.processingItems == Registered(old(graph.processingItems), item)
      ensures graph.mergePoints == old(graph.mergePoints)
      ensures var owned := OwnedMergePoints(graph.mergePoints, item);
        !old(Conflicts(graph.processingItems.Keys, item)) && |owned| != 1 ==>
          r == Err(MergePointCount(item.Identity(), |owned|)) && graph.mergeGroups == old(graph.mergeGroups)
      ensures var owned := OwnedMergePoints(graph.mergePoints, item);
        r.Ok? ==> r.value == this && AppendsOwned(old(graph.mergeGroups), groupIndex, owned, graph.mergeGroups)
      ensures r.Ok? <==> !old(Conflicts(graph.processingItems.Keys, item)) && |OwnedMergePoints(graph.mergePoints, item)| == 1
    {
      var registration := graph.EnsureRegistered(item);
      if registration.Fail? {
        return Err(Registration(registration.error));
      }
      r := AddOwned(item);
    }

    /** The group step of `with`: exactly one owned merge point is appended, anything else is an error. */
    method AddOwned(item: ProcessingItem) returns (r: Result<CRMergeGroupBuilder, GroupError>)
      requires Valid()
      modifies graph`mergeGroups
      ensures Valid()
      ensures var owned := OwnedMergePoints(graph.mergePoints, item);
        (r.Ok? <==> |owned| == 1)
        && (|owned| != 1 ==> r == Err(MergePointCount(item.Identity(), |owned|)) && graph.mergeGroups == old(graph.mergeGroups))
        && (r.Ok? ==> r.value == this && AppendsOwned(old(graph.mergeGroups), groupIndex, owned, graph.mergeGroups))
    {
      var owned := OwnedMergePoints(graph.mergePoints, item);
      if |owned| != 1 {
        return Err(MergePointCount(item.Identity(), |owned|));
      }
      var i :| i in owned;
      assert |owned - {i}| == 0;
      assert owned == {i};
      ghost var before := graph.mergeGroups;
      assert graph !in ItemObjects(MergePointsItems(graph.mergePoints)) && graph !in item.Objects();
      Append(i);
      assert AppendsOwned(before, groupIndex, owned, graph.mergeGroups);
      return Ok(this);
    }

    /** Appends merge point `i` to this group, leaving the other groups alone. */
    method Append(i: nat)
      requires Valid() && i < |graph.mergePoints|
      modifies graph`mergeGroups
      ensures Valid()
      ensures graph.mergeGroups ==
        old(graph.mergeGroups)[groupIndex := MergeGroup(old(graph.mergeGroups)[groupIndex].mergePoints + [i])]
    {
      graph.mergeGroups := graph.mergeGroups[groupIndex := MergeGroup(graph.mergeGroups[groupIndex].mergePoints + [i])];
    }

    /** `assertMergeGroup`: a group needs at least two members; the error lists the members' identities. */
    method AssertMergeGroup() returns (r: Outcome<GroupError>)
      requires Valid()
      ensures r.Pass? <==> |graph.mergeGroups[groupIndex].mergePoints| >= 2
      ensures r.Fail? ==>
        r.error == TooFewMembers(GroupIdentities(graph.mergeGroups[groupIndex].mergePoints, graph.mergePoints))
    {
      var members := graph.mergeGroups[groupIndex].mergePoints;
      if |members| < 2 {
        return Fail(TooFewMembers(GroupIdentities(members, graph.mergePoints)));
      }
      return Pass;
    }

    /**
     * `mergePoint(processor)` and `mergePoint(mergePoint)`: start declaring the
     * item's merge point, only from a group with at least two members.
     */
    method MergePoint(item: ProcessingItem) returns (r: Result<MergePointStart, GroupError>)
      requires Valid()
      requires !item.Subgraph?
      ensures r.Ok? <==> |graph.mergeGroups[groupIndex].mergePoints| >= 2
      ensures r.Ok? ==> r.value == MergePointStart(item)
      ensures r.Err? ==>
        r.error == TooFewMembers(GroupIdentities(graph.mergeGroups[groupIndex].mergePoints, graph.mergePoints))
    {
      var check := AssertMergeGroup();
      if check.Fail? {
        return Err(check.error);
      }
      return Ok(MergePointStart(item));
    }
  }

  /** Only group `g` changed, and it gained the one owned merge point at its end. */
  ghost predicate AppendsOwned(before: seq<MergeGroup>, g: nat, owned: set<nat>, after: seq<MergeGroup>)
  {
    g < |before|
    && exists i :: owned == {i} && after == before[g := MergeGroup(before[g].mergePoints + [i])]
  }

  /**
   * `with` does not look at the group's members: appending the owned merge
   * point twice leaves it in the group twice, after the members it had.
   */
  lemma AppendingTwiceDuplicates(g0: seq<MergeGroup>, g1: seq<MergeGroup>, g2: seq<MergeGroup>, g: nat, owned: set<nat>)
    requires AppendsOwned(g0, g, owned, g1) && AppendsOwned(g1, g, owned, g2)
    ensures exists i :: owned == {i} && g2 == g0[g := MergeGroup(g0[g].mergePoints + [i, i])]
  {
    var i :| owned == {i} && g1 == g0[g := MergeGroup(g0[g].mergePoints + [i])];
    var i' :| owned == {i'} && g2 == g1[g := MergeGroup(g1[g].mergePoints + [i'])];
    assert i' in owned;
    assert g0[g].mergePoints + [i] + [i] == g0[g].mergePoints + [i, i];
  }
}
