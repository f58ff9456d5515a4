/**
 * CRCoordinates: the DSL step that places the nodes of a built graph for the
 * graph viewer. Each call looks its node up by identity string, requires a
 * unique match, and then updates that one node of the graph in place.
 * The invocation point the source obtains by reflecting on the call stack is a
 * parameter here.
 */
module CoordinatesDsl {
  import opened Wrappers
  import opened Identities
  import opened GraphModel
  import opened ProcessingItems
  import opened ReactorGraphs

  datatype CoordinatesError =
    | MultipleMatches(pattern: string)
    | NoMatch(pattern: string)
    | MultipleCompleteTransitions(pattern: string)
    | NoCompleteTransition(pattern: string)
    /** `equals` called on the null identity string of a missing processor. */
    | NullDereference

  /** The registered items whose identity string is `pattern`. */
  function ItemMatches(keys: set<ProcessingItem>, pattern: string): set<ProcessingItem>
  {
    set k | k in keys && k.Serialize() == pattern
  }

  /** The positions of merge points of type `t` whose owner's identity string is `pattern`. */
  function MergePointMatches(mps: seq<MergePoint>, t: MergePointType, pattern: string): set<nat>
    requires forall i :: 0 <= i < |mps| ==> mps[i].WellFormed()
  {
    set i | 0 <= i < |mps| && mps[i].mergePointType == t && mps[i].AsProcessingItem().value.Serialize() == pattern
  }

  /**
   * The positions of PROCESSOR merge points whose `serialize(getProcessor())`
   * is `pattern` (the filter of `complete(Class, id)`).
   */
  function ProcessorFieldMatches(mps: seq<MergePoint>, pattern: string): set<nat>
    requires forall i :: 0 <= i < |mps| ==> mps[i].WellFormed()
  {
    set i | 0 <= i < |mps| && mps[i].mergePointType == ProcessorMerge && SerializeProcessor(mps[i].processor) == Some(pattern)
  }

  /** The positions of the completing transitions. */
  function CompleteTransitions(ts: seq<Transition>): set<nat>
  {
    set j | 0 <= j < |ts| && ts[j].isComplete
  }

  /**
   * The filter of `complete(int id)` as written: it asks for the identity
   * string of each DETACHED merge point's processor, which is null, and calls
   * `equals` on it. The result is the matching positions, or the failure of the
   * first such call.
   */
  function DetachedCompleteMatchesAsWritten(mps: seq<MergePoint>, pattern: string): (r: Result<set<nat>, CoordinatesError>)
    ensures r.Ok? ==> forall i :: i in r.value ==> 0 <= i < |mps|
  {
    if |mps| == 0 then Ok({})
    else
      var n := |mps| - 1;
      var prefix := DetachedCompleteMatchesAsWritten(mps[..n], pattern);
      if prefix.Err? then prefix
      else if mps[n].mergePointType != DetachedMerge then prefix
      else
        match SerializeProcessor(mps[n].processor)
        case None => Err(NullDereference)
        case Some(s) => if s == pattern then Ok(prefix.value + {n}) else prefix
  }

  /**
   * In a graph whose merge points are well formed, `complete(int id)` as
   * written fails as soon as there is any detached merge point, in particular
   * when the detached merge point numbered `id` exists with a completing
   * transition: the call it is meant for can never succeed.
   */
  lemma {:induction false} DetachedCompleteAsWrittenFails(mps: seq<MergePoint>, pattern: string, d: nat)
    requires forall i :: 0 <= i < |mps| ==> mps[i].WellFormed()
    requires d < |mps| && mps[d].mergePointType == DetachedMerge
    ensures DetachedCompleteMatchesAsWritten(mps, pattern) == Err(NullDereference)
  {
    var n := |mps| - 1;
    if d < n {
      DetachedCompleteAsWrittenFails(mps[..n], pattern, d);
    } else {
      NoErrorBeforeIsOk(mps[..n], pattern);
    }
  }

  /** Without a null dereference the as-written filter yields some matches. */
  lemma {:induction false} NoErrorBeforeIsOk(mps: seq<MergePoint>, pattern: string)
    ensures DetachedCompleteMatchesAsWritten(mps, pattern).Ok?
      || DetachedCompleteMatchesAsWritten(mps, pattern) == Err(NullDereference)
  {
    if |mps| > 0 {
      NoErrorBeforeIsOk(mps[..|mps| - 1], pattern);
    }
  }

  /** A detached merge point matches the pattern `MergePoint@id` exactly when it has that id. */
  lemma DetachedMatchesById(mps: seq<MergePoint>, id: int, i: nat)
    requires forall j :: 0 <= j < |mps| ==> mps[j].WellFormed()
    ensures i in MergePointMatches(mps, DetachedMerge, SerializeMergePoint(id))
      <==> i < |mps| && mps[i].mergePointType == DetachedMerge && mps[i].mergePoint.value.id == id
  {
    if i < |mps| && mps[i].mergePointType == DetachedMerge
      && mps[i].AsProcessingItem().value.Serialize() == SerializeMergePoint(id) {
      SerializeMergePointInjective(mps[i].mergePoint.value.id, id);
    }
  }

  /**
   * A processor merge point matches `serialize(type, id)` exactly when its
   * processor has a type of that simple name and that id.
   */
  lemma ProcessorMergeMatchesByTypeAndId(mps: seq<MergePoint>, c: JavaClass, id: int, i: nat)
    requires forall j :: 0 <= j < |mps| ==> mps[j].WellFormed()
    requires IsSimpleName(c)
    requires forall j :: 0 <= j < |mps| && mps[j].processor.Some? ==>
      IsSimpleName(mps[j].processor.value.processorDescription.processorType)
    ensures i in MergePointMatches(mps, ProcessorMerge, SerializeType(c, id))
      <==> (i < |mps| && mps[i].mergePointType == ProcessorMerge
           && mps[i].processor.value.processorDescription.processorType.simpleName == c.simpleName
           && mps[i].processor.value.id == id)
  {
    if i < |mps| && mps[i].mergePointType == ProcessorMerge {
      ProcessorMatchesTypeString(mps[i].AsProcessingItem().value, c, id);
    }
  }

  /** For processor merge points, the `complete(Class, id)` filter on the processor field agrees with `asProcessingItem`. */
  lemma ProcessorFieldMatchesAgree(mps: seq<MergePoint>, pattern: string)
    requires forall j :: 0 <= j < |mps| ==> mps[j].WellFormed()
    ensures ProcessorFieldMatches(mps, pattern) == MergePointMatches(mps, ProcessorMerge, pattern)
  {
    forall i | i in MergePointMatches(mps, ProcessorMerge, pattern)
      ensures i in ProcessorFieldMatches(mps, pattern)
    {
      assert SerializeProcessor(mps[i].processor) == Some(Processor(mps[i].processor.value).Serialize());
    }
  }

  class CRCoordinates {
    const graph: ReactorGraph

    constructor (graph: ReactorGraph)
      ensures this.graph == graph
    {
      this.graph := graph;
    }

    /** `start(x, y)`: places the start point at exactly (x, y) and records where this was called. */
    method Start(x: int, y: int, invocationPoint: Option<Source>) returns (r: CRCoordinates)
      requires graph.Valid()
      modifies graph`startPoint
      ensures graph.Valid()
      ensures r == this
      ensures graph.startPoint ==
        old(graph.startPoint).(coordinates := Some(Coordinates(x, y)), coordinatesSource := invocationPoint)
    {
      graph.startPoint := graph.startPoint.(coordinates := Some(Coordinates(x, y)), coordinatesSource := invocationPoint);
      r := this;
    }

    /**
     * `proc(type, id, x, y)`: the one registered item whose identity string is
     * `serialize(type, id)` gets coordinates (x, y) and the invocation point;
     * with several or no such items it fails and nothing changes.
     */
    method Proc(processorType: JavaClass, id: int, x: int, y: int, invocationPoint: Option<Source>)
      returns (r: Result<CRCoordinates, CoordinatesError>)
      requires graph.Valid()
      modifies graph`processingItems
      ensures graph.Valid()
      ensures var matches := ItemMatches(old(graph.processingItems).Keys, SerializeType(processorType, id));
        (r.Ok? <==> |matches| == 1)
        && (|matches| > 1 ==> r == Err(MultipleMatches(SerializeType(processorType, id))))
        && (|matches| == 0 ==> r == Err(NoMatch(SerializeType(processorType, id))))
        && (r.Err? ==> graph.processingItems == old(graph.processingItems))
        && (r.Ok? ==> r.value == this && SetsItemCoordinates(old(graph.processingItems), matches, x, y, invocationPoint, graph.processingItems))
    {
      var pattern := SerializeType(processorType, id);
      var matches := ItemMatches(graph.processingItems.Keys, pattern);
      if |matches| > 1 {
        return Err(MultipleMatches(pattern));
      } else if |matches| == 0 {
        return Err(NoMatch(pattern));
      }
      var k := TheOnly(matches);
      var info := graph.processingItems[k];
      graph.processingItems := graph.processingItems[k :=
        info.(coordinates := Some(Coordinates(x, y)), coordinatesSource := invocationPoint)];
      return Ok(this);
    }

    /**
     * `merge(type, id, x, y)`: the one PROCESSOR merge point whose processor's
     * identity string is `serialize(type, id)` gets coordinates (x, y); its
     * coordinates source is left as it was. Otherwise it fails and nothing changes.
     */
    method MergeProcessor(processorType: JavaClass, id: int, x: int, y: int)
      returns (r: Result<CRCoordinates, CoordinatesError>)
      requires graph.Valid()
      modifies graph`mergePoints
      ensures graph.Valid()
      ensures var pattern := SerializeType(processorType, id);
        var matches := MergePointMatches(old(graph.mergePoints), ProcessorMerge, pattern);
        (r.Ok? <==> |matches| == 1)
        && (|matches| > 1 ==> r == Err(MultipleMatches(pattern)))
        && (|matches| == 0 ==> r == Err(NoMatch(pattern)))
        && (r.Err? ==> graph.mergePoints == old(graph.mergePoints))
        && (r.Ok? ==> r.value == this && SetsMergePointCoordinates(old(graph.mergePoints), matches, x, y, graph.mergePoints))
    {
      r := SetMergePointCoordinates(ProcessorMerge, SerializeType(processorType, id), x, y);
    }

    /**
     * `merge(id, x, y)`: the same for the one DETACHED merge point whose
     * identity string is `MergePoint@id`.
     */
    method MergeDetached(id: int, x: int, y: int) returns (r: Result<CRCoordinates, CoordinatesError>)
      requires graph.Valid()
      modifies graph`mergePoints
      ensures graph.Valid()
      ensures var pattern := SerializeMergePoint(id);
        var matches := MergePointMatches(old(graph.mergePoints), DetachedMerge, pattern);
        (r.Ok? <==> |matches| == 1)
        && (|matches| > 1 ==> r == Err(MultipleMatches(pattern)))
        && (|matches| == 0 ==> r == Err(NoMatch(pattern)))
        && (r.Err? ==> graph.mergePoints == old(graph.mergePoints))
        && (r.Ok? ==> r.value == this && SetsMergePointCoordinates(old(graph.mergePoints), matches, x, y, graph.mergePoints))
    {
      r := SetMergePointCoordinates(DetachedMerge, SerializeMergePoint(id), x, y);
    }

    /** The lookup and update shared by both `merge` overloads. */
    method SetMergePointCoordinates(t: MergePointType, pattern: string, x: int, y: int)
      returns (r: Result<CRCoordinates, CoordinatesError>)
      requires graph.Valid()
      modifies graph`mergePoints
      ensures graph.Valid()
      ensures var matches := MergePointMatches(old(graph.mergePoints), t, pattern);
        (r.Ok? <==> |matches| == 1)
        && (|matches| > 1 ==> r == Err(MultipleMatches(pattern)))
        && (|matches| == 0 ==> r == Err(NoMatch(pattern)))
        && (r.Err? ==> graph.mergePoints == old(graph.mergePoints))
        && (r.Ok? ==> r.value == this && SetsMergePointCoordinates(old(graph.mergePoints), matches, x, y, graph.mergePoints))
    {
      var matches := MergePointMatches(graph.mergePoints, t, pattern);
      if |matches| > 1 {
        return Err(MultipleMatches(pattern));
      } else if |matches| == 0 {
        return Err(NoMatch(pattern));
      }
      var i := TheOnly(matches);
      graph.mergePoints := graph.mergePoints[i := graph.mergePoints[i].(coordinates := Some(Coordinates(x, y)))];
      return Ok(this);
    }

    /**
     * `complete(type, id, x, y)`: within the one PROCESSOR merge point whose
     * processor's identity string is `serialize(type, id)`, the one completing
     * transition gets completion coordinates (x, y) and the invocation point.
     * Several or no such merge points, or several or no completing
     * transitions, fail and change nothing.
     */
    method CompleteProcessor(processorType: JavaClass, id: int, x: int, y: int, invocationPoint: Option<Source>)
      returns (r: Result<CRCoordinates, CoordinatesError>)
      requires graph.Valid()
      modifies graph`mergePoints
      ensures graph.Valid()
      ensures var pattern := SerializeType(processorType, id);
        var matches := ProcessorFieldMatches(old(graph.mergePoints), pattern);
        (|matches| > 1 ==> r == Err(MultipleMatches(pattern)))
        && (|matches| == 0 ==> r == Err(NoMatch(pattern)))
        && (r.Err? ==> graph.mergePoints == old(graph.mergePoints))
        && (r.Ok? ==> r.value == this)
        && (|matches| == 1 ==>
              exists i :: matches == {i} && SetsCompletion(old(graph.mergePoints), i, pattern, x, y, invocationPoint, r, graph.mergePoints))
    {
      var pattern := SerializeType(processorType, id);
      var matches := ProcessorFieldMatches(graph.mergePoints, pattern);
      if |matches| > 1 {
        return Err(MultipleMatches(pattern));
      } else if |matches| == 0 {
        return Err(NoMatch(pattern));
      }
      var i := TheOnly(matches);
      r := SetCompletion(i, pattern, x, y, invocationPoint);
    }

    /**
     * `complete(id, x, y)` with the filter `merge(id, x, y)` uses: the one
     * DETACHED merge point numbered `id`, then its one completing transition.
     */
    method CompleteDetached(id: int, x: int, y: int, invocationPoint: Option<Source>)
      returns (r: Result<CRCoordinates, CoordinatesError>)
      requires graph.Valid()
      modifies graph`mergePoints
      ensures graph.Valid()
      ensures var pattern := SerializeMergePoint(id);
        var matches := MergePointMatches(old(graph.mergePoints), DetachedMerge, pattern);
        (|matches| > 1 ==> r == Err(MultipleMatches(pattern)))
        && (|matches| == 0 ==> r == Err(NoMatch(pattern)))
        && (r.Err? ==> graph.mergePoints == old(graph.mergePoints))
        && (r.Ok? ==> r.value == this)
        && (|matches| == 1 ==>
              exists i :: matches == {i} && SetsCompletion(old(graph.mergePoints), i, pattern, x, y, invocationPoint, r, graph.mergePoints))
    {
      var pattern := SerializeMergePoint(id);
      var matches := MergePointMatches(graph.mergePoints, DetachedMerge, pattern);
      if |matches| > 1 {
        return Err(MultipleMatches(pattern));
      } else if |matches| == 0 {
        return Err(NoMatch(pattern));
      }
      var i := TheOnly(matches);
      r := SetCompletion(i, pattern, x, y, invocationPoint);
    }

    /** The completing-transition lookup and update of both `complete` overloads, in merge point `i`. */
    method SetCompletion(i: nat, pattern: string, x: int, y: int, invocationPoint: Option<Source>)
      returns (r: Result<CRCoordinates, CoordinatesError>)
      requires graph.Valid() && i < |graph.mergePoints|
      modifies graph`mergePoints
      ensures graph.Valid()
      ensures r.Ok? ==> r.value == this
      ensures r.Err? ==> graph.mergePoints == old(graph.mergePoints)
      ensures SetsCompletion(old(graph.mergePoints), i, pattern, x, y, invocationPoint, r, graph.mergePoints)
    {
      var mp := graph.mergePoints[i];
      var completes := CompleteTransitions(mp.transitions);
      if |completes| > 1 {
        return Err(MultipleCompleteTransitions(pattern));
      } else if |completes| == 0 {
        return Err(NoCompleteTransition(pattern));
      }
      var j := TheOnly(completes);
      var t := mp.transitions[j];
      var transitions := mp.transitions[j := t.(completeCoordinates := Some(Coordinates(x, y)),
                                               completeCoordinatesSource := invocationPoint)];
      graph.mergePoints := graph.mergePoints[i := mp.(transitions := transitions)];
      return Ok(this);
    }
  }

  /**
   * The outcome of setting the completion coordinates in merge point `i`: with
   * exactly one completing transition, that transition alone gets (x, y) and the
   * invocation point; with several or none, the matching error and no change.
   */
  ghost predicate SetsCompletion(
    before: seq<MergePoint>, i: nat, pattern: string, x: int, y: int, invocationPoint: Option<Source>,
    r: Result<CRCoordinates, CoordinatesError>, after: seq<MergePoint>)
  {
    i < |before|
    && var completes := CompleteTransitions(before[i].transitions);
    (r.Ok? <==> |completes| == 1)
    && (|completes| > 1 ==> r == Err(MultipleCompleteTransitions(pattern)) && after == before)
    && (|completes| == 0 ==> r == Err(NoCompleteTransition(pattern)) && after == before)
    && (|completes| == 1 ==>
          exists j :: completes == {j} && j < |before[i].transitions|
            && after == before[i := before[i].(transitions := before[i].transitions[j :=
                 before[i].transitions[j].(completeCoordinates := Some(Coordinates(x, y)),
                                           completeCoordinatesSource := invocationPoint)])])
  }

  /** Only the one matching item changed: it got coordinates (x, y) and the invocation point. */
  ghost predicate SetsItemCoordinates(
    before: map<ProcessingItem, ProcessingItemInfo>, matches: set<ProcessingItem>, x: int, y: int,
    invocationPoint: Option<Source>, after: map<ProcessingItem, ProcessingItemInfo>)
  {
    exists k :: matches == {k} && k in before
      && after == before[k := before[k].(coordinates := Some(Coordinates(x, y)), coordinatesSource := invocationPoint)]
  }

  /** Only the one matching merge point changed: it got coordinates (x, y), its source kept. */
  ghost predicate SetsMergePointCoordinates(before: seq<MergePoint>, matches: set<nat>, x: int, y: int, after: seq<MergePoint>)
  {
    exists i :: matches == {i} && i < |before|
      && after == before[i := before[i].(coordinates := Some(Coordinates(x, y)))]
  }

  /** The element of a one-element set. */
  method TheOnly<T>(s: set<T>) returns (i: T)
    requires |s| == 1
    ensures s == {i}
  {
    i :| i in s;
    assert |s - {i}| == 0;
  }
}
