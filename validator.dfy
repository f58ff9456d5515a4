/**
 * ProcessorsHaveIncomingFlowsValidator: every processor and every subgraph of
 * a serialised graph must be reachable, either because the start point hands
 * the payload to it or because some transition of some merge point is
 * handled by it. Being the merge target of a transition does not count, and
 * merge points themselves are not checked.
 */
module Validators {
  import opened Wrappers
  import opened Identities
  import opened GraphModel

  datatype ValidationError = NoIncomingTransitions(processingItem: Identity)

  /** Some transition of some merge point is handled by `id`. */
  ghost predicate HandledByTransition(mps: seq<MergePointModel>, id: Identity)
  {
    exists i, j :: 0 <= i < |mps| && 0 <= j < |mps[i].transitions|
      && mps[i].transitions[j].handleByProcessingItem == Some(id)
  }

  /** The non-null `handleByProcessingItem` of the given transitions. */
  function HandleByOf(ts: seq<TransitionModel>): (r: set<Identity>)
    ensures forall id :: id in r <==>
      exists j :: 0 <= j < |ts| && ts[j].handleByProcessingItem == Some(id)
  {
    if |ts| == 0 then {}
    else
      var last := ts[|ts| - 1];
      var rest := HandleByOf(ts[..|ts| - 1]);
      assert forall j :: 0 <= j < |ts| - 1 ==> ts[..|ts| - 1][j] == ts[j];
      if last.handleByProcessingItem.Some? then rest + {last.handleByProcessingItem.value} else rest
  }

  /** The non-null `handleByProcessingItem` of every transition of every merge point. */
  function HandleByTargets(mps: seq<MergePointModel>): (r: set<Identity>)
    ensures forall id :: id in r <==> HandledByTransition(mps, id)
  {
    if |mps| == 0 then {}
    else
      var rest := HandleByTargets(mps[..|mps| - 1]);
      var last := HandleByOf(mps[|mps| - 1].transitions);
      assert forall id :: HandledByTransition(mps, id) <==>
          HandledByTransition(mps[..|mps| - 1], id) || id in last
      by {
        forall id
          ensures HandledByTransition(mps, id) <==> HandledByTransition(mps[..|mps| - 1], id) || id in last
        {
          if HandledByTransition(mps, id) {
            var i, j :| 0 <= i < |mps| && 0 <= j < |mps[i].transitions|
              && mps[i].transitions[j].handleByProcessingItem == Some(id);
            if i < |mps| - 1 {
              assert mps[..|mps| - 1][i] == mps[i];
            }
          }
          if HandledByTransition(mps[..|mps| - 1], id) {
            var i, j :| 0 <= i < |mps| - 1 && 0 <= j < |mps[..|mps| - 1][i].transitions|
              && mps[..|mps| - 1][i].transitions[j].handleByProcessingItem == Some(id);
            assert mps[..|mps| - 1][i] == mps[i];
          }
          if id in last {
            var j :| 0 <= j < |mps[|mps| - 1].transitions|
              && mps[|mps| - 1].transitions[j].handleByProcessingItem == Some(id);
            assert HandledByTransition(mps, id);
          }
        }
      }
      rest + last
  }

  /**
   * The identities with an incoming flow: the handlers of all transitions,
   * then the start point's items, then the handlers of all transitions once
   * more (which adds nothing).
   */
  function IncomingTargets(graph: ReactorGraphModel): (r: set<Identity>)
    ensures forall id :: id in r <==>
      HandledByTransition(graph.mergePoints, id) || id in graph.startPoint.processingItems
  {
    var handlers := HandleByTargets(graph.mergePoints);
    var withStart := handlers + set id | id in graph.startPoint.processingItems;
    withStart + handlers
  }

  /** The identities the validator checks: all processors, then all subgraphs. */
  function CheckedIdentities(graph: ReactorGraphModel): (r: seq<Identity>)
    ensures |r| == |graph.processors| + |graph.subgraphs|
    ensures forall i :: 0 <= i < |graph.processors| ==> r[i] == graph.processors[i].identity
    ensures forall i :: 0 <= i < |graph.subgraphs| ==> r[|graph.processors| + i] == graph.subgraphs[i].identity
  {
    seq(|graph.processors|, i requires 0 <= i < |graph.processors| => graph.processors[i].identity)
    + seq(|graph.subgraphs|, i requires 0 <= i < |graph.subgraphs| => graph.subgraphs[i].identity)
  }

  /** The first of `ids` that is not in `targets`, if any. */
  function FirstMissing(ids: seq<Identity>, targets: set<Identity>): (r: Option<Identity>)
    ensures r.None? <==> forall i :: 0 <= i < |ids| ==> ids[i] in targets
    ensures r.Some? ==> r.value in ids && r.value !in targets
  {
    if |ids| == 0 then None
    else if ids[0] !in targets then Some(ids[0])
    else FirstMissing(ids[1..], targets)
  }

  /**
   * `validateGraph`: fails, naming one processor or subgraph, when some
   * processor or subgraph has no incoming flow; passes otherwise.
   */
  function ValidateGraph(graph: ReactorGraphModel): (r: Outcome<ValidationError>)
    ensures r.Pass? <==>
      (forall i :: 0 <= i < |graph.processors| ==> HasIncomingFlow(graph, graph.processors[i].identity))
      && (forall i :: 0 <= i < |graph.subgraphs| ==> HasIncomingFlow(graph, graph.subgraphs[i].identity))
    ensures r.Fail? ==>
      !HasIncomingFlow(graph, r.error.processingItem)
      && ((exists i :: 0 <= i < |graph.processors| && graph.processors[i].identity == r.error.processingItem)
          || (exists i :: 0 <= i < |graph.subgraphs| && graph.subgraphs[i].identity == r.error.processingItem))
  {
    var ids := CheckedIdentities(graph);
    var missing := FirstMissing(ids, IncomingTargets(graph));
    assert forall i :: 0 <= i < |graph.subgraphs| ==> ids[|graph.processors| + i] == graph.subgraphs[i].identity;
    if missing.Some? then
      var k :| 0 <= k < |ids| && ids[k] == missing.value;
      if k < |graph.processors| then
        assert graph.processors[k].identity == missing.value;
        Fail(NoIncomingTransitions(missing.value))
      else
        assert graph.subgraphs[k - |graph.processors|].identity == missing.value;
        Fail(NoIncomingTransitions(missing.value))
    else
      Pass
  }

  /** An identity has an incoming flow when the start point or some transition's handler names it. */
  ghost predicate HasIncomingFlow(graph: ReactorGraphModel, id: Identity)
  {
    id in graph.startPoint.processingItems || HandledByTransition(graph.mergePoints, id)
  }

  /**
   * Naming a processor only as the merge target of transitions does not give
   * it an incoming flow: a graph whose processor is neither started nor the
   * handler of any transition fails validation.
   */
  lemma MergeTargetIsNotAnIncomingFlow(graph: ReactorGraphModel, i: nat)
    requires i < |graph.processors|
    requires graph.processors[i].identity !in graph.startPoint.processingItems
    requires forall m, j :: 0 <= m < |graph.mergePoints| && 0 <= j < |graph.mergePoints[m].transitions| ==>
      graph.mergePoints[m].transitions[j].handleByProcessingItem != Some(graph.processors[i].identity)
    ensures ValidateGraph(graph).Fail?
  {
    assert !HasIncomingFlow(graph, graph.processors[i].identity);
  }
}
