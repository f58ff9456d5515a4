/**
 * CRReactorGraph: the registry a reactor graph is built into. It maps every
 * processing item (processor, subgraph, detached merge point) to its info,
 * keeps the merge points with their outgoing transitions, the merge groups and
 * the start point, and serialises itself into a ReactorGraphModel tree for the
 * graph viewer.
 *
 * The merge points and merge groups are Java objects shared between lists; the
 * model keeps each merge point and each group once, in the graph's sequences,
 * and refers to them by index (a group holds indices into `mergePoints`, the
 * start-point group is an index into `mergeGroups`), so comparing indices is
 * comparing references.
 */
module ReactorGraphs {
  import opened Wrappers
  import opened Identities
  import opened GraphModel
  import opened Descriptions
  import opened MergePoints
  import opened ProcessingItems
  import opened Ordering

  /** Where processors, subgraphs, merge points and completions are drawn when no coordinates were given. */
  const DefaultCoordinates := Coordinates(100, 100)
  /** Where the start point is drawn when no coordinates were given. */
  const DefaultStartCoordinates := Coordinates(500, 100)

  function OrDefault(c: Option<Coordinates>, d: Coordinates): Coordinates
  {
    if c.Some? then c.value else d
  }

  function OptionItems(o: Option<ProcessingItem>): set<ProcessingItem>
  {
    if o.Some? then {o.value} else {}
  }

  /** `Optional.ofNullable(item).map(CRProcessingItem::getIdentity)`. */
  function IdentityOf(o: Option<ProcessingItem>): (r: Option<Identity>)
    reads ItemObjects(OptionItems(o))
    ensures r.Some? <==> o.Some?
    ensures o.Some? ==> r.value == o.value.Identity()
  {
    if o.Some? then Some(o.value.Identity()) else None
  }

  /** The identities of a list of items, in the same order. */
  function ItemIdentities(items: seq<ProcessingItem>): (r: seq<Identity>)
    reads ItemObjects(set k | k in items)
    ensures |r| == |items|
    ensures forall i :: 0 <= i < |items| ==> r[i] == items[i].Identity()
  {
    if |items| == 0 then [] else [items[0].Identity()] + ItemIdentities(items[1..])
  }

  // ---------------------------------------------------------------------------
  // Transitions

  /** A merge status: an enum constant, known by its class name and its `name()`, taken as its `toString`. */
  datatype Status = Status(enumClass: string, name: string)

  /** The source recorded for a status by the Transition constructor: only the enum's class name. */
  function StatusSource(s: Status): Source
  {
    Source(Some(s.enumClass), None, None)
  }

  /** The `mergeStatusSources` map the constructor builds: `put` in argument order. */
  function StatusSources(statuses: seq<Status>): map<string, Source>
  {
    if |statuses| == 0 then map[]
    else
      var last := statuses[|statuses| - 1];
      StatusSources(statuses[..|statuses| - 1])[last.name := StatusSource(last)]
  }

  /** No later status in `statuses` has the same name as the one at `i`. */
  ghost predicate LastWithName(statuses: seq<Status>, i: int)
    requires 0 <= i < |statuses|
  {
    forall j :: i < j < |statuses| ==> statuses[j].name != statuses[i].name
  }

  /**
   * The constructor records a source for exactly the names of the given
   * statuses, and for each name the class of the last status bearing it.
   */
  lemma {:induction false} StatusSourcesSpec(statuses: seq<Status>)
    ensures StatusSources(statuses).Keys == set s | s in statuses :: s.name
    ensures forall i :: 0 <= i < |statuses| && LastWithName(statuses, i) ==>
      StatusSources(statuses)[statuses[i].name] == StatusSource(statuses[i])
  {
    if |statuses| > 0 {
      var n := |statuses| - 1;
      var init := statuses[..n];
      StatusSourcesSpec(init);
      assert statuses == init + [statuses[n]];
      forall i | 0 <= i < |statuses| && LastWithName(statuses, i)
        ensures StatusSources(statuses)[statuses[i].name] == StatusSource(statuses[i])
      {
        if i < n {
          assert statuses[n].name != statuses[i].name;
          assert LastWithName(init, i) by {
            forall j | i < j < |init| ensures init[j].name != init[i].name {
              assert init[j] == statuses[j];
            }
          }
          assert init[i] == statuses[i];
        }
      }
    }
  }

  datatype Transition = Transition(
    mergeStatuses: set<Status>,
    isOnAny: bool,
    isComplete: bool,
    merge: Option<ProcessingItem>,
    handleBy: Option<ProcessingItem>,
    completeCoordinates: Option<Coordinates>,
    completeCoordinatesSource: Option<Source>,
    mergeStatusSources: map<string, Source>)
  {
    /** The items this transition points to. */
    function Items(): set<ProcessingItem>
    {
      OptionItems(merge) + OptionItems(handleBy)
    }

    /**
     * `Transition.serialize`: the status names, the flags, the identities of the
     * targets (null target to null), the completion coordinates defaulting to
     * (100, 100), and the recorded sources.
     */
    function Serialize(): (r: TransitionModel)
      reads ItemObjects(Items())
      ensures r.mergeStatuses == set s | s in mergeStatuses :: s.name
      ensures r.isOnAny == isOnAny && r.isComplete == isComplete
      ensures r.mergeProcessingItem.Some? <==> merge.Some?
      ensures merge.Some? ==> r.mergeProcessingItem.value == merge.value.Identity()
      ensures r.handleByProcessingItem.Some? <==> handleBy.Some?
      ensures handleBy.Some? ==> r.handleByProcessingItem.value == handleBy.value.Identity()
      ensures completeCoordinates.Some? ==> r.completeCoordinates == completeCoordinates.value
      ensures completeCoordinates.None? ==> r.completeCoordinates == DefaultCoordinates
      ensures r.completeCoordinatesSource == completeCoordinatesSource
      ensures r.mergeStatusSources == mergeStatusSources
    {
      TransitionModel(
        set s | s in mergeStatuses :: s.name,
        isOnAny,
        isComplete,
        IdentityOf(merge),
        IdentityOf(handleBy),
        OrDefault(completeCoordinates, DefaultCoordinates),
        completeCoordinatesSource,
        mergeStatusSources)
    }
  }

  /** `new Transition(statuses...)`: a transition on the given statuses with no target yet. */
  method NewTransition(statuses: seq<Status>) returns (t: Transition)
    ensures t.mergeStatuses == set s | s in statuses
    ensures t.mergeStatusSources == StatusSources(statuses)
    ensures !t.isOnAny && !t.isComplete
    ensures t.merge.None? && t.handleBy.None?
    ensures t.completeCoordinates.None? && t.completeCoordinatesSource.None?
  {
    var sources := map[];
    for i := 0 to |statuses|
      invariant sources == StatusSources(statuses[..i])
    {
      assert statuses[..i + 1][..i] == statuses[..i];
      sources := sources[statuses[i].name := StatusSource(statuses[i])];
    }
    assert statuses[..|statuses|] == statuses;
    t := Transition(set s | s in statuses, false, false, None, None, None, None, sources);
  }

  /**
   * Every status name a fresh transition serialises has a recorded source, and
   * every recorded source belongs to one of its statuses.
   */
  lemma NewTransitionStatusesHaveSources(statuses: seq<Status>)
    ensures
      var t := Transition(set s | s in statuses, false, false, None, None, None, None, StatusSources(statuses));
      t.Serialize().mergeStatuses == t.Serialize().mergeStatusSources.Keys
  {
    StatusSourcesSpec(statuses);
    var t := Transition(set s | s in statuses, false, false, None, None, None, None, StatusSources(statuses));
    assert (set s | s in t.mergeStatuses :: s.name) == set s | s in statuses :: s.name;
  }

  function TransitionItems(ts: seq<Transition>): set<ProcessingItem>
  {
    set t, k | t in ts && k in t.Items() :: k
  }

  /** The transitions serialised one by one, in declaration order. */
  function SerializeTransitions(ts: seq<Transition>): (r: seq<TransitionModel>)
    reads ItemObjects(TransitionItems(ts))
    ensures |r| == |ts|
    ensures forall i :: 0 <= i < |ts| ==> r[i] == ts[i].Serialize()
  {
    if |ts| == 0 then []
    else
      assert ts[0] in ts;
      [ts[0].Serialize()] + SerializeTransitions(ts[1..])
  }

  // ---------------------------------------------------------------------------
  // Merge points

  datatype MergePointType = ProcessorMerge | SubgraphMerge | DetachedMerge

  datatype MergePoint = MergePoint(
    mergePointType: MergePointType,
    processor: Option<CRProcessor>,
    subgraph: Option<CRSubgraph>,
    mergePoint: Option<CRMergePoint>,
    coordinates: Option<Coordinates>,
    coordinatesSource: Option<Source>,
    transitions: seq<Transition>)
  {
    /** The owner field named by the type is set; the other two are null. */
    predicate WellFormed()
    {
      match mergePointType
      case ProcessorMerge => processor.Some? && subgraph.None? && mergePoint.None?
      case SubgraphMerge => processor.None? && subgraph.Some? && mergePoint.None?
      case DetachedMerge => processor.None? && subgraph.None? && mergePoint.Some?
    }

    /**
     * `asProcessingItem`: the owner the type selects (null when that field is
     * null): the processor, the subgraph, or the detached merge point.
     */
    function AsProcessingItem(): (r: Option<ProcessingItem>)
      ensures r.Some? ==> (r.value.Processor? <==> mergePointType == ProcessorMerge)
      ensures r.Some? ==> (r.value.Subgraph? <==> mergePointType == SubgraphMerge)
      ensures r.Some? ==> (r.value.DetachedMergePoint? <==> mergePointType == DetachedMerge)
      ensures r.Some? && r.value.Processor? ==> processor == Some(r.value.processor)
      ensures r.Some? && r.value.Subgraph? ==> subgraph == Some(r.value.subgraph)
      ensures r.Some? && r.value.DetachedMergePoint? ==> mergePoint == Some(r.value.mergePoint)
      ensures WellFormed() ==> r.Some?
    {
      match mergePointType
      case ProcessorMerge => if processor.Some? then Some(Processor(processor.value)) else None
      case SubgraphMerge => if subgraph.Some? then Some(Subgraph(subgraph.value)) else None
      case DetachedMerge => if mergePoint.Some? then Some(DetachedMergePoint(mergePoint.value)) else None
    }

    /** The owner and the transitions' targets. */
    function Items(): set<ProcessingItem>
    {
      OptionItems(AsProcessingItem()) + TransitionItems(transitions)
    }

    /**
     * `MergePoint.serialize`: the owner's identity, the coordinates defaulting
     * to (100, 100), and the transitions in declaration order.
     */
    function Serialize(): (r: MergePointModel)
      requires WellFormed()
      reads ItemObjects(Items())
      ensures r.identity == AsProcessingItem().value.Identity()
      ensures coordinates.Some? ==> r.coordinates == coordinates.value
      ensures coordinates.None? ==> r.coordinates == DefaultCoordinates
      ensures r.coordinatesSource == coordinatesSource
      ensures |r.transitions| == |transitions|
      ensures forall i :: 0 <= i < |transitions| ==> r.transitions[i] == transitions[i].Serialize()
    {
      var identity :=
        match mergePointType
        case ProcessorMerge => Processor(processor.value).Identity()
        case SubgraphMerge => Subgraph(subgraph.value).Identity()
        case DetachedMerge => mergePoint.value.Identity();
      MergePointModel(
        identity,
        OrDefault(coordinates, DefaultCoordinates),
        coordinatesSource,
        SerializeTransitions(transitions))
    }
  }

  function MergePointsItems(mps: seq<MergePoint>): set<ProcessingItem>
  {
    set mp, k | mp in mps && k in mp.Items() :: k
  }

  /** The merge points serialised one by one, in the graph's order. */
  function SerializeMergePoints(mps: seq<MergePoint>): (r: seq<MergePointModel>)
    requires forall i :: 0 <= i < |mps| ==> mps[i].WellFormed()
    reads ItemObjects(MergePointsItems(mps))
    ensures |r| == |mps|
    ensures forall i :: 0 <= i < |mps| ==> r[i] == mps[i].Serialize()
  {
    if |mps| == 0 then []
    else
      assert mps[0] in mps;
      [mps[0].Serialize()] + SerializeMergePoints(mps[1..])
  }

  /** The owner of the merge point at position `i`; its identity depends only on objects the merge points reach. */
  function OwnerAt(mps: seq<MergePoint>, i: nat): (k: ProcessingItem)
    requires i < |mps| && mps[i].WellFormed()
    ensures k == mps[i].AsProcessingItem().value
    ensures k.Objects() <= ItemObjects(MergePointsItems(mps))
  {
    assert mps[i] in mps;
    assert mps[i].AsProcessingItem().value in mps[i].Items();
    mps[i].AsProcessingItem().value
  }

  /** A merge group: the merge points it waits for, as indices into the graph's merge points. */
  datatype MergeGroup = MergeGroup(mergePoints: seq<nat>)

  /** The identities of the owners of the group's merge points, in the group's order. */
  function GroupIdentities(members: seq<nat>, mps: seq<MergePoint>): (r: seq<Identity>)
    requires forall j :: 0 <= j < |members| ==> members[j] < |mps| && mps[members[j]].WellFormed()
    reads ItemObjects(MergePointsItems(mps))
    ensures |r| == |members|
    ensures forall j :: 0 <= j < |members| ==> r[j] == mps[members[j]].AsProcessingItem().value.Identity()
  {
    if |members| == 0 then []
    else
      [OwnerAt(mps, members[0]).Identity()] + GroupIdentities(members[1..], mps)
  }

  // ---------------------------------------------------------------------------
  // Processing item infos

  datatype ProcessingItemType = ProcessorItem | SubgraphItem | MergePointItem

  datatype ProcessingItemInfo = ProcessingItemInfo(
    processingItemType: ProcessingItemType,
    description: Option<ProcessorDescription>,
    subgraphDescription: Option<SubgraphDescription>,
    detachedMergePointDescription: Option<MergePointDescription>,
    coordinates: Option<Coordinates>,
    coordinatesSource: Option<Source>)
  {
    function DescriptionObjects(): set<object>
    {
      (if description.Some? then {description.value as object} else {})
      + (if subgraphDescription.Some? then {subgraphDescription.value as object} else {})
      + (if detachedMergePointDescription.Some? then {detachedMergePointDescription.value as object} else {})
    }

    /**
     * `isMergerExist`: whether the description of the info's own type has a
     * merger; None where the source dereferences a null description.
     */
    function IsMergerExist(): (r: Option<bool>)
      reads DescriptionObjects()
      ensures processingItemType == ProcessorItem ==>
        (r.Some? <==> description.Some?) && (r.Some? ==> (r.value <==> description.value.merger.Some?))
      ensures processingItemType == SubgraphItem ==>
        (r.Some? <==> subgraphDescription.Some?) && (r.Some? ==> (r.value <==> subgraphDescription.value.merger.Some?))
      ensures processingItemType == MergePointItem ==>
        (r.Some? <==> detachedMergePointDescription.Some?)
        && (r.Some? ==> (r.value <==> detachedMergePointDescription.value.merger.Some?))
    {
      match processingItemType
      case ProcessorItem => if description.None? then None else Some(description.value.merger != None)
      case SubgraphItem => if subgraphDescription.None? then None else Some(subgraphDescription.value.merger != None)
      case MergePointItem =>
        if detachedMergePointDescription.None? then None else Some(detachedMergePointDescription.value.merger != None)
    }
  }

  /** The info type that registration gives an item. */
  function ItemType(k: ProcessingItem): ProcessingItemType
  {
    match k
    case Processor(_) => ProcessorItem
    case Subgraph(_) => SubgraphItem
    case DetachedMergePoint(_) => MergePointItem
  }

  /**
   * The info a fresh registration stores: the item's type and its own
   * description in the matching field, everything else null.
   */
  function InfoFor(k: ProcessingItem): (info: ProcessingItemInfo)
    ensures info.processingItemType == ItemType(k)
    ensures info.description.Some? <==> k.Processor?
    ensures k.Processor? ==> info.description.value == k.processor.processorDescription
    ensures info.subgraphDescription.Some? <==> k.Subgraph?
    ensures k.Subgraph? ==> info.subgraphDescription.value == k.subgraph.subgraphDescription
    ensures info.detachedMergePointDescription.Some? <==> k.DetachedMergePoint?
    ensures k.DetachedMergePoint? ==> info.detachedMergePointDescription.value == k.mergePoint.mergePointDescription
    ensures info.coordinates.None? && info.coordinatesSource.None?
  {
    match k
    case Processor(p) => ProcessingItemInfo(ProcessorItem, Some(p.processorDescription), None, None, None, None)
    case Subgraph(s) => ProcessingItemInfo(SubgraphItem, None, Some(s.subgraphDescription), None, None, None)
    case DetachedMergePoint(m) =>
      ProcessingItemInfo(MergePointItem, None, None, Some(m.mergePointDescription), None, None)
  }

  /** The info is the one registration stored for `k`, up to coordinates set later. */
  predicate InfoMatches(k: ProcessingItem, info: ProcessingItemInfo)
  {
    info.(coordinates := None, coordinatesSource := None) == InfoFor(k)
  }

  /** The merger of the item's own description. */
  function MergerOf(k: ProcessingItem): Option<Merger>
    reads if k.Processor? then {k.processor.processorDescription as object}
      else if k.Subgraph? then {k.subgraph.subgraphDescription as object}
      else {k.mergePoint.mergePointDescription as object}
  {
    match k
    case Processor(p) => p.processorDescription.merger
    case Subgraph(s) => s.subgraphDescription.merger
    case DetachedMergePoint(m) => m.mergePointDescription.merger
  }

  /** For a registered item, `isMergerExist` answers whether the item's own description has a merger. */
  lemma RegisteredMergerExists(k: ProcessingItem, info: ProcessingItemInfo)
    requires InfoMatches(k, info)
    ensures info.IsMergerExist() == Some(MergerOf(k).Some?)
  {
    assert info.processingItemType == InfoFor(k).processingItemType;
    assert info.description == InfoFor(k).description;
    assert info.subgraphDescription == InfoFor(k).subgraphDescription;
    assert info.detachedMergePointDescription == InfoFor(k).detachedMergePointDescription;
  }

  // ---------------------------------------------------------------------------
  // Registration

  datatype RegistrationError = DuplicateIdentity(itemType: ProcessingItemType, identity: Identity)

  /** `serialize` reads `startPointMergeGroup` once per merge group; a null field throws. */
  datatype SerializationError = NullStartPointMergeGroup

  /** Some registered item other than `item` itself has the same identity. */
  predicate Conflicts(keys: set<ProcessingItem>, item: ProcessingItem)
    reads ItemObjects(keys), item.Objects()
  {
    exists k :: k in keys && k.Identity() == item.Identity() && k != item
  }

  /** No two different registered items share an identity. */
  ghost predicate IdentitiesUnique(keys: set<ProcessingItem>)
    reads ItemObjects(keys)
  {
    forall k1, k2 :: k1 in keys && k2 in keys && k1.Identity() == k2.Identity() ==> k1 == k2
  }

  /** The map after a successful registration: unchanged if the item is a key, else one new entry. */
  function Registered(m: map<ProcessingItem, ProcessingItemInfo>, item: ProcessingItem)
    : (r: map<ProcessingItem, ProcessingItemInfo>)
    ensures r.Keys == m.Keys + {item}
    ensures item in m ==> r == m
    ensures item !in m ==> r[item] == InfoFor(item) && |r| == |m| + 1
    ensures forall k :: k in m ==> r[k] == m[k]
  {
    if item in m then m else m[item := InfoFor(item)]
  }

  /**
   * Registering again what was just registered succeeds and changes nothing.
   */
  lemma RegistrationIsIdempotent(m: map<ProcessingItem, ProcessingItemInfo>, item: ProcessingItem)
    requires !Conflicts(m.Keys, item)
    ensures !Conflicts(Registered(m, item).Keys, item)
    ensures Registered(Registered(m, item), item) == Registered(m, item)
  {
  }

  /** A registration that passes keeps the identities of the registered items unique. */
  lemma RegistrationKeepsIdentitiesUnique(m: map<ProcessingItem, ProcessingItemInfo>, item: ProcessingItem)
    requires IdentitiesUnique(m.Keys) && !Conflicts(m.Keys, item)
    ensures IdentitiesUnique(Registered(m, item).Keys)
  {
    var keys := Registered(m, item).Keys;
    forall k | k in keys && k != item
      ensures k in m.Keys && k.Identity() != item.Identity()
    {
    }
  }

  // ---------------------------------------------------------------------------
  // Start point

  datatype StartPoint = StartPoint(
    coordinates: Option<Coordinates>,
    coordinatesSource: Option<Source>,
    builderPayloadSource: Option<Source>,
    processingItems: seq<ProcessingItem>)
  {
    /**
     * `StartPoint.serialize`: the start items' identities in ascending order
     * (`identityOrder` stands for the natural order of identities), the
     * coordinates defaulting to (500, 100), and the two sources.
     */
    function Serialize(identityOrder: Identity -> string): (r: StartPointModel)
      reads ItemObjects(set k | k in processingItems)
      ensures coordinates.Some? ==> r.coordinates == coordinates.value
      ensures coordinates.None? ==> r.coordinates == DefaultStartCoordinates
      ensures r.coordinatesSource == coordinatesSource
      ensures r.builderPayloadSource == builderPayloadSource
      ensures SortedBy(r.processingItems, identityOrder)
      ensures multiset(r.processingItems) == multiset(ItemIdentities(processingItems))
    {
      var ids := ItemIdentities(processingItems);
      SortBySpec(ids, identityOrder);
      StartPointModel(
        OrDefault(coordinates, DefaultStartCoordinates),
        coordinatesSource,
        builderPayloadSource,
        SortBy(ids, identityOrder))
    }
  }

  // ---------------------------------------------------------------------------
  // Serialised processors and subgraphs

  /** The identity string of an item: the sort key of the graph's entries. */
  function ItemKey(k: ProcessingItem): string
  {
    k.Serialize()
  }

  /** Selects the entries of `m` whose info has type `t`. */
  function OfType(m: map<ProcessingItem, ProcessingItemInfo>, t: ProcessingItemType): ProcessingItem -> bool
  {
    k => k in m && m[k].processingItemType == t
  }

  /** `serializeProcessor` of each processor entry, with the entry's identity. */
  function ProcessorModels(entries: seq<ProcessingItem>, m: map<ProcessingItem, ProcessingItemInfo>)
    : (r: seq<ProcessorModel>)
    requires forall i :: 0 <= i < |entries| ==> entries[i] in m && entries[i].Processor?
    ensures |r| == |entries|
    ensures forall i :: 0 <= i < |entries| ==>
      var p := entries[i].processor;
      r[i].identity == ProcessorIdentity(p.processorDescription.processorType, p.id)
      && r[i].coordinates == OrDefault(m[entries[i]].coordinates, DefaultCoordinates)
      && r[i].coordinatesSource == m[entries[i]].coordinatesSource
  {
    if |entries| == 0 then []
    else
      var p := entries[0].processor;
      var info := m[entries[0]];
      [ProcessorModel(
        ProcessorIdentity(p.processorDescription.processorType, p.id),
        OrDefault(info.coordinates, DefaultCoordinates),
        info.coordinatesSource)]
      + ProcessorModels(entries[1..], m)
  }

  /** `serializeSubgraph` of each subgraph entry, with the entry's identity. */
  function SubgraphModels(entries: seq<ProcessingItem>, m: map<ProcessingItem, ProcessingItemInfo>)
    : (r: seq<SubgraphModel>)
    requires forall i :: 0 <= i < |entries| ==> entries[i] in m && entries[i].Subgraph?
    ensures |r| == |entries|
    ensures forall i :: 0 <= i < |entries| ==>
      var s := entries[i].subgraph;
      r[i].identity == SubgraphIdentity(s.payloadClass, s.id)
      && r[i].coordinates == OrDefault(m[entries[i]].coordinates, DefaultCoordinates)
      && r[i].coordinatesSource == m[entries[i]].coordinatesSource
      && r[i].payloadClass == s.subgraphDescription.subgraphPayload.name
  {
    if |entries| == 0 then []
    else
      var s := entries[0].subgraph;
      var info := m[entries[0]];
      [SubgraphModel(
        SubgraphIdentity(s.payloadClass, s.id),
        OrDefault(info.coordinates, DefaultCoordinates),
        info.coordinatesSource,
        s.subgraphDescription.subgraphPayload.name)]
      + SubgraphModels(entries[1..], m)
  }

  /**
   * The entries the serialised graph lists as processors (or subgraphs) are the
   * items registered with that type, each once, in ascending identity string;
   * detached merge points are listed in neither.
   */
  lemma SerializedEntries(order: seq<ProcessingItem>, m: map<ProcessingItem, ProcessingItemInfo>, t: ProcessingItemType)
    requires Distinct(order) && SortedBy(order, ItemKey)
    requires forall k :: k in order <==> k in m
    requires forall k :: k in m ==> InfoMatches(k, m[k])
    ensures var entries := Filter(order, OfType(m, t));
      Distinct(entries) && SortedBy(entries, ItemKey)
      && (forall k :: k in entries <==> k in m && ItemType(k) == t)
  {
    FilterKeepsOrder(order, OfType(m, t), ItemKey);
    var entries := Filter(order, OfType(m, t));
    forall k
      ensures k in entries <==> k in m && ItemType(k) == t
    {
      if k in m && ItemType(k) == t {
        var i :| 0 <= i < |order| && order[i] == k;
        assert m[k].processingItemType == InfoFor(k).processingItemType;
      }
      if k in entries {
        var i :| 0 <= i < |entries| && entries[i] == k;
        assert m[k].processingItemType == InfoFor(k).processingItemType;
      }
    }
  }

  // ---------------------------------------------------------------------------
  // The graph

  class ReactorGraph {
    const payloadClass: JavaClass
    var processingItems: map<ProcessingItem, ProcessingItemInfo>
    var mergeGroups: seq<MergeGroup>
    /**
     * The group the start point belongs to, by position in `mergeGroups`:
     * `None` is the null the field starts as, `Some(None)` is `Optional.empty()`.
     */
    var startPointMergeGroup: Option<Option<nat>>
    var mergePoints: seq<MergePoint>
    var startPoint: StartPoint

    /**
     * Every info is the one registration stored for its item, every merge
     * point names its owner consistently with its type, and every group member
     * and the start-point group refer to existing merge points and groups.
     */
    ghost predicate Valid()
      reads this
    {
      (forall k :: k in processingItems ==> InfoMatches(k, processingItems[k]))
      && (forall i :: 0 <= i < |mergePoints| ==> mergePoints[i].WellFormed())
      && (forall g, j :: 0 <= g < |mergeGroups| && 0 <= j < |mergeGroups[g].mergePoints| ==>
            mergeGroups[g].mergePoints[j] < |mergePoints|)
      && (startPointMergeGroup.Some? && startPointMergeGroup.value.Some? ==>
            startPointMergeGroup.value.value < |mergeGroups|)
    }

    constructor (payloadClass: JavaClass)
      ensures Valid()
      ensures this.payloadClass == payloadClass
      ensures processingItems == map[] && mergeGroups == [] && mergePoints == []
      ensures startPointMergeGroup == None
      ensures startPoint == StartPoint(None, None, None, [])
    {
      this.payloadClass := payloadClass;
      processingItems := map[];
      mergeGroups := [];
      startPointMergeGroup := None;
      mergePoints := [];
      startPoint := StartPoint(None, None, None, []);
    }

    /**
     * `ensureProcessingItemRegistered` (all three overloads): fails, leaving the
     * map unchanged, when a different item with the same identity is
     * registered; does nothing when the item itself is a key; otherwise adds
     * the item with the info of its type.
     */
    method EnsureRegistered(item: ProcessingItem) returns (r: Outcome<RegistrationError>)
      requires Valid()
      modifies this`processingItems
      ensures Valid()
      ensures r.Fail? <==> old(Conflicts(processingItems.Keys, item))
      ensures r.Fail? ==> r.error == DuplicateIdentity(ItemType(item), item.Identity())
      ensures r.Fail? ==> processingItems == old(processingItems)
      ensures r.Pass? ==> processingItems == Registered(old(processingItems), item)
    {
      if exists k :: k in processingItems && k.Identity() == item.Identity() && k != item {
        return Fail(DuplicateIdentity(ItemType(item), item.Identity()));
      }
      assert ItemEquals(item, item);
      if exists k :: k in processingItems && ItemEquals(k, item) {
        var k :| k in processingItems && ItemEquals(k, item);
        EqualItemsShareIdentity(k, item);
        return Pass;
      }
      processingItems := processingItems[item := InfoFor(item)];
      return Pass;
    }

    /**
     * The graph's `serialize`: the entries ordered by identity string (`order`;
     * a hash map's iteration order breaks ties), PROCESSOR entries as
     * processors, SUBGRAPH entries as subgraphs, MERGE_POINT entries left out;
     * the start point; every merge point with its transitions; every merge group
     * with its members' identities, flagged as including the start point
     * exactly when it is the start point's group. A null start-point group
     * throws as soon as there is a merge group to flag.
     */
    method Serialize(identityOrder: Identity -> string)
      returns (res: Result<ReactorGraphModel, SerializationError>, ghost order: seq<ProcessingItem>)
      requires Valid()
      ensures res.Err? <==> startPointMergeGroup == None && |mergeGroups| > 0
      ensures res.Err? ==> res.error == NullStartPointMergeGroup
      ensures Distinct(order) && SortedBy(order, ItemKey)
      ensures forall k :: k in order <==> k in processingItems
      ensures forall k :: k in Filter(order, OfType(processingItems, ProcessorItem)) ==> k in processingItems && k.Processor?
      ensures forall k :: k in Filter(order, OfType(processingItems, SubgraphItem)) ==> k in processingItems && k.Subgraph?
      ensures res.Ok? ==> SerializesTo(res.value, order, identityOrder)
      ensures res.Ok? ==> forall g1, g2 :: 0 <= g1 < g2 < |res.value.implicitMergeGroups| ==>
        !(res.value.implicitMergeGroups[g1].includesStartPoint && res.value.implicitMergeGroups[g2].includesStartPoint)
    {
      var sorted := SortedItems();
      order := sorted;
      ProcessorEntriesAreProcessors(sorted, processingItems);
      var processors := Filter(sorted, OfType(processingItems, ProcessorItem));
      var subgraphs := Filter(sorted, OfType(processingItems, SubgraphItem));
      var groups := SerializeMergeGroups();
      if groups.Err? {
        return Err(groups.error), order;
      }
      var model := ReactorGraphModel(
        startPoint.Serialize(identityOrder),
        ProcessorModels(processors, processingItems),
        SubgraphModels(subgraphs, processingItems),
        SerializeMergePoints(mergePoints),
        groups.value);
      return Ok(model), order;
    }

    /**
     * `m` is what `serialize` builds when the entries are taken in `order`:
     * the PROCESSOR and SUBGRAPH entries in that order, the start point, every
     * merge point with its transitions, and every merge group with its members'
     * identities, flagged exactly when it is the start point's group.
     */
    ghost predicate SerializesTo(m: ReactorGraphModel, order: seq<ProcessingItem>, identityOrder: Identity -> string)
      reads this, ItemObjects(MergePointsItems(mergePoints)), ItemObjects(set k | k in startPoint.processingItems)
    {
      && Valid()
      && EntriesSerializeTo(m, order)
      && m.startPoint == startPoint.Serialize(identityOrder)
      && m.mergePoints == SerializeMergePoints(mergePoints)
      && GroupsSerializeTo(m.implicitMergeGroups)
    }

    /** The PROCESSOR and SUBGRAPH entries of `order`, in that order, are the model's processors and subgraphs. */
    ghost predicate EntriesSerializeTo(m: ReactorGraphModel, order: seq<ProcessingItem>)
      reads this
    {
      && (forall k :: k in Filter(order, OfType(processingItems, ProcessorItem)) ==> k in processingItems && k.Processor?)
      && (forall k :: k in Filter(order, OfType(processingItems, SubgraphItem)) ==> k in processingItems && k.Subgraph?)
      && m.processors == ProcessorModels(Filter(order, OfType(processingItems, ProcessorItem)), processingItems)
      && m.subgraphs == SubgraphModels(Filter(order, OfType(processingItems, SubgraphItem)), processingItems)
    }

    /** One model per merge group, in order: its members' identities, flagged exactly when it is the start point's group. */
    ghost predicate GroupsSerializeTo(groups: seq<MergeGroupModel>)
      requires Valid()
      reads this, ItemObjects(MergePointsItems(mergePoints))
    {
      && |groups| == |mergeGroups|
      && (forall g :: 0 <= g < |mergeGroups| ==>
            groups[g].mergePoints == GroupIdentities(mergeGroups[g].mergePoints, mergePoints))
      && (forall g :: 0 <= g < |mergeGroups| ==>
            (groups[g].includesStartPoint <==> startPointMergeGroup == Some(Some(g))))
    }

    /** The registered items, each once, in ascending identity string (hash-map order among ties). */
    method SortedItems() returns (sorted: seq<ProcessingItem>)
      ensures Distinct(sorted) && SortedBy(sorted, ItemKey)
      ensures forall k :: k in sorted <==> k in processingItems
    {
      var keys := Enumerate(processingItems.Keys);
      sorted := SortBy(keys, ItemKey);
      SortBySpec(keys, ItemKey);
    }

    /**
     * Each merge group as the identities of its members, flagged when it is the
     * start point's group; the first group's null check throws when the field is null.
     */
    method SerializeMergeGroups() returns (res: Result<seq<MergeGroupModel>, SerializationError>)
      requires Valid()
      ensures res.Err? <==> startPointMergeGroup == None && |mergeGroups| > 0
      ensures res.Err? ==> res.error == NullStartPointMergeGroup
      ensures res.Ok? ==> |res.value| == |mergeGroups|
      ensures res.Ok? ==> forall g :: 0 <= g < |mergeGroups| ==>
        res.value[g] == MergeGroupModel(GroupIdentities(mergeGroups[g].mergePoints, mergePoints), startPointMergeGroup == Some(Some(g)))
    {
      var groups := [];
      for g := 0 to |mergeGroups|
        invariant |groups| == g
        invariant g > 0 ==> startPointMergeGroup.Some?
        invariant forall h :: 0 <= h < g ==>
          groups[h] == MergeGroupModel(GroupIdentities(mergeGroups[h].mergePoints, mergePoints), startPointMergeGroup == Some(Some(h)))
      {
        if startPointMergeGroup.None? {
          return Err(NullStartPointMergeGroup);
        }
        groups := groups + [MergeGroupModel(GroupIdentities(mergeGroups[g].mergePoints, mergePoints), startPointMergeGroup == Some(Some(g)))];
      }
      return Ok(groups);
    }
  }

  /** Under matching infos, the entries of type PROCESSOR are processors and those of type SUBGRAPH subgraphs. */
  lemma ProcessorEntriesAreProcessors(order: seq<ProcessingItem>, m: map<ProcessingItem, ProcessingItemInfo>)
    requires forall k :: k in m ==> InfoMatches(k, m[k])
    ensures forall k :: k in Filter(order, OfType(m, ProcessorItem)) ==> k in m && k.Processor?
    ensures forall k :: k in Filter(order, OfType(m, SubgraphItem)) ==> k in m && k.Subgraph?
  {
    forall k | k in Filter(order, OfType(m, ProcessorItem))
      ensures k in m && k.Processor?
    {
      var i :| 0 <= i < |Filter(order, OfType(m, ProcessorItem))| && Filter(order, OfType(m, ProcessorItem))[i] == k;
      assert m[k].processingItemType == InfoFor(k).processingItemType;
    }
    forall k | k in Filter(order, OfType(m, SubgraphItem))
      ensures k in m && k.Subgraph?
    {
      var i :| 0 <= i < |Filter(order, OfType(m, SubgraphItem))| && Filter(order, OfType(m, SubgraphItem))[i] == k;
      assert m[k].processingItemType == InfoFor(k).processingItemType;
    }
  }
}
