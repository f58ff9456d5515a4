/**
 * Processing items (CRProcessingItem): a processor, a subgraph or a detached
 * merge point, each a distinct Java object. The graph registry keys its map by
 * them, so two items are the same key only when they are the same object.
 * The static `serialize` overloads of CRReactorGraph give their identity strings.
 */
module ProcessingItems {
  import opened Wrappers
  import opened Identities
  import opened Descriptions
  import opened MergePoints

  /** A processor object: its id and its description (which knows the processor type). */
  class CRProcessor {
    const id: int
    const processorDescription: ProcessorDescription

    constructor (id: int, processorDescription: ProcessorDescription)
      ensures this.id == id && this.processorDescription == processorDescription
    {
      this.id := id;
      this.processorDescription := processorDescription;
    }
  }

  /** A subgraph object: its id, the payload class of the nested graph, its description. */
  class CRSubgraph {
    const id: int
    const payloadClass: JavaClass
    const subgraphDescription: SubgraphDescription

    constructor (id: int, payloadClass: JavaClass, subgraphDescription: SubgraphDescription)
      ensures this.id == id && this.payloadClass == payloadClass
      ensures this.subgraphDescription == subgraphDescription
    {
      this.id := id;
      this.payloadClass := payloadClass;
      this.subgraphDescription := subgraphDescription;
    }
  }

  datatype ProcessingItem =
    | Processor(processor: CRProcessor)
    | Subgraph(subgraph: CRSubgraph)
    | DetachedMergePoint(mergePoint: CRMergePoint)
  {
    /** The mutable objects the item's identity depends on. */
    function Objects(): set<object>
    {
      if DetachedMergePoint? then {mergePoint} else {}
    }

    function Identity(): Identity
      reads Objects()
    {
      match this
      case Processor(p) => ProcessorIdentity(p.processorDescription.processorType, p.id)
      case Subgraph(s) => SubgraphIdentity(s.payloadClass, s.id)
      case DetachedMergePoint(m) => m.Identity()
    }

    /** `CRReactorGraph.serialize(CRProcessingItem)`: the identity string. */
    function Serialize(): string
    {
      match this
      case Processor(p) => SerializeType(p.processorDescription.processorType, p.id)
      case Subgraph(s) => SerializeType(s.payloadClass, s.id)
      case DetachedMergePoint(m) => SerializeMergePoint(m.id)
    }
  }

  /** The objects the identities of a set of items depend on. */
  function ItemObjects(items: set<ProcessingItem>): set<object>
  {
    set k | k in items && k.DetachedMergePoint? :: k.mergePoint as object
  }

  /** `serialize(CRProcessor)`: null for a null processor. */
  function SerializeProcessor(p: Option<CRProcessor>): (r: Option<string>)
    ensures r.Some? <==> p.Some?
    ensures p.Some? ==> r.value == Processor(p.value).Serialize()
  {
    if p.None? then None else Some(SerializeType(p.value.processorDescription.processorType, p.value.id))
  }

  /** `serialize(CRSubgraph)`: null for a null subgraph. */
  function SerializeSubgraph(s: Option<CRSubgraph>): (r: Option<string>)
    ensures r.Some? <==> s.Some?
    ensures s.Some? ==> r.value == Subgraph(s.value).Serialize()
  {
    if s.None? then None else Some(SerializeType(s.value.payloadClass, s.value.id))
  }

  /**
   * Java `equals` between items: processors and subgraphs compare as objects,
   * merge points by their Lombok field equality; items of different classes differ.
   */
  predicate ItemEquals(a: ProcessingItem, b: ProcessingItem)
    reads a.Objects(), b.Objects()
  {
    match (a, b)
    case (Processor(p), Processor(q)) => p == q
    case (Subgraph(s), Subgraph(t)) => s == t
    case (DetachedMergePoint(m), DetachedMergePoint(n)) => m.Equals(n)
    case _ => false
  }

  /** Items that are `equals` have equal identities. */
  lemma EqualItemsShareIdentity(a: ProcessingItem, b: ProcessingItem)
    requires ItemEquals(a, b)
    ensures a.Identity() == b.Identity()
  {
    if a.DetachedMergePoint? {
      EqualMergePointsShareIdentity(a.mergePoint, b.mergePoint);
    }
  }

  /**
   * A processor item matches the identity string `serialize(type, id)` exactly
   * when its processor type has that simple name and it has that id.
   */
  lemma ProcessorMatchesTypeString(k: ProcessingItem, c: JavaClass, id: int)
    requires k.Processor? && IsSimpleName(k.processor.processorDescription.processorType) && IsSimpleName(c)
    ensures k.Serialize() == SerializeType(c, id)
      <==> k.processor.processorDescription.processorType.simpleName == c.simpleName && k.processor.id == id
  {
    var t := k.processor.processorDescription.processorType;
    if k.Serialize() == SerializeType(c, id) {
      SerializeTypeInjective(t, k.processor.id, c, id);
    }
  }
}
