/**
 * The serialised form of a reactor graph (ReactorGraphModel): the tree that
 * `CRReactorGraph.serialize` fills and the graph validators read. Only the
 * fields that serialisation and validation use are kept.
 */
module GraphModel {
  import opened Wrappers
  import opened Identities

  /** Position of a node in the graph viewer. */
  datatype Coordinates = Coordinates(x: int, y: int)

  /** Where in the user's code something was declared (provenance, opaque to the core). */
  datatype Source = Source(className: Option<string>, fileName: Option<string>, fileNameLine: Option<int>)

  datatype ProcessorModel = ProcessorModel(
    identity: Identity,
    coordinates: Coordinates,
    coordinatesSource: Option<Source>)

  datatype SubgraphModel = SubgraphModel(
    identity: Identity,
    coordinates: Coordinates,
    coordinatesSource: Option<Source>,
    payloadClass: string)

  datatype StartPointModel = StartPointModel(
    coordinates: Coordinates,
    coordinatesSource: Option<Source>,
    builderPayloadSource: Option<Source>,
    processingItems: seq<Identity>)

  /** A transition; its statuses come from a hash set, so they are kept as a set. */
  datatype TransitionModel = TransitionModel(
    mergeStatuses: set<string>,
    isOnAny: bool,
    isComplete: bool,
    mergeProcessingItem: Option<Identity>,
    handleByProcessingItem: Option<Identity>,
    completeCoordinates: Coordinates,
    completeCoordinatesSource: Option<Source>,
    mergeStatusSources: map<string, Source>)

  datatype MergePointModel = MergePointModel(
    identity: Identity,
    coordinates: Coordinates,
    coordinatesSource: Option<Source>,
    transitions: seq<TransitionModel>)

  datatype MergeGroupModel = MergeGroupModel(mergePoints: seq<Identity>, includesStartPoint: bool)

  datatype ReactorGraphModel = ReactorGraphModel(
    startPoint: StartPointModel,
    processors: seq<ProcessorModel>,
    subgraphs: seq<SubgraphModel>,
    mergePoints: seq<MergePointModel>,
    implicitMergeGroups: seq<MergeGroupModel>)
}
