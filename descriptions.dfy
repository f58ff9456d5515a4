/**
 * The shared description objects that the builders fill in and the graph
 * registry points to. Handlers, mergers and argument functions are user lambdas;
 * the model only needs to know which one was stored, so each is a token.
 */
module Descriptions {
  import opened Wrappers
  import opened Identities
  import opened GraphModel

  datatype Handler = Handler(token: nat)
  datatype Merger = Merger(token: nat)
  datatype ArgFunction = ArgFunction(token: nat)

  /** CRProcessorDescription: one object shared by every builder step of one processor. */
  class ProcessorDescription {
    const processorType: JavaClass

    var handler0: Option<Handler>
    var handler1: Option<Handler>
    var handler3: Option<Handler>

    var arg1: Option<ArgFunction>
    var arg2: Option<ArgFunction>
    var arg3: Option<ArgFunction>
    var arg4: Option<ArgFunction>

    var isCopyArg1: bool
    var isCopyArg2: bool
    var isCopyArg3: bool
    var isCopyArg4: bool

    var merger: Option<Merger>

    var handlerTitle: Option<string>
    var handlerDocs: Option<seq<string>>
    var handleBySource: Option<Source>

    constructor (processorType: JavaClass)
      ensures this.processorType == processorType
      ensures handler0 == handler1 == handler3 == None
      ensures arg1 == arg2 == arg3 == arg4 == None
      ensures !isCopyArg1 && !isCopyArg2 && !isCopyArg3 && !isCopyArg4
      ensures merger == None && handlerTitle == None && handlerDocs == None && handleBySource == None
    {
      this.processorType := processorType;
      handler0, handler1, handler3 := None, None, None;
      arg1, arg2, arg3, arg4 := None, None, None, None;
      isCopyArg1, isCopyArg2, isCopyArg3, isCopyArg4 := false, false, false, false;
      merger, handlerTitle, handlerDocs, handleBySource := None, None, None, None;
    }
  }

  /** CRSubgraphDescription. */
  class SubgraphDescription {
    const subgraphPayload: JavaClass
    var merger: Option<Merger>
    var subgraphTitle: Option<string>
    var subgraphDoc: Option<seq<string>>

    constructor (subgraphPayload: JavaClass)
      ensures this.subgraphPayload == subgraphPayload
      ensures merger == None && subgraphTitle == None && subgraphDoc == None
    {
      this.subgraphPayload := subgraphPayload;
      merger, subgraphTitle, subgraphDoc := None, None, None;
    }
  }

  /** CRMergePointDescription of a detached merge point. */
  class MergePointDescription {
    var merger: Option<Merger>

    constructor ()
      ensures merger == None
    {
      merger := None;
    }
  }
}
