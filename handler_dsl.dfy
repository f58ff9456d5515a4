/**
 * The handler builders of the processor DSL. Each builder wraps the one
 * processor description being declared and writes into it: `passArg` and
 * `copyArg` store the argument function of their slot (the latter also marks
 * the argument as copied), `withHandler` stores the handler and hands the same
 * description on to the merger builder.
 *
 * What the handler reflector (`BuilderReflector.initializeProcessorDescription`)
 * and the call-stack reflector find are parameters here: the title and docs
 * the reflector leaves on the description, and the invocation point.
 */
module HandlerDsl {
  import opened Wrappers
  import opened GraphModel
  import opened Descriptions
  import opened Identities

  /** The title and docs the handler reflector leaves on the description. */
  datatype ReflectedDocs = ReflectedDocs(handlerTitle: Option<string>, handlerDocs: Option<seq<string>>)

  /** Runs the handler reflector over the description. */
  method InitializeProcessorDescription(d: ProcessorDescription, reflected: ReflectedDocs)
    modifies d`handlerTitle, d`handlerDocs
    ensures d.handlerTitle == reflected.handlerTitle && d.handlerDocs == reflected.handlerDocs
  {
    d.handlerTitle := reflected.handlerTitle;
    d.handlerDocs := reflected.handlerDocs;
  }

  /** The merger builder a `withHandler` returns: it goes on with the same description. */
  class CRProcessorMergerBuilder {
    const processorDescription: ProcessorDescription

    constructor (processorDescription: ProcessorDescription)
      ensures this.processorDescription == processorDescription
    {
      this.processorDescription := processorDescription;
    }
  }

  /** The builder for the third argument; only its hand-over of the description is modelled. */
  class CRHandlerBuilder2 {
    const processorDescription: ProcessorDescription

    constructor (processorDescription: ProcessorDescription)
      ensures this.processorDescription == processorDescription
    {
      this.processorDescription := processorDescription;
    }
  }

  /** The builder for the fifth argument; only its hand-over of the description is modelled. */
  class CRHandlerBuilder4 {
    const processorDescription: ProcessorDescription

    constructor (processorDescription: ProcessorDescription)
      ensures this.processorDescription == processorDescription
    {
      this.processorDescription := processorDescription;
    }
  }

  /** No argument bound yet: the first argument goes to slot 1. */
  class CRHandlerBuilder0 {
    const processorDescription: ProcessorDescription

    constructor (processorDescription: ProcessorDescription)
      ensures this.processorDescription == processorDescription
    {
      this.processorDescription := processorDescription;
    }

    /** `withHandler`: stores the handler as `handler0`, then runs the reflector. */
    method WithHandler(handler: Handler, reflected: ReflectedDocs) returns (b: CRProcessorMergerBuilder)
      modifies processorDescription`handler0, processorDescription`handlerTitle, processorDescription`handlerDocs
      ensures processorDescription.handler0 == Some(handler)
      ensures processorDescription.handlerTitle == reflected.handlerTitle
      ensures processorDescription.handlerDocs == reflected.handlerDocs
      ensures fresh(b) && b.processorDescription == processorDescription
    {
      processorDescription.handler0 := Some(handler);
      InitializeProcessorDescription(processorDescription, reflected);
      b := new CRProcessorMergerBuilder(processorDescription);
    }

    /** `passArg`: stores the function as `arg1`; the copy flag of slot 1 is left as it was. */
    method PassArg(arg: ArgFunction) returns (b: CRHandlerBuilder1)
      modifies processorDescription`arg1
      ensures processorDescription.arg1 == Some(arg)
      ensures processorDescription.isCopyArg1 == old(processorDescription.isCopyArg1)
      ensures fresh(b) && b.processorDescription == processorDescription
    {
      processorDescription.arg1 := Some(arg);
      b := new CRHandlerBuilder1(processorDescription);
    }

    /** `copyArg`: stores the function as `arg1` and marks argument 1 as copied. */
    method CopyArg(arg: ArgFunction) returns (b: CRHandlerBuilder1)
      modifies processorDescription`arg1, processorDescription`isCopyArg1
      ensures processorDescription.arg1 == Some(arg)
      ensures processorDescription.isCopyArg1
      ensures fresh(b) && b.processorDescription == processorDescription
    {
      processorDescription.arg1 := Some(arg);
      processorDescription.isCopyArg1 := true;
      b := new CRHandlerBuilder1(processorDescription);
    }
  }

  /** One argument bound: the next goes to slot 2. */
  class CRHandlerBuilder1 {
    const processorDescription: ProcessorDescription

    constructor (processorDescription: ProcessorDescription)
      ensures this.processorDescription == processorDescription
    {
      this.processorDescription := processorDescription;
    }

    /** `passArg`: stores the function as `arg2`; the copy flag of slot 2 is left as it was. */
    method PassArg(arg: ArgFunction) returns (b: CRHandlerBuilder2)
      modifies processorDescription`arg2
      ensures processorDescription.arg2 == Some(arg)
      ensures processorDescription.isCopyArg2 == old(processorDescription.isCopyArg2)
      ensures fresh(b) && b.processorDescription == processorDescription
    {
      processorDescription.arg2 := Some(arg);
      b := new CRHandlerBuilder2(processorDescription);
    }

    /** `copyArg`: stores the function as `arg2` and marks argument 2 as copied. */
    method CopyArg(arg: ArgFunction) returns (b: CRHandlerBuilder2)
      modifies processorDescription`arg2, processorDescription`isCopyArg2
      ensures processorDescription.arg2 == Some(arg)
      ensures processorDescription.isCopyArg2
      ensures fresh(b) && b.processorDescription == processorDescription
    {
      processorDescription.arg2 := Some(arg);
      processorDescription.isCopyArg2 := true;
      b := new CRHandlerBuilder2(processorDescription);
    }

    /**
     * `withHandler(title, docs, handler)`: stores the handler as `handler1`,
     * runs the reflector, then overrides the title and the docs with the ones
     * given, each only when it is not null.
     */
    method WithHandler(title: Option<string>, docs: Option<seq<string>>, handler: Handler, reflected: ReflectedDocs)
      returns (b: CRProcessorMergerBuilder)
      modifies processorDescription`handler1, processorDescription`handlerTitle, processorDescription`handlerDocs
      ensures processorDescription.handler1 == Some(handler)
      ensures processorDescription.handlerTitle == if title.Some? then title else reflected.handlerTitle
      ensures processorDescription.handlerDocs == if docs.Some? then docs else reflected.handlerDocs
      ensures fresh(b) && b.processorDescription == processorDescription
    {
      processorDescription.handler1 := Some(handler);
      InitializeProcessorDescription(processorDescription, reflected);
      if title.Some? {
        processorDescription.handlerTitle := title;
      }
      if docs.Some? {
        processorDescription.handlerDocs := docs;
      }
      b := new CRProcessorMergerBuilder(processorDescription);
    }

    /** `withHandler(handler)`: no title and no docs given, so the reflector's stay. */
    method WithHandlerOnly(handler: Handler, reflected: ReflectedDocs) returns (b: CRProcessorMergerBuilder)
      modifies processorDescription`handler1, processorDescription`handlerTitle, processorDescription`handlerDocs
      ensures processorDescription.handler1 == Some(handler)
      ensures processorDescription.handlerTitle == reflected.handlerTitle
      ensures processorDescription.handlerDocs == reflected.handlerDocs
      ensures fresh(b) && b.processorDescription == processorDescription
    {
      b := WithHandler(None, None, handler, reflected);
    }

    /** `withHandler(title, handler)`: the title given wins, the reflector's docs stay. */
    method WithTitledHandler(title: string, handler: Handler, reflected: ReflectedDocs) returns (b: CRProcessorMergerBuilder)
      modifies processorDescription`handler1, processorDescription`handlerTitle, processorDescription`handlerDocs
      ensures processorDescription.handler1 == Some(handler)
      ensures processorDescription.handlerTitle == Some(title)
      ensures processorDescription.handlerDocs == reflected.handlerDocs
      ensures fresh(b) && b.processorDescription == processorDescription
    {
      b := WithHandler(Some(title), None, handler, reflected);
    }
  }

  /** Three arguments bound: the next goes to slot 4. */
  class CRHandlerBuilder3 {
    const processorDescription: ProcessorDescription

    constructor (processorDescription: ProcessorDescription)
      ensures this.processorDescription == processorDescription
    {
      this.processorDescription := processorDescription;
    }

    /** `passArg`: stores the function as `arg4`. */
    method PassArg(arg: ArgFunction) returns (b: CRHandlerBuilder4)
      modifies processorDescription`arg4
      ensures processorDescription.arg4 == Some(arg)
      ensures fresh(b) && b.processorDescription == processorDescription
    {
      processorDescription.arg4 := Some(arg);
      b := new CRHandlerBuilder4(processorDescription);
    }

    /**
     * `copyArg`: stores the function as `arg4` but marks argument 3, not
     * argument 4, as copied; the flag of slot 4 is left as it was.
     */
    method CopyArg(arg: ArgFunction) returns (b: CRHandlerBuilder4)
      modifies processorDescription`arg4, processorDescription`isCopyArg3
      ensures processorDescription.arg4 == Some(arg)
      ensures processorDescription.isCopyArg3
      ensures processorDescription.isCopyArg4 == old(processorDescription.isCopyArg4)
      ensures fresh(b) && b.processorDescription == processorDescription
    {
      processorDescription.arg4 := Some(arg);
      processorDescription.isCopyArg3 := true;
      b := new CRHandlerBuilder4(processorDescription);
    }

    /**
     * `copyArg` as its name and its siblings intend: stores the function as
     * `arg4` and marks argument 4 as copied, leaving the flag of slot 3 alone.
     */
    method CopyArgAsIntended(arg: ArgFunction) returns (b: CRHandlerBuilder4)
      modifies processorDescription`arg4, processorDescription`isCopyArg4
      ensures processorDescription.arg4 == Some(arg)
      ensures processorDescription.isCopyArg4
      ensures processorDescription.isCopyArg3 == old(processorDescription.isCopyArg3)
      ensures fresh(b) && b.processorDescription == processorDescription
    {
      processorDescription.arg4 := Some(arg);
      processorDescription.isCopyArg4 := true;
      b := new CRHandlerBuilder4(processorDescription);
    }

    /**
     * `withHandler`: stores the handler as `handler3` and records the
     * invocation point as `handleBySource` when there is one; otherwise the
     * previous source stays.
     */
    method WithHandler(handler: Handler, invocationPoint: Option<Source>) returns (b: CRProcessorMergerBuilder)
      modifies processorDescription`handler3, processorDescription`handleBySource
      ensures processorDescription.handler3 == Some(handler)
      ensures processorDescription.handleBySource ==
        if invocationPoint.Some? then invocationPoint else old(processorDescription.handleBySource)
      ensures fresh(b) && b.processorDescription == processorDescription
    {
      processorDescription.handler3 := Some(handler);
      if invocationPoint.Some? {
        processorDescription.handleBySource := invocationPoint;
      }
      b := new CRProcessorMergerBuilder(processorDescription);
    }
  }

  /**
   * Declaring a one-argument processor, `copyArg(arg).withHandler(title, handler)`
   * on a fresh description: both builder steps write into the same
   * description, so it ends up with the copied argument in slot 1, the handler
   * in slot 1 and the explicit title over the reflected one, and the merger
   * builder goes on with that description.
   */
  method DeclareOneArgProcessor(
    processorType: JavaClass, arg: ArgFunction, title: string, handler: Handler, reflected: ReflectedDocs)
    returns (d: ProcessorDescription, merger: CRProcessorMergerBuilder)
    ensures merger.processorDescription == d
    ensures d.arg1 == Some(arg) && d.isCopyArg1
    ensures d.handler1 == Some(handler) && d.handler0.None? && d.handler3.None?
    ensures d.arg2.None? && !d.isCopyArg2
    ensures d.handlerTitle == Some(title) && d.handlerDocs == reflected.handlerDocs
  {
    d := new ProcessorDescription(processorType);
    var b0 := new CRHandlerBuilder0(d);
    var b1 := b0.CopyArg(arg);
    merger := b1.WithTitledHandler(title, handler, reflected);
  }

  /**
   * A description that went through `copyArg` of the fourth-argument builder
   * holds the function in slot 4 yet reports argument 3, not 4, as copied.
   */
  method CopyFourthArg(processorType: JavaClass, arg: ArgFunction) returns (d: ProcessorDescription)
    ensures d.arg4 == Some(arg)
    ensures d.isCopyArg3 && !d.isCopyArg4
    ensures d.arg3.None?
  {
    d := new ProcessorDescription(processorType);
    var b3 := new CRHandlerBuilder3(d);
    var b4 := b3.CopyArg(arg);
  }

  /**
   * With the intended `copyArg`, the function in slot 4 is the one marked as
   * copied, and slot 3 stays a plain, unset argument.
   */
  method CopyFourthArgAsIntended(processorType: JavaClass, arg: ArgFunction) returns (d: ProcessorDescription)
    ensures d.arg4 == Some(arg)
    ensures d.isCopyArg4 && !d.isCopyArg3
    ensures d.arg3.None?
  {
    d := new ProcessorDescription(processorType);
    var b3 := new CRHandlerBuilder3(d);
    var b4 := b3.CopyArgAsIntended(arg);
  }
}
