# completable-reactor: graph registry, build DSL and lambda reflection

This project models the part of completable-reactor that builds a reactor
graph and describes it, in Dafny.

- **`CRReactorGraph`** is the graph's registry. It holds the processing items (processors, subgraphs and detached merge points), the merge points with their transitions, the merge groups and the start point. Registration rejects a second item with the same identity. Serialisation turns the graph into a `ReactorGraphModel`: processors and subgraphs in identity-string order, missing coordinates replaced by the defaults (100, 100) and (500, 100), and merge groups as lists of identities.
- **`CRCoordinates`** is the DSL that places items on the canvas. Each call finds the one item, merge point or completing transition matching an identity string. It fails on zero or several matches.
- **`CRMergeGroupBuilder`** declares a merge group. Each `with` registers an item and appends the one merge point the item owns. A merge point may only be started from a group of at least two members.
- **`CRMergePoint` and `GraphMergePoint`** are the merge point objects. Their names, profiling names and debug names are modelled.
- **`ProcessorsHaveIncomingFlowsValidator`** checks that every processor and every subgraph is reached, either by the start point or as the handler of some transition.
- **`CRHandlerBuilder0`, `CRHandlerBuilder1` and `CRHandlerBuilder3`** fill a processor description with arguments, copy flags and a handler.
- **`LambdaReflector`** encodes a method's JVM descriptor `(params)return`. It decodes that encoding back, and it selects the method a serialized lambda refers to: the only method with that name, or else the one overload whose descriptor equals the lambda's signature.

Files, one module each:

- `wrappers.dfy`: `Option`, `Result`, `Outcome`.
- `identities.dfy`: identities and their `SimpleName@id` strings.
- `graph_model.dfy`: the serialised graph model.
- `descriptions.dfy`: processor, subgraph and merge point descriptions.
- `merge_points.dfy`: `CRMergePoint`, `GraphMergePoint`.
- `processing_items.dfy`: processors, subgraphs, the processing-item sum type.
- `ordering.dfy`: sorting and filtering used by serialisation.
- `reactor_graph.dfy`: `CRReactorGraph`.
- `coordinates_dsl.dfy`: `CRCoordinates`.
- `merge_group_dsl.dfy`: `CRMergeGroupBuilder`.
- `handler_dsl.dfy`: the handler builders.
- `validator.dfy`: the validator.
- `lambda_reflector.dfy`: `LambdaReflector`.

Java objects that are updated in place are classes here: the graph, the DSL objects, the descriptions and the merge points. Values are datatypes.

Exceptions become `Err`/`Fail` values that carry what the message names.

Collections are modelled like this:

- The graph's `HashMap` of processing items is a `map` keyed by the processing-item datatype. Keys are compared by object reference. Two merge points that are equal under Lombok's value equality share an identity (`MergePoints.EqualMergePointsShareIdentity`), so registration rejects the second one as a conflict before a hash lookup could confuse them.
- `HashMap` iteration order is an arbitrary enumeration of the keys.

Reflection, call-site lookup and class loading are parameters of the operations that use them:

- `ReflectedDocs` is the handler title and docs read from annotations.
- `invocationPoint` is the source location of the DSL call.
- `declaredMethods` gives the methods declared by the class of a given name.

## Model

| member | source | states |
|---|---|---|
| Identities.IntToStringRoundTrip | completable-reactor-runtime/src/main/java/ru/fix/completable/reactor/runtime/internal/CRReactorGraph.java:421-425 | the decimal text of an id parses back to the same id |
| Identities.IntToStringInjective | completable-reactor-runtime/src/main/java/ru/fix/completable/reactor/runtime/internal/CRReactorGraph.java:421-425 | two ids with the same decimal text are equal |
| Identities.IntToStringHasNoAt | completable-reactor-runtime/src/main/java/ru/fix/completable/reactor/runtime/internal/CRReactorGraph.java:421-425 | the decimal text of an id contains no `@`, so the first `@` of an identity string is the separator |
| Identities.SerializeTypeInjective | completable-reactor-runtime/src/main/java/ru/fix/completable/reactor/runtime/internal/CRReactorGraph.java:421-425 | `SimpleName@id` identity strings determine both the simple class name and the id |
| Identities.MergePointStringIsTypeString | completable-reactor-runtime/src/main/java/ru/fix/completable/reactor/runtime/internal/CRReactorGraph.java:427-429 | `MergePoint@id` is the identity string of a class whose simple name is `MergePoint` with the same id |
| Identities.SerializeMergePointInjective | completable-reactor-runtime/src/main/java/ru/fix/completable/reactor/runtime/internal/CRReactorGraph.java:427-429 | merge point identity strings determine the id |
| MergePoints.CRMergePoint.constructor | completable-reactor-runtime/src/main/java/ru/fix/completable/reactor/runtime/internal/dsl/CRMergePoint.java:21-23 | a new merge point has the given id and description and no name |
| MergePoints.CRMergePoint.SetName | completable-reactor-runtime/src/main/java/ru/fix/completable/reactor/runtime/internal/dsl/CRMergePoint.java:25-28 | sets the name, changes nothing else and returns the same merge point |
| MergePoints.CRMergePoint.DebugName | completable-reactor-runtime/src/main/java/ru/fix/completable/reactor/runtime/internal/dsl/CRMergePoint.java:35-38 | the debug name is the merge point's identity: kind merge point, its name |
| MergePoints.ProfilingNameDeterminesName | completable-reactor-runtime/src/main/java/ru/fix/completable/reactor/runtime/internal/dsl/CRMergePoint.java:30-33 | two named merge points with the same profiling name have the same name |
| MergePoints.UnnamedProfilesAsNull | completable-reactor-runtime/src/main/java/ru/fix/completable/reactor/runtime/internal/dsl/CRMergePoint.java:30-33 | an unnamed merge point profiles as the text `null`, the same as one named `null` |
| MergePoints.EqualMergePointsShareIdentity | completable-reactor-runtime/src/main/java/ru/fix/completable/reactor/runtime/internal/dsl/CRMergePoint.java:12 | merge points equal by value have the same identity |
| MergePoints.GraphMergePoint.constructor | completable-reactor-runtime/src/main/java/ru/fix/completable/reactor/runtime/GraphMergePoint.java:9-15 | a new graph merge point has id 0 and the given description |
| MergePoints.GraphMergePoint.WithId | completable-reactor-runtime/src/main/java/ru/fix/completable/reactor/runtime/GraphMergePoint.java:17-20 | sets the id, changes nothing else and returns the same merge point |
| MergePoints.GraphDebugNameDeterminesId | completable-reactor-runtime/src/main/java/ru/fix/completable/reactor/runtime/GraphMergePoint.java:27-30 | two graph merge points with the same debug name have the same id |
| MergePoints.GraphProfilingNameDeterminesId | completable-reactor-runtime/src/main/java/ru/fix/completable/reactor/runtime/GraphMergePoint.java:22-25 | two graph merge points with the same profiling name have the same id |
| MergePoints.GraphDebugNameIsNotIdentityString | completable-reactor-runtime/src/main/java/ru/fix/completable/reactor/runtime/GraphMergePoint.java:27-30 | the debug name `mergePoint@id` is never a merge point identity string `MergePoint@id` |
| ProcessingItems.SerializeProcessor | completable-reactor-runtime/src/main/java/ru/fix/completable/reactor/runtime/internal/CRReactorGraph.java:411-419 | a null processor serialises to null; otherwise to `SimpleName@id` of its type and id |
| ProcessingItems.SerializeSubgraph | completable-reactor-runtime/src/main/java/ru/fix/completable/reactor/runtime/internal/CRReactorGraph.java:436-441 | a null subgraph serialises to null; otherwise to `SimpleName@id` of its payload class and id |
| ProcessingItems.EqualItemsShareIdentity | completable-reactor-runtime/src/main/java/ru/fix/completable/reactor/runtime/internal/CRReactorGraph.java:444-453 | processing items that are equal as hash keys have the same identity |
| ProcessingItems.ProcessorMatchesTypeString | completable-reactor-runtime/src/main/java/ru/fix/completable/reactor/runtime/internal/dsl/CRCoordinates.java:41-43 | a processor's serialised form equals `serialize(type, id)` exactly when it has that type's simple name and that id |
| Ordering.LessEqTotal | completable-reactor-runtime/src/main/java/ru/fix/completable/reactor/runtime/internal/CRReactorGraph.java:350-351 | string comparison is total |
| Ordering.LessEqTransitive | completable-reactor-runtime/src/main/java/ru/fix/completable/reactor/runtime/internal/CRReactorGraph.java:350-351 | string comparison is transitive |
| Ordering.AdjacentSortedIsSorted | completable-reactor-runtime/src/main/java/ru/fix/completable/reactor/runtime/internal/CRReactorGraph.java:350-351 | a sequence sorted on neighbours is sorted on all pairs |
| Ordering.Insert | completable-reactor-runtime/src/main/java/ru/fix/completable/reactor/runtime/internal/CRReactorGraph.java:350-351 | inserting into a sorted sequence keeps it sorted and adds exactly the element |
| Ordering.SortBy | completable-reactor-runtime/src/main/java/ru/fix/completable/reactor/runtime/internal/CRReactorGraph.java:350-351 | the result is a permutation of the input, sorted on neighbours, and distinct when the input is |
| Ordering.SortBySpec | completable-reactor-runtime/src/main/java/ru/fix/completable/reactor/runtime/internal/CRReactorGraph.java:350-351 | the result is sorted by the key |
| Ordering.InsertBehindSmaller | completable-reactor-runtime/src/main/java/ru/fix/completable/reactor/runtime/internal/CRReactorGraph.java:350-351 | an element goes behind every element whose key is at most its own |
| Ordering.SortByKeepsTies | completable-reactor-runtime/src/main/java/ru/fix/completable/reactor/runtime/internal/CRReactorGraph.java:350-351 | when every key is equal, the sort returns its input unchanged |
| Ordering.InsertKeepsTies | completable-reactor-runtime/src/main/java/ru/fix/completable/reactor/runtime/internal/CRReactorGraph.java:350-351 | inserting an element puts it behind every element with its key and keeps the relative order of the elements with any one key |
| Ordering.SortByIsStable | completable-reactor-runtime/src/main/java/ru/fix/completable/reactor/runtime/internal/CRReactorGraph.java:350-351 | the sort is stable: for every key, the elements with that key come out in their input order |
| Ordering.Enumerate | completable-reactor-runtime/src/main/java/ru/fix/completable/reactor/runtime/internal/CRReactorGraph.java:350 | lists every element of a set exactly once |
| Ordering.Filter | completable-reactor-runtime/src/main/java/ru/fix/completable/reactor/runtime/internal/CRReactorGraph.java:353-370 | keeps exactly the elements satisfying the predicate, and keeps distinctness |
| Ordering.FilterKeepsOrder | completable-reactor-runtime/src/main/java/ru/fix/completable/reactor/runtime/internal/CRReactorGraph.java:350-371 | filtering a sorted sequence without duplicates leaves it sorted and without duplicates |
| Ordering.FilterCounts | completable-reactor-runtime/src/main/java/ru/fix/completable/reactor/runtime/internal/LambdaReflector.java:82-105 | the filter is empty exactly when nothing matches, has one element exactly when one position matches, and is then that element |
| ReactorGraphs.IdentityOf | completable-reactor-runtime/src/main/java/ru/fix/completable/reactor/runtime/internal/CRReactorGraph.java:77-88 | the identity of an optional item is present exactly when the item is |
| ReactorGraphs.ItemIdentities | completable-reactor-runtime/src/main/java/ru/fix/completable/reactor/runtime/internal/CRReactorGraph.java:276-277 | maps each item to its identity, position by position |
| ReactorGraphs.StatusSourcesSpec | completable-reactor-runtime/src/main/java/ru/fix/completable/reactor/runtime/internal/CRReactorGraph.java:143-148 | each status name maps to the source of the last status with that name, and only status names are keys |
| ReactorGraphs.NewTransition | completable-reactor-runtime/src/main/java/ru/fix/completable/reactor/runtime/internal/CRReactorGraph.java:143-149 | a new transition holds the statuses and their sources and no handler, merger or completion |
| ReactorGraphs.NewTransitionStatusesHaveSources | completable-reactor-runtime/src/main/java/ru/fix/completable/reactor/runtime/internal/CRReactorGraph.java:143-148 | every status of a new transition has a source |
| ReactorGraphs.Transition.Serialize | completable-reactor-runtime/src/main/java/ru/fix/completable/reactor/runtime/internal/CRReactorGraph.java:151-184 | the model names the transition's statuses, handler and merge identities and completion; missing coordinates and sources fall back to defaults |
| ReactorGraphs.SerializeTransitions | completable-reactor-runtime/src/main/java/ru/fix/completable/reactor/runtime/internal/CRReactorGraph.java:116 | serialises each transition, position by position |
| ReactorGraphs.MergePoint.AsProcessingItem | completable-reactor-runtime/src/main/java/ru/fix/completable/reactor/runtime/internal/CRReactorGraph.java:77-88 | a processor merge point's item is its processor, a standalone one its merge point, a subgraph one its subgraph |
| ReactorGraphs.MergePoint.Serialize | completable-reactor-runtime/src/main/java/ru/fix/completable/reactor/runtime/internal/CRReactorGraph.java:90-118 | the model carries the owner's identity, coordinates defaulting to (100, 100), their source and the transitions, position by position |
| ReactorGraphs.SerializeMergePoints | completable-reactor-runtime/src/main/java/ru/fix/completable/reactor/runtime/internal/CRReactorGraph.java:374-376 | serialises each merge point, position by position |
| ReactorGraphs.OwnerAt | completable-reactor-runtime/src/main/java/ru/fix/completable/reactor/runtime/internal/CRReactorGraph.java:384-387 | the owner of the merge point at a position is one of the graph's items |
| ReactorGraphs.GroupIdentities | completable-reactor-runtime/src/main/java/ru/fix/completable/reactor/runtime/internal/CRReactorGraph.java:384-387 | the identities of a group's merge points, in the group's order |
| ReactorGraphs.ProcessingItemInfo.IsMergerExist | completable-reactor-runtime/src/main/java/ru/fix/completable/reactor/runtime/internal/CRReactorGraph.java:206-217 | each kind reports whether its own description has a merger; a missing description gives no answer (the source dereferences null) |
| ReactorGraphs.InfoFor | completable-reactor-runtime/src/main/java/ru/fix/completable/reactor/runtime/internal/CRReactorGraph.java:444-509 | the info recorded for an item has the item's kind, only the description of that kind, and no coordinates |
| ReactorGraphs.RegisteredMergerExists | completable-reactor-runtime/src/main/java/ru/fix/completable/reactor/runtime/internal/CRReactorGraph.java:206-217 | the info recorded for a processor reports a merger exactly when its description has one |
| ReactorGraphs.Registered | completable-reactor-runtime/src/main/java/ru/fix/completable/reactor/runtime/internal/CRReactorGraph.java:444-509 | registration keeps the old entries and adds the item with its info |
| ReactorGraphs.RegistrationIsIdempotent | completable-reactor-runtime/src/main/java/ru/fix/completable/reactor/runtime/internal/CRReactorGraph.java:455-463 | registering an item a second time changes nothing and raises no conflict |
| ReactorGraphs.RegistrationKeepsIdentitiesUnique | completable-reactor-runtime/src/main/java/ru/fix/completable/reactor/runtime/internal/CRReactorGraph.java:444-509 | a registration that passes the conflict check keeps identities unique |
| ReactorGraphs.StartPoint.Serialize | completable-reactor-runtime/src/main/java/ru/fix/completable/reactor/runtime/internal/CRReactorGraph.java:269-281 | the start point's items as identities sorted by identity, with coordinates defaulting to (500, 100) |
| ReactorGraphs.ProcessorModels | completable-reactor-runtime/src/main/java/ru/fix/completable/reactor/runtime/internal/CRReactorGraph.java:219-237 | one processor model per processor entry, in order, each with its identity, its coordinates defaulting to (100, 100), and its coordinates source |
| ReactorGraphs.SubgraphModels | completable-reactor-runtime/src/main/java/ru/fix/completable/reactor/runtime/internal/CRReactorGraph.java:239-250 | one subgraph model per subgraph entry, in order, each with its identity |
| ReactorGraphs.SerializedEntries | completable-reactor-runtime/src/main/java/ru/fix/completable/reactor/runtime/internal/CRReactorGraph.java:350-371 | the entries of one kind are exactly the registered items of that kind, each once, sorted by identity string |
| ReactorGraphs.ReactorGraph.SortedItems | completable-reactor-runtime/src/main/java/ru/fix/completable/reactor/runtime/internal/CRReactorGraph.java:350-351 | every registered item exactly once, sorted by identity string |
| ReactorGraphs.ReactorGraph.SerializeMergeGroups | completable-reactor-runtime/src/main/java/ru/fix/completable/reactor/runtime/internal/CRReactorGraph.java:382-392 | fails exactly when the start-point group is null and there is at least one group, as the per-group `isPresent` call throws; otherwise one model per group, in order: its members' identities, flagged exactly when it is the start point's group |
| ReactorGraphs.ProcessorEntriesAreProcessors | completable-reactor-runtime/src/main/java/ru/fix/completable/reactor/runtime/internal/CRReactorGraph.java:353-363 | every processor entry of the serialisation is a registered processor |
| ReactorGraphs.ReactorGraph.constructor | completable-reactor-runtime/src/main/java/ru/fix/completable/reactor/runtime/internal/CRReactorGraph.java:299-316 | a new graph has the payload class, no items, merge groups or merge points, an empty start point and a null start merge group |
| ReactorGraphs.ReactorGraph.EnsureRegistered | completable-reactor-runtime/src/main/java/ru/fix/completable/reactor/runtime/internal/CRReactorGraph.java:444-509 | fails on another item with the same identity; otherwise the item is registered, once |
| ReactorGraphs.ReactorGraph.Serialize | completable-reactor-runtime/src/main/java/ru/fix/completable/reactor/runtime/internal/CRReactorGraph.java:342-395 | processors and subgraphs are the registered items of each kind, each once, sorted by identity string; merge points, groups and start point are serialised position by position; only the remembered start group includes the start point; fails exactly when the start-point group is null and there is at least one merge group |
| CoordinatesDsl.DetachedCompleteMatchesAsWritten | completable-reactor-runtime/src/main/java/ru/fix/completable/reactor/runtime/internal/dsl/CRCoordinates.java:173-178 | the detached-complete filter as written: any positions it matches are merge point positions; the dereference of a missing processor is an error value |
| CoordinatesDsl.DetachedCompleteAsWrittenFails | completable-reactor-runtime/src/main/java/ru/fix/completable/reactor/runtime/internal/dsl/CRCoordinates.java:173-193 | with any detached merge point in the graph, the filter as written fails before matching |
| CoordinatesDsl.NoErrorBeforeIsOk | completable-reactor-runtime/src/main/java/ru/fix/completable/reactor/runtime/internal/dsl/CRCoordinates.java:173-178 | the filter as written either succeeds or fails with the null dereference, never another error |
| CoordinatesDsl.DetachedMatchesById | completable-reactor-runtime/src/main/java/ru/fix/completable/reactor/runtime/internal/dsl/CRCoordinates.java:101-106 | a detached merge point matches `MergePoint@id` exactly when it is detached with that id |
| CoordinatesDsl.ProcessorMergeMatchesByTypeAndId | completable-reactor-runtime/src/main/java/ru/fix/completable/reactor/runtime/internal/dsl/CRCoordinates.java:72-77 | a processor merge point matches exactly when its processor has that type and id |
| CoordinatesDsl.ProcessorFieldMatchesAgree | completable-reactor-runtime/src/main/java/ru/fix/completable/reactor/runtime/internal/dsl/CRCoordinates.java:130-135 | matching on the processor field picks the processor merge points with that identity string |
| CoordinatesDsl.CRCoordinates.constructor | completable-reactor-runtime/src/main/java/ru/fix/completable/reactor/runtime/internal/dsl/CRCoordinates.java:26-30 | the DSL object is bound to the graph |
| CoordinatesDsl.CRCoordinates.Start | completable-reactor-runtime/src/main/java/ru/fix/completable/reactor/runtime/internal/dsl/CRCoordinates.java:32-37 | sets the start point's coordinates and its source, null when unknown; nothing else changes |
| CoordinatesDsl.CRCoordinates.Proc | completable-reactor-runtime/src/main/java/ru/fix/completable/reactor/runtime/internal/dsl/CRCoordinates.java:40-69 | fails unless exactly one registered item matches; then sets that item's coordinates and source |
| CoordinatesDsl.CRCoordinates.MergeProcessor | completable-reactor-runtime/src/main/java/ru/fix/completable/reactor/runtime/internal/dsl/CRCoordinates.java:72-98 | fails unless exactly one processor merge point matches type and id; then sets its coordinates |
| CoordinatesDsl.CRCoordinates.MergeDetached | completable-reactor-runtime/src/main/java/ru/fix/completable/reactor/runtime/internal/dsl/CRCoordinates.java:101-127 | fails unless exactly one detached merge point has the id; then sets its coordinates |
| CoordinatesDsl.CRCoordinates.SetMergePointCoordinates | completable-reactor-runtime/src/main/java/ru/fix/completable/reactor/runtime/internal/dsl/CRCoordinates.java:78-97 | fails on zero or several matches; otherwise sets the one match's coordinates and nothing else |
| CoordinatesDsl.CRCoordinates.CompleteProcessor | completable-reactor-runtime/src/main/java/ru/fix/completable/reactor/runtime/internal/dsl/CRCoordinates.java:130-170 | fails unless one processor merge point matches and it has exactly one completing transition; then sets that transition's completion coordinates and source |
| CoordinatesDsl.CRCoordinates.CompleteDetached | completable-reactor-runtime/src/main/java/ru/fix/completable/reactor/runtime/internal/dsl/CRCoordinates.java:173-213 | as for processors, matching detached merge points by their own identity |
| CoordinatesDsl.CRCoordinates.SetCompletion | completable-reactor-runtime/src/main/java/ru/fix/completable/reactor/runtime/internal/dsl/CRCoordinates.java:150-167 | fails on zero or several completing transitions; otherwise sets the one transition's completion coordinates and source |
| CoordinatesDsl.TheOnly | completable-reactor-runtime/src/main/java/ru/fix/completable/reactor/runtime/internal/dsl/CRCoordinates.java:64 | picks the element of a one-element set |
| MergeGroupDsl.OwnedMergePointsAreTheItems | completable-reactor-runtime/src/main/java/ru/fix/completable/reactor/runtime/internal/dsl/CRMergeGroupBuilder.java:28-30 | in a graph with unique identities a registered item owns exactly the merge points it is the owner of |
| MergeGroupDsl.CRMergeGroupBuilder.constructor | completable-reactor-runtime/src/main/java/ru/fix/completable/reactor/runtime/internal/dsl/CRMergeGroupBuilder.java:18-23 | appends one new empty group to the graph |
| MergeGroupDsl.CRMergeGroupBuilder.With | completable-reactor-runtime/src/main/java/ru/fix/completable/reactor/runtime/internal/dsl/CRMergeGroupBuilder.java:26-69 | registers the item; fails on a conflict or unless exactly one merge point is owned by it; otherwise appends that merge point to this group only |
| MergeGroupDsl.CRMergeGroupBuilder.AddOwned | completable-reactor-runtime/src/main/java/ru/fix/completable/reactor/runtime/internal/dsl/CRMergeGroupBuilder.java:27-39 | fails with the count unless exactly one merge point is owned by the item; otherwise appends that one to this group |
| MergeGroupDsl.CRMergeGroupBuilder.AssertMergeGroup | completable-reactor-runtime/src/main/java/ru/fix/completable/reactor/runtime/internal/dsl/CRMergeGroupBuilder.java:71-80 | passes exactly when the group has at least two members; the error lists their identities |
| MergeGroupDsl.CRMergeGroupBuilder.MergePoint | completable-reactor-runtime/src/main/java/ru/fix/completable/reactor/runtime/internal/dsl/CRMergeGroupBuilder.java:83-92 | starts the merge point of the item exactly when the group has at least two members |
| MergeGroupDsl.AppendingTwiceDuplicates | completable-reactor-runtime/src/main/java/ru/fix/completable/reactor/runtime/internal/dsl/CRMergeGroupBuilder.java:39 | adding the same item twice puts its merge point in the group twice |
| HandlerDsl.InitializeProcessorDescription | completable-reactor-runtime/src/main/java/ru/fix/completable/reactor/runtime/internal/dsl/CRHandlerBuilder0.java:25 | the reflected handler title and docs are copied into the description |
| HandlerDsl.CRHandlerBuilder0.constructor | completable-reactor-runtime/src/main/java/ru/fix/completable/reactor/runtime/internal/dsl/CRHandlerBuilder0.java:16-18 | the builder fills the given description |
| HandlerDsl.CRHandlerBuilder0.WithHandler | completable-reactor-runtime/src/main/java/ru/fix/completable/reactor/runtime/internal/dsl/CRHandlerBuilder0.java:21-28 | sets the zero-argument handler and reflected title and docs; the next builder fills the same description |
| HandlerDsl.CRHandlerBuilder0.PassArg | completable-reactor-runtime/src/main/java/ru/fix/completable/reactor/runtime/internal/dsl/CRHandlerBuilder0.java:31-34 | sets the first argument and leaves its copy flag |
| HandlerDsl.CRHandlerBuilder0.CopyArg | completable-reactor-runtime/src/main/java/ru/fix/completable/reactor/runtime/internal/dsl/CRHandlerBuilder0.java:37-41 | sets the first argument and marks it to be copied |
| HandlerDsl.CRHandlerBuilder1.constructor | completable-reactor-runtime/src/main/java/ru/fix/completable/reactor/runtime/internal/dsl/CRHandlerBuilder1.java:17-19 | the builder fills the given description |
| HandlerDsl.CRHandlerBuilder1.PassArg | completable-reactor-runtime/src/main/java/ru/fix/completable/reactor/runtime/internal/dsl/CRHandlerBuilder1.java:22-25 | sets the second argument and leaves its copy flag |
| HandlerDsl.CRHandlerBuilder1.CopyArg | completable-reactor-runtime/src/main/java/ru/fix/completable/reactor/runtime/internal/dsl/CRHandlerBuilder1.java:28-32 | sets the second argument and marks it to be copied |
| HandlerDsl.CRHandlerBuilder1.WithHandler | completable-reactor-runtime/src/main/java/ru/fix/completable/reactor/runtime/internal/dsl/CRHandlerBuilder1.java:50-67 | sets the one-argument handler; a given title or docs win over the reflected ones, a missing one leaves the reflected |
| HandlerDsl.CRHandlerBuilder1.WithHandlerOnly | completable-reactor-runtime/src/main/java/ru/fix/completable/reactor/runtime/internal/dsl/CRHandlerBuilder1.java:35-39 | as `WithHandler` with neither title nor docs: both are the reflected ones |
| HandlerDsl.CRHandlerBuilder1.WithTitledHandler | completable-reactor-runtime/src/main/java/ru/fix/completable/reactor/runtime/internal/dsl/CRHandlerBuilder1.java:42-47 | as `WithHandler` with a title only: the title is the given one, the docs the reflected ones |
| HandlerDsl.CRHandlerBuilder3.constructor | completable-reactor-runtime/src/main/java/ru/fix/completable/reactor/runtime/internal/CRHandlerBuilder3.java:17-19 | the builder fills the given description |
| HandlerDsl.CRHandlerBuilder3.PassArg | completable-reactor-runtime/src/main/java/ru/fix/completable/reactor/runtime/internal/CRHandlerBuilder3.java:21-24 | sets the fourth argument and leaves the copy flags |
| HandlerDsl.CRHandlerBuilder3.CopyArg | completable-reactor-runtime/src/main/java/ru/fix/completable/reactor/runtime/internal/CRHandlerBuilder3.java:26-30 | sets the fourth argument and, as written, the third argument's copy flag |
| HandlerDsl.CRHandlerBuilder3.CopyArgAsIntended | completable-reactor-runtime/src/main/java/ru/fix/completable/reactor/runtime/internal/CRHandlerBuilder3.java:26-30 | sets the fourth argument and the fourth argument's copy flag |
| HandlerDsl.CRHandlerBuilder3.WithHandler | completable-reactor-runtime/src/main/java/ru/fix/completable/reactor/runtime/internal/CRHandlerBuilder3.java:32-37 | sets the three-argument handler; the handler source becomes the invocation point when one is found, else stays |
| HandlerDsl.DeclareOneArgProcessor | completable-reactor-runtime/src/main/java/ru/fix/completable/reactor/runtime/internal/dsl/CRHandlerBuilder0.java:37-41 | a copied first argument plus a titled one-argument handler yields a description with exactly that argument, that handler, the title and the reflected docs |
| HandlerDsl.CopyFourthArg | completable-reactor-runtime/src/main/java/ru/fix/completable/reactor/runtime/internal/CRHandlerBuilder3.java:26-30 | copying the fourth argument as written leaves it not marked for copying and marks the third |
| HandlerDsl.CopyFourthArgAsIntended | completable-reactor-runtime/src/main/java/ru/fix/completable/reactor/runtime/internal/CRHandlerBuilder3.java:26-30 | the corrected copy marks the fourth argument only |
| Validators.HandleByOf | completable-reactor-runtime/src/main/java/ru/fix/completable/reactor/runtime/validators/ProcessorsHaveIncomingFlowsValidator.java:22-26 | the handler identities named by a list of transitions |
| Validators.HandleByTargets | completable-reactor-runtime/src/main/java/ru/fix/completable/reactor/runtime/validators/ProcessorsHaveIncomingFlowsValidator.java:22-26 | an identity is collected exactly when some transition of some merge point is handled by it |
| Validators.IncomingTargets | completable-reactor-runtime/src/main/java/ru/fix/completable/reactor/runtime/validators/ProcessorsHaveIncomingFlowsValidator.java:22-34 | an identity has an incoming flow exactly when a transition handler or the start point names it |
| Validators.CheckedIdentities | completable-reactor-runtime/src/main/java/ru/fix/completable/reactor/runtime/validators/ProcessorsHaveIncomingFlowsValidator.java:36-38 | the processors' identities, then the subgraphs', in order |
| Validators.FirstMissing | completable-reactor-runtime/src/main/java/ru/fix/completable/reactor/runtime/validators/ProcessorsHaveIncomingFlowsValidator.java:36-40 | none exactly when all identities have an incoming flow; otherwise one that has none |
| Validators.ValidateGraph | completable-reactor-runtime/src/main/java/ru/fix/completable/reactor/runtime/validators/ProcessorsHaveIncomingFlowsValidator.java:20-46 | passes exactly when every processor and subgraph has an incoming flow; a failure names a processor or subgraph without one |
| Validators.MergeTargetIsNotAnIncomingFlow | completable-reactor-runtime/src/main/java/ru/fix/completable/reactor/runtime/validators/ProcessorsHaveIncomingFlowsValidator.java:22-34 | a processor that is neither started nor a transition handler fails validation, whatever merges into it |
| LambdaReflection.BaseTypeChar | completable-reactor-runtime/src/main/java/ru/fix/completable/reactor/runtime/internal/LambdaReflector.java:119-145 | each primitive type has its one-letter descriptor from `ZBCDFIJSV` |
| LambdaReflection.BaseType | completable-reactor-runtime/src/main/java/ru/fix/completable/reactor/runtime/internal/LambdaReflector.java:119-145 | decodes a one-letter descriptor back to the primitive type |
| LambdaReflection.BaseTypeRoundTrip | completable-reactor-runtime/src/main/java/ru/fix/completable/reactor/runtime/internal/LambdaReflector.java:119-145 | decoding a primitive's letter gives the primitive back |
| LambdaReflection.Replace | completable-reactor-runtime/src/main/java/ru/fix/completable/reactor/runtime/internal/LambdaReflector.java:75 | replaces every occurrence of one character, position by position |
| LambdaReflection.ReplaceBack | completable-reactor-runtime/src/main/java/ru/fix/completable/reactor/runtime/internal/LambdaReflector.java:147 | replacing `.` by `/` and back restores a class name that has no `/` |
| LambdaReflection.SignatureMapType | completable-reactor-runtime/src/main/java/ru/fix/completable/reactor/runtime/internal/LambdaReflector.java:114-148 | a nonempty descriptor starting with `[` exactly for arrays and `L` exactly for classes |
| LambdaReflection.ParameterDescriptorsAppend | completable-reactor-runtime/src/main/java/ru/fix/completable/reactor/runtime/internal/LambdaReflector.java:153-158 | the parameter descriptors of a longer list extend those of its prefix |
| LambdaReflection.Signature | completable-reactor-runtime/src/main/java/ru/fix/completable/reactor/runtime/internal/LambdaReflector.java:150-163 | the built string is the method descriptor `(params)return` |
| LambdaReflection.FieldDescriptorRoundTrip | completable-reactor-runtime/src/main/java/ru/fix/completable/reactor/runtime/internal/LambdaReflector.java:114-148 | decoding a type's descriptor followed by any text gives the type and that text |
| LambdaReflection.ClassDescriptorRoundTrip | completable-reactor-runtime/src/main/java/ru/fix/completable/reactor/runtime/internal/LambdaReflector.java:147 | decoding `Lname;` gives the class with that name |
| LambdaReflection.FieldDescriptorDecodesOnlyEncodings | completable-reactor-runtime/src/main/java/ru/fix/completable/reactor/runtime/internal/LambdaReflector.java:114-148 | whatever decodes is the descriptor of the decoded type followed by the rest |
| LambdaReflection.ParametersRoundTrip | completable-reactor-runtime/src/main/java/ru/fix/completable/reactor/runtime/internal/LambdaReflector.java:153-158 | decoding the parameter descriptors followed by `)` and any rest gives the parameter types and that rest |
| LambdaReflection.ParametersDecodeOnlyEncodings | completable-reactor-runtime/src/main/java/ru/fix/completable/reactor/runtime/internal/LambdaReflector.java:153-158 | whatever decodes as parameters is their descriptor followed by the rest |
| LambdaReflection.MethodDescriptorRoundTrip | completable-reactor-runtime/src/main/java/ru/fix/completable/reactor/runtime/internal/LambdaReflector.java:150-163 | decoding a method's descriptor gives its parameter and return types |
| LambdaReflection.MethodDescriptorDecodesOnlyEncodings | completable-reactor-runtime/src/main/java/ru/fix/completable/reactor/runtime/internal/LambdaReflector.java:150-163 | whatever decodes as a method descriptor is the descriptor of the decoded types |
| LambdaReflection.MethodDescriptorInjective | completable-reactor-runtime/src/main/java/ru/fix/completable/reactor/runtime/internal/LambdaReflector.java:150-163 | methods with the same descriptor have the same parameter and return types |
| LambdaReflection.CompareSignatures | completable-reactor-runtime/src/main/java/ru/fix/completable/reactor/runtime/internal/LambdaReflector.java:165-167 | a method matches a signature exactly when the signature decodes to its types |
| LambdaReflection.SelectMethod | completable-reactor-runtime/src/main/java/ru/fix/completable/reactor/runtime/internal/LambdaReflector.java:82-105 | no method of that name gives none; one gives it; several give the one whose descriptor matches, if exactly one does |
| LambdaReflection.ReferencedMethod | completable-reactor-runtime/src/main/java/ru/fix/completable/reactor/runtime/internal/LambdaReflector.java:71-110 | none for a missing lambda, class or name or an unloadable class; otherwise present exactly when `SelectMethod` selects a method among the declared methods of the class with `/` replaced by `.`, and then that method, which has the lambda's method name |
| LambdaReflection.OverloadSelectedByDescriptor | completable-reactor-runtime/src/main/java/ru/fix/completable/reactor/runtime/internal/LambdaReflector.java:95-102 | among overloads with distinct types, the lambda's descriptor selects exactly the referenced overload |

## Left out

- The execution engine (running processors, merging results, profiling) is not part of this model.
- I/O-bound lookups are parameters of the operations that need them: `ReactorReflector.getMethodInvocationPoint`, `BuilderReflector.initializeProcessorDescription`, `Class.forName` with `getDeclaredMethods`, and the `writeReplace` call that yields a `SerializedLambda`. `LambdaReflector.annotatedMethodReference` and the `writeReplace` search loop are not modelled.
- Logging is not modelled.
- The message texts of exceptions are not modelled. Errors carry only the identity or pattern they name.
- Documentation-only fields of the serialised model are not modelled: titles, docs, merger docs, transition docs, the `completeSource`, `transitionOnAnySource` and `transitionOnStatusSource` fields, and the model's own source fields. `serializePayload` is left out too.
- CRProcessorDescription, CRSubgraphDescription and CRMergePointDescription are not part of this model. Their fields are the ones the modelled code reads and writes.
- CRGraphBuilder, CRMergePointBuilder, CRHandlerBuilder2, CRHandlerBuilder4 and CRProcessorMergerBuilder are not part of this model. The last three appear only as classes that hold the description they continue to fill.
- `buildGraph` is not modelled.
- ReactorGraphs.ReactorGraph.constructor: `startPointMergeGroup` starts as `None`, the null of the Java field. Nothing in this model assigns the field, so `Serialize` of a graph with a merge group fails here. The graph builder, which is not part of this model, may set it.
- ReactorGraphs.StartPoint.Serialize: sorts the start items by a caller-given key `identityOrder`, because the `Identity` class and its natural order are not part of this model.
- ReactorGraphs.ReactorGraph.Serialize: when identity strings tie, entries are in the order of hash-map iteration. The contract states sortedness by identity string and which entries appear, not the order among ties.
- ReactorGraphs.Transition.Serialize: merge statuses come from a hash set, so the model states the set of status names and not the list order.
- ReactorGraphs.Transition.Serialize: a status serialises as its `name()`. An enum that overrides `toString` would serialise differently in Java. Two constants of different enum classes with the same name give one element of `mergeStatuses`.
- Ordering.LessEq: compares characters as Unicode scalar values. `String.compareTo` compares UTF-16 code units, so supplementary characters order differently relative to U+E000 to U+FFFF.
- HandlerDsl.CRHandlerBuilder1.WithTitledHandler: the title is never null. A null title given to the two-argument `withHandler` behaves as `WithHandlerOnly` does.
- ReactorGraphs.ReactorGraph.EnsureRegistered: the `Objects.requireNonNull` checks of the three overloads are not modelled, because a processing item here is never null.
- MergePoints.CRMergePoint.DebugName: the debug name is the identity itself. The text of `Identity.toString` is not part of this model.
- MergePoints.CRMergePoint: `getId` is not in the class shown, so the id is modelled as a constant field. The Lombok `hashCode` of a merge point renamed after insertion into a hash map is not modelled.
- Validators.ValidateGraph: `findAny` may name any missing processor or subgraph. The model names the first one, and the contract promises only that it is one without an incoming flow.
- MergeGroupDsl.CRMergeGroupBuilder.With: the three Java overloads are one method over processing items. A `ClassCastException` for foreign `CRProcessingItem` implementations is not modelled.
- LambdaReflection.ReferencedMethod: `implMethodSignature` is modelled as always present, and failures in lambda serialisation or class loading all give `None`.
- LambdaReflection.FieldDescriptorRoundTrip: the round trip is stated for class names that are nonempty and contain no `/` or `;`, which is what the JVM allows.
- Ids are unbounded integers. The source only formats them, so Java `int` overflow does not arise.
- Identities.SerializeType: ids are written with ASCII digits and `-`. Java's `String.format` uses the default locale's digits and minus sign, so the model holds only for a locale whose zero digit is '0'.

## Findings

| source | as written | input that shows it | evidently intended | confidence | as-written member | corrected member |
|---|---|---|---|---|---|---|
| completable-reactor-runtime/src/main/java/ru/fix/completable/reactor/runtime/internal/dsl/CRCoordinates.java:173-178 | `complete(int id)` filters merge points by `serialize(mergePoint.getProcessor())`, and a detached merge point has no processor | a graph with a detached merge point: `serialize` of its null processor returns null, and calling `.equals` on that null throws `NullPointerException` | match detached merge points by their own identity `MergePoint@id`, as `merge(int id)` does at lines 101-106 | not executed; high | CoordinatesDsl.DetachedCompleteAsWrittenFails | CoordinatesDsl.CRCoordinates.CompleteDetached |
| completable-reactor-runtime/src/main/java/ru/fix/completable/reactor/runtime/internal/CRHandlerBuilder3.java:26-30 | `copyArg` stores the fourth argument but sets `isCopyArg3` | `copyArg(f)` on a three-argument builder over a fresh description: `arg4` is `f`, `isCopyArg4` stays false, `isCopyArg3` becomes true | set `isCopyArg4`, as the other builders set the flag of the argument they store | not executed; medium | HandlerDsl.CopyFourthArg | HandlerDsl.CRHandlerBuilder3.CopyArgAsIntended |
