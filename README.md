# SmartParam core in Dafny

This project models the core of SmartParam, a Java parameter engine. A
*parameter* is a decision table. Each row (an *entry*) holds one value per
level. A query supplies one value per input level and gets back the rows
that match.

The model covers five parts.

- **The engine's query path** (`Engine`).
  - `get` resolves a prepared parameter by name.
  - It makes sure the query context holds level values. When the context
    holds none, it derives them from the levels' creator functions and
    stores them in the context.
  - It checks their count and normalizes them.
  - It answers a cacheable parameter from its level index and any other
    parameter from the preparer's lookup.
  - It applies the nullable / not-found policy.
  - `callEvaluatedFunction` treats a string result as the name of a
    function to call.
- **The customizable level-index walk** (`LevelIndexWalk`). This is a
  depth-first descent. At each depth below the number of level values,
  the greedy or the fast node inspector picks the children to enter.
- **The per-depth traversal overrides** (`TraversalOverrides`).
- **The merge-tree node insertion** (`MergeTree`). It is unfinished in the
  repository, and the model keeps it that way:
  - the wildcard branch is empty;
  - no child is ever created;
  - a key hit recurses on the same node one depth further.
- **CSV entry transfer**:
  - the batch loader (`CsvEntryLoading`) is an open/closed machine that
    drains a line reader in bounded batches;
  - the serializer (`CsvEntrySerialization`) writes a header of level
    names, then every delivered entry. It closes the writer on every path.

Each part takes the form of its source:

- State the source updates in place is a class with `modifies` clauses:
  the query context, the engine's mutating methods, the merge-tree node,
  the loader and the serializer's writer.
- Everything else is datatypes and functions.
- Each imperative method is tied to a pure function of the old state
  (`NextBatchStep`, `GetSpec`, `FindParameterEntriesSpec`,
  `EvaluatedLevelValues`, `AddSucceeds`). The lemmas are stated over those
  functions.

The engine's collaborators are parameters of the model, bundled in
`Engine.Collaborators`:

- the parameter preparer;
- the function manager;
- the value factory;
- the input normalizer;
- the fast index walker;
- the holder of a value.

Java objects, prepared entries, functions, matchers and types are
abstract types.

The walker's two node inspectors are stand-ins for classes that are not
part of this model. Each is represented by the keys of the children it
chooses. The walker's own recursive `inspect` on each chosen child is
`Descend`.

The CSV reader and writer are also stand-ins. The reader is the lines it
has still to deliver, plus two optional failures: reading past the end,
and closing. The writer is the rows written so far, plus an optional
capacity and an optional close failure.

Two details of the engine's code (SmartParamEngine.java:85-89 and
127-132) that the model keeps:

- When no rows are found for a nullable parameter, `get` returns the
  engine's own empty value (`ParamValueImpl.empty()`). It does not call
  the factory. The model's value is `EmptyValue`.
- `callEvaluatedFunction` performs an ordinary `get` with the context. It
  does not restrict the lookup to a single level. The only check on the
  result is that its holder is a string holder.

## Model

| member | source | states |
|---|---|---|
| Engine.GetPreparedParameter | smartparam-engine/src/main/java/org/smartparam/engine/core/SmartParamEngine.java:201-208 | fails with UnknownParameter(name) exactly when the preparer answers null, otherwise returns the preparer's parameter |
| Engine.UnknownParameterRaises | smartparam-engine/src/main/java/org/smartparam/engine/core/SmartParamEngine.java:201-208 | for an unknown name both `get` and `callEvaluatedFunction` fail with UnknownParameter, and the context's level values are untouched |
| Engine.ValidateLevelValues | smartparam-engine/src/main/java/org/smartparam/engine/core/SmartParamEngine.java:195-199 | passes iff the vector's length equals the level count; otherwise the error carries the vector and the level count |
| Engine.EvaluateLevelValuesFrom | smartparam-engine/src/main/java/org/smartparam/engine/core/SmartParamEngine.java:147-161 | succeeds iff every level from `from` on has a creator whose call succeeds. Then it yields one value per level, value i being level i's creator result. Otherwise it fails with the error of the first failing level |
| Engine.EvaluationFailsAtFirstFailure | smartparam-engine/src/main/java/org/smartparam/engine/core/SmartParamEngine.java:149-161 | if level i is the first whose evaluation fails, the whole evaluation fails with level i's error |
| Engine.UndefinedLevelCreatorAtFirstMissing | smartparam-engine/src/main/java/org/smartparam/engine/core/SmartParamEngine.java:150-155 | if the first failing level has no creator, the evaluation fails with UndefinedLevelCreator(its index) |
| Engine.SmartParamEngine.EvaluateLevelValues | smartparam-engine/src/main/java/org/smartparam/engine/core/SmartParamEngine.java:143-168 | fills an array of inputLevelsCount values in level order. On success it stores exactly the evaluated values in the context. On the first failure it reports that level's error and leaves the context unchanged |
| Engine.EntriesComeFromOneSource | smartparam-engine/src/main/java/org/smartparam/engine/core/SmartParamEngine.java:181-193 | a cacheable parameter is answered by the index walker, whatever the preparer's lookup says. Any other parameter is answered by the preparer's lookup, whatever the walker says. A null answer is no entries; any other answer is taken unchanged |
| Engine.ExistingLevelValuesUsedAsIs | smartparam-engine/src/main/java/org/smartparam/engine/core/SmartParamEngine.java:171-173 | level values already in the context are used unchanged. The function manager and the attributes play no part, and the context keeps the values |
| Engine.EvaluatedLevelValuesAreStoredAndValid | smartparam-engine/src/main/java/org/smartparam/engine/core/SmartParamEngine.java:171-178 | a context without level values gets the evaluated ones stored. They always pass the count check, and the lookup proceeds with their normalized form. A failed evaluation leaves the context without values |
| Engine.LevelCountMismatchRaises | smartparam-engine/src/main/java/org/smartparam/engine/core/SmartParamEngine.java:170-199 | a vector of the wrong length makes `get` fail with InvalidLevelValues before any lookup. The walker, the preparer's lookup and the normalizer have no influence |
| Engine.LookupErrors | smartparam-engine/src/main/java/org/smartparam/engine/core/SmartParamEngine.java:143-199 | finding entries fails only with InvalidLevelValues, UndefinedLevelCreator or a function failure, never with "not found" |
| Engine.SmartParamEngine.FindParameterEntries | smartparam-engine/src/main/java/org/smartparam/engine/core/SmartParamEngine.java:170-179 | evaluates level values only when the context has none, then validates them, normalizes them and looks the entries up. Result and new context state are those of FindParameterEntriesSpec on the old state |
| Engine.SmartParamEngine.Get | smartparam-engine/src/main/java/org/smartparam/engine/core/SmartParamEngine.java:75-98 | result and new context state are those of GetSpec on the old state |
| Engine.NotFoundExactlyWhenNonNullableWithoutRows | smartparam-engine/src/main/java/org/smartparam/engine/core/SmartParamEngine.java:85-92 | `get` fails with ParameterValueNotFound, carrying the name and the context's attributes and level values, iff the parameter exists, is not nullable and the lookup finds no rows. A nullable parameter without rows answers the empty value |
| Engine.NullableNeverNotFound | smartparam-engine/src/main/java/org/smartparam/engine/core/SmartParamEngine.java:85-89 | a nullable parameter never fails with ParameterValueNotFound |
| Engine.SmartParamEngine.GetByLevelValues | smartparam-engine/src/main/java/org/smartparam/engine/core/SmartParamEngine.java:100-104 | positional input levels are answered as a fresh context holding exactly those level values |
| Engine.CallFunctionSpec | smartparam-engine/src/main/java/org/smartparam/engine/core/SmartParamEngine.java:106-116 | succeeds iff the function manager's invocation succeeds, with its result; otherwise carries the manager's fault |
| Engine.SmartParamEngine.CallFunction | smartparam-engine/src/main/java/org/smartparam/engine/core/SmartParamEngine.java:107-116 | returns CallFunctionSpec of its arguments |
| Engine.ClassNames | smartparam-engine/src/main/java/org/smartparam/engine/core/SmartParamEngine.java:118-124 | one name per argument, in order: "null" for a null argument, the simple class name otherwise |
| Engine.CallEvaluatedFunctionCases | smartparam-engine/src/main/java/org/smartparam/engine/core/SmartParamEngine.java:127-141 | fails like `get` when `get` fails. A holder that is not a string holder fails with InvalidFunctionToCall. A null function name answers null. Otherwise the result is the call of the named function. The context ends as `get` leaves it |
| Engine.SmartParamEngine.CallEvaluatedFunction | smartparam-engine/src/main/java/org/smartparam/engine/core/SmartParamEngine.java:127-141 | result and new context state are those of CallEvaluatedFunctionSpec on the old state |
| Engine.SmartParamEngine.constructor | smartparam-engine/src/main/java/org/smartparam/engine/core/SmartParamEngine.java:59-67 | the engine keeps the collaborators it is given |
| LevelIndexWalk.FindStartsAtRoot | smartparam-engine/src/main/java/org/smartparam/engine/index/CustomizableLevelIndexWalker.java:55-58 | `find` is the extractor, handed the walker's configuration, index and level values, applied to the inspection of the root at depth 0. With no level values the extractor gets the root alone |
| LevelIndexWalk.InspectAtExhaustedDepth | smartparam-engine/src/main/java/org/smartparam/engine/index/CustomizableLevelIndexWalker.java:61-64 | at a depth at or beyond the number of level values, inspection yields exactly the current node |
| LevelIndexWalk.InspectorChoiceAtDepth | smartparam-engine/src/main/java/org/smartparam/engine/index/CustomizableLevelIndexWalker.java:61-94 | below the value count the greedy inspector is used iff the configuration marks the depth greedy, the fast one otherwise. The inspector receives that depth's level value, effective matcher and index type |
| LevelIndexWalk.InspectReachesExactly | smartparam-engine/src/main/java/org/smartparam/engine/index/CustomizableLevelIndexWalker.java:61-66 | a node is in the result of an inspection iff it is reached through children the inspectors chose and that exist (soundness and completeness) |
| LevelIndexWalk.DescendReachesExactly | smartparam-engine/src/main/java/org/smartparam/engine/index/CustomizableLevelIndexWalker.java:61-66 | descending into a list of keys yields exactly the nodes reached from the existing children among those keys |
| LevelIndexWalk.GreedyDepthsIgnoreFastInspector | smartparam-engine/src/main/java/org/smartparam/engine/index/CustomizableLevelIndexWalker.java:76-78 | when every remaining depth is greedy, replacing the fast inspector does not change the result |
| LevelIndexWalk.GreedyDepthsIgnoreFastInspectorBelow | smartparam-engine/src/main/java/org/smartparam/engine/index/CustomizableLevelIndexWalker.java:76-78 | the same for the descent into a list of children |
| LevelIndexWalk.FastDepthsIgnoreGreedyInspector | smartparam-engine/src/main/java/org/smartparam/engine/index/CustomizableLevelIndexWalker.java:76-78 | when no remaining depth is greedy, replacing the greedy inspector does not change the result |
| LevelIndexWalk.FastDepthsIgnoreGreedyInspectorBelow | smartparam-engine/src/main/java/org/smartparam/engine/index/CustomizableLevelIndexWalker.java:76-78 | the same for the descent into a list of children |
| LevelIndexWalk.DescendAtLastDepth | smartparam-engine/src/main/java/org/smartparam/engine/index/CustomizableLevelIndexWalker.java:61-66 | at the last depth, descending yields exactly the chosen children that exist |
| LevelIndexWalk.CollectLeafValues | smartparam-engine/src/test/java/org/smartparam/engine/index/GreedyLevelNodeInspectorTest.java:41-46 | the leaf-value extractor returns a value iff some reached node stores it |
| LevelIndexWalk.GreedyTestReachedNodes | smartparam-engine/src/test/java/org/smartparam/engine/index/GreedyLevelNodeInspectorTest.java:34-46 | on the test index with input "A", when the greedy choice is the wildcard and "A", the walk reaches exactly the wildcard leaf and the "A" leaf |
| LevelIndexWalk.TwoLeafValues | smartparam-engine/src/test/java/org/smartparam/engine/index/GreedyLevelNodeInspectorTest.java:46-49 | collecting nodes that are all one of two single-value leaves, both present, gives exactly those two values |
| LevelIndexWalk.GreedyInspectionOfTestIndex | smartparam-engine/src/test/java/org/smartparam/engine/index/GreedyLevelNodeInspectorTest.java:34-49 | the index with rows "*"→"default", "A"→"value" and "C"→"noise", walked greedily with input "A", yields exactly {"value", "default"} |
| TraversalOverrides.ConstructorStoresArrays | smartparam-engine/src/main/java/org/smartparam/engine/index/IndexTraversalOverrides.java:34-60 | the four arrays are kept as given. `isGreedy`, `overridenMatcher`, `matcherCode` and `levelName` at d return element d of their own array |
| TraversalOverrides.OverrideMatcherIffPresent | smartparam-engine/src/main/java/org/smartparam/engine/index/IndexTraversalOverrides.java:46-52 | `overrideMatcher(d)` holds iff the stored override at d is non-null. The override is then that matcher, and it is null when `overrideMatcher(d)` is false |
| MergeTree.AddSucceeds | smartparam-engine/src/main/java/org/smartparam/engine/index/merge/MergeTreeNode.java:32-47 | an insertion from a depth reaches the value assignment iff every remaining level value is a key of the children map |
| MergeTree.MergeTreeNode.constructor | smartparam-engine/src/main/java/org/smartparam/engine/index/merge/MergeTreeNode.java:28-30 | a new node has no children and no value |
| MergeTree.MergeTreeNode.Add | smartparam-engine/src/main/java/org/smartparam/engine/index/merge/MergeTreeNode.java:32-47 | never changes the children. It returns AddSucceeds of the node's keys; the value becomes the entry when it returns true and is unchanged otherwise |
| MergeTree.AddOnChildlessNode | smartparam-engine/src/main/java/org/smartparam/engine/index/merge/MergeTreeNode.java:32-47 | with no children, an insertion succeeds iff the depth is at or beyond the number of levels |
| MergeTree.WildcardIsOrdinaryKey | smartparam-engine/src/main/java/org/smartparam/engine/index/merge/MergeTreeNode.java:39-44 | a level value "*" gets no special treatment: it passes iff "*" is a key |
| MergeTree.AddToNewNode | smartparam-engine/src/main/java/org/smartparam/engine/index/merge/MergeTreeNode.java:26-47 | inserting into a new node succeeds iff the depth is at or beyond the number of levels. The node then holds the entry (otherwise nothing), and its children stay empty |
| CsvEntryLoading.EntriesOf | smartparam-serializer/src/main/java/org/smartparam/serializer/entries/CsvParameterEntryBatchLoader.java:80-85 | one entry per line, in order, each entry's levels being its line |
| CsvEntryLoading.LinesOfEntriesOf | smartparam-serializer/src/main/java/org/smartparam/serializer/entries/CsvParameterEntryBatchLoader.java:80-85 | the levels of the built entries are the lines read |
| CsvEntryLoading.NextBatchStep | smartparam-serializer/src/main/java/org/smartparam/serializer/entries/CsvParameterEntryBatchLoader.java:50-78 | a closed loader delivers nothing and stays as it is. An open one delivers at most n entries: the next lines, in order, with the rest left in the reader. It is closed afterwards iff fewer than n came. It fails only when fewer than n lines are left and the reader fails reading past the end (deserialization error) or closing |
| CsvEntryLoading.CsvParameterEntryBatchLoader.NextBatch | smartparam-serializer/src/main/java/org/smartparam/serializer/entries/CsvParameterEntryBatchLoader.java:50-78 | result and new state are those of NextBatchStep; the loader becomes closed only after its reader has closed, and the reader's closed flag changes only then |
| CsvEntryLoading.CsvParameterEntryBatchLoader.constructor | smartparam-serializer/src/main/java/org/smartparam/serializer/entries/CsvParameterEntryBatchLoader.java:37-47 | a new loader is open (`hasMore`) and reads from the given reader |
| CsvEntryLoading.CsvParameterEntryBatchLoader.Close | smartparam-serializer/src/main/java/org/smartparam/serializer/entries/CsvParameterEntryBatchLoader.java:87-98 | idempotent: a closed loader returns at once. Otherwise the loader becomes closed iff its reader closes cleanly, and a close failure is a ReaderCloseError. The reader ends closed iff it was closed already or this call closed it |
| CsvEntryLoading.DrainDeliversEveryLine | smartparam-serializer/src/main/java/org/smartparam/serializer/entries/CsvParameterEntryBatchLoader.java:44-78 | calling `nextBatch` while `hasMore()` holds, on a reader that does not fail, delivers every line exactly once, in order |
| CsvEntryLoading.DrainFailsExactlyOnReaderFailure | smartparam-serializer/src/main/java/org/smartparam/serializer/entries/CsvParameterEntryBatchLoader.java:50-98 | draining an open loader fails iff its reader fails. A reading error takes precedence over a closing one |
| CsvEntrySerialization.LevelNames | smartparam-serializer/src/main/java/org/smartparam/serializer/entries/CsvParameterEntrySerializer.java:52-59 | one name per level; element i is level i's name |
| CsvEntrySerialization.ExtractHeader | smartparam-serializer/src/main/java/org/smartparam/serializer/entries/CsvParameterEntrySerializer.java:52-59 | the header built in the loop is the level names in level order |
| CsvEntrySerialization.WriteRows | smartparam-serializer/src/main/java/org/smartparam/serializer/entries/CsvParameterEntrySerializer.java:37-40 | writes the batch's entries in order until the first write error. It succeeds iff the writer can take them all, then has written exactly their levels. What it wrote is always a prefix of that, and the count is the number of rows written |
| CsvEntrySerialization.WriteNextBatch | smartparam-serializer/src/main/java/org/smartparam/serializer/entries/CsvParameterEntrySerializer.java:36-41 | one pass of the drain loop, with batches of 500. On success the rows written plus the lines still pending are unchanged as a whole. A failure comes from the reader or from a full writer, and a write failure is a SerializationFailure |
| CsvEntrySerialization.WriteAllEntries | smartparam-serializer/src/main/java/org/smartparam/serializer/entries/CsvParameterEntrySerializer.java:35-41 | drains the loader while `hasMore()`. It succeeds iff the reader cannot fail and the writer can take every pending line; then every line is written in order and the loader is closed. The rows written are always a prefix of that, and `counter` is the number of entry rows written |
| CsvEntrySerialization.Serialize | smartparam-serializer/src/main/java/org/smartparam/serializer/entries/CsvParameterEntrySerializer.java:27-50 | writes the header first, then every delivered entry in order, and always closes the writer. A writer-close failure overrides any earlier outcome. The call succeeds iff the writer was open and closes cleanly, the reader cannot fail and all rows fit. What was written is always a prefix of header + entries |

## Left out

- Logging and timing (the slf4j calls and `System.currentTimeMillis`) have no effect on behaviour and are not modelled.
- `runtimeConfiguration()` and the configuration builder are not part of this model.
- The walker's `indexDepth` is `IndexDepth`, the index's level count; it only reads a field and carries no contract of its own. `descriptorsCount` and both `descriptorFor` methods only forward to the configuration, whose level descriptors are not part of this model. Only `greedy` and `effectiveMatcher` of that configuration are modelled, as per-depth functions.
- The extractor receives a `WalkerView` (the walker's configuration, index and level values) in place of the walker object. Every query the walker answers depends on those three alone. Its inspectors are private, so an extractor cannot reach them, and the view leaves them out.
- LevelIndexWalk.CustomizableLevelIndexWalker.Inspect: the depth is a natural number. A negative Java depth, which fails with `ArrayIndexOutOfBoundsException` at `levelValues[depth]`, is not modelled. `LevelValueFor` likewise requires an in-bounds depth, where the Java would throw.
- MergeTree.MergeTreeNode.Add: the depth is a natural number. A negative Java depth, which fails with `ArrayIndexOutOfBoundsException` at `levels[currentDepth]`, is not modelled.
- The fast and greedy node inspectors and the leaf-values extractor are not part of this model. An inspector is any function from the node, level value, depth, matcher and type to the keys it enters. The model fixes neither rank nor tie-break rules.
- `CustomizableLevelIndexWalker` is an immutable value. "`find` changes nothing" therefore holds by construction and has no lemma.
- The `IndexTraversalOverrides` accessors require the depth to be in bounds. The Java array access would throw otherwise, and that exception is not modelled.
- ParamPreparer, FunctionManager, InputValueNormalizer, ParamValueFactory, the fast index walker factory and a value's holder are parameters with no behaviour of their own.
- A level creator sees the context's attributes, not the whole context object. For the same reason, `ParameterValueNotFound` carries the context's attributes and level values at the point of failure, not the context object.
- A prepared parameter is assumed well formed. It has at least `inputLevelsCount` levels, and a cacheable one has an index. The Java would throw an unchecked exception otherwise, and that case is not modelled.
- The reflective `instanceClass.newInstance()` in the batch loader is modelled as building an entry from its levels. The two instantiation errors are not modelled.
- CSV quoting, escaping, preferences and stream handling belong to the CSV library. Its reader and writer are stand-ins with optional failures, not models of that library.
- CsvEntryLoading.CsvParameterEntryBatchLoader.NextBatch: the batch size is a natural number. A negative size, for which the Java `ArrayList` constructor throws, is not modelled.
- CsvEntrySerialization.Serialize: it takes the CSV batch loader, where the Java takes any `ParameterEntryBatchLoader`.
- CsvEntrySerialization.WriteAllEntries: `counter` is unbounded. The Java `int` would wrap after 2^31 - 1 rows.
- CsvEntrySerialization.Serialize: a write to an already-closed writer is modelled as a write failure.
