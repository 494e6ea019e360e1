# Relocating Flink snapshot metadata

This project models the relocation engine of flink-state-metadata in Dafny, and
proves properties of that model. The tool rewrites a decoded Flink
checkpoint or savepoint metadata graph so that the state files it references
move from one storage directory (the *source root*) to another (the
*destination root*). The engine is `MoveImpl`.

- **The path matcher (`convertUri`).**
  - The source root itself becomes the destination root.
  - A path directly under the source root becomes the destination root joined with the path's last segment.
  - Any other path aborts the run.
- **The translator.** It walks every level of the graph and rebuilds it:
  - operator states;
  - their subtask states, keyed by subtask index;
  - the four handle collections of a subtask (managed and raw operator state, managed and raw keyed state);
  - keyed handles, both key-groups and incremental;
  - stream handles, both file and byte-stream.

  Every file path is passed through the matcher. Every other field the engine rebuilds from is copied: ids, parallelisms, sizes, offsets, keys, master states and byte-stream handles. Fields it does not pass to the new objects are not carried over (see "## Left out"). Any handle of an implementation the engine does not know aborts the run.

The model is organised as follows:

- `Paths` (paths.dfy): a path as a normalised sequence of segments, with `getParent`, `getName` and child construction.
- `Snapshot` (snapshot.dfy): the metadata graph as immutable datatypes. Each handle level has an explicit constructor for implementations the engine does not know.
- `Outcomes` (outcomes.dfy) provides the types of results:
  - `Result`, the one failure a run meets;
  - `Outcome`, the value, or the set of failures that some iteration order may meet first;
  - `Traverse`, the ordered abort-on-first-failure walk of a list;
  - `TraverseMap`, the unordered walk of a hash map.
- `Relocation` (relocation.dfy): the engine as functions. The matcher and the stream-handle translator are direct. Each loop is specified by the `Outcome` it has.
- `MoveImpl` (move_impl.dfy): the engine's loops as methods with `while` loops. Each method is proved to return the value its `Outcome` describes, or one of the failures that outcome allows.
- `Repathing` (repathing.dfy): a reference description that does not use the engine. It gives:
  - the set of file paths a graph references;
  - whether every handle in the graph is of a known implementation;
  - the graph with every file path `p` replaced by `f(p)` and nothing else changed.
- `RelocationProperties` (relocation_properties.dfy): the theorems, listed below.
- `Scenarios` (scenarios.dfy): worked examples on small graphs.

The theorems in `RelocationProperties` are:

- **Exactness.** Relocation succeeds exactly when every handle is known and every file path is the source root or directly under it. The result is then the reference rewrite of the input.
- **Paths.** The relocated graph references exactly the images of the old paths, all of them under the destination root.
- **Round trip.** Relocating back with the roots swapped gives back the original graph.
- **Failures come from leaves.** A failed run reports only the matcher's failure for one of the graph's file paths, or, when the graph holds a handle of an unknown class, an unknown-handle failure.
- **Relocating twice fails.** When neither root lies inside the other, a relocated graph that references a file cannot be relocated again with the same roots. Every failure the second run may report is a path mismatch.

## Model

| member | source | states |
|---|---|---|
| Paths.Path.Parent | src/main/java/com/michalklempa/flink/state/metadata/MoveImpl.java:158 | `getParent` exists exactly when the path has a segment, and the parent plus the last segment is the path |
| Paths.Path.Child | src/main/java/com/michalklempa/flink/state/metadata/MoveImpl.java:160 | `new Path(d, new Path(n))` has one more segment than `d` and starts with `d` |
| Paths.Path.Name | src/main/java/com/michalklempa/flink/state/metadata/MoveImpl.java:159-160 | `getName`: empty for the root; otherwise the segment that the parent lacks, so the parent plus the name is the path |
| Paths.ParentChildName | src/main/java/com/michalklempa/flink/state/metadata/MoveImpl.java:158-160 | every path other than the root is its parent's child under its own name |
| Outcomes.Traverse | src/main/java/com/michalklempa/flink/state/metadata/MoveImpl.java:85-93 | an ordered for-each loop that appends each result succeeds exactly when every element does; the results are then element-wise; otherwise the failure is that of the first failing element |
| Outcomes.TraverseFirstFailure | src/main/java/com/michalklempa/flink/state/metadata/MoveImpl.java:85-93 | when all elements before `i` succeed and element `i` fails, the loop raises exactly element `i`'s failure |
| Outcomes.TraverseSnoc | src/main/java/com/michalklempa/flink/state/metadata/MoveImpl.java:85-93 | one more successful iteration appends its result to the list built so far |
| Outcomes.TraverseMap | src/main/java/com/michalklempa/flink/state/metadata/MoveImpl.java:143-151 | a loop over a hash map's entries succeeds exactly when every value does, with the same keys and each value's result; otherwise it may raise any failing entry's failure, and only those |
| Relocation.ConvertUri | src/main/java/com/michalklempa/flink/state/metadata/MoveImpl.java:154-163 | succeeds exactly for the source root, which becomes exactly the destination root, and for paths directly under it, which become the destination root plus their last segment; any other path fails, as a mismatch, or as a missing parent for the parentless root path |
| Relocation.ConvertStreamStateHandle | src/main/java/com/michalklempa/flink/state/metadata/MoveImpl.java:95-105 | a file handle gets its path translated and keeps its size, or propagates the matcher's failure; a byte-stream handle is returned unchanged; any other class fails naming that class |
| Relocation.RelocateOperatorHandle | src/main/java/com/michalklempa/flink/state/metadata/MoveImpl.java:87-91 | succeeds exactly when the delegate translates; keeps the state-name-to-offsets map |
| Relocation.RelocateOperatorHandles | src/main/java/com/michalklempa/flink/state/metadata/MoveImpl.java:84-94 | on success, the same number of handles, in order, each the translation of the original and each keeping its offsets |
| Relocation.RelocateStreamMap | src/main/java/com/michalklempa/flink/state/metadata/MoveImpl.java:142-152 | succeeds exactly when every value translates; keeps exactly the key set |
| Relocation.RelocateKeyedHandle | src/main/java/com/michalklempa/flink/state/metadata/MoveImpl.java:110-137 | keeps the handle's kind. A key-groups handle keeps its offsets. An incremental handle keeps its backend id, key-group range, checkpoint id and the shared and private key sets. Any other class fails naming the handle's own class (the corrected line 136) |
| Relocation.RelocateKeyedHandleAsWritten | src/main/java/com/michalklempa/flink/state/metadata/MoveImpl.java:135-137 | as written: an unknown keyed handle fails naming the collection's class, `StateObjectCollection`; known handles are as in `RelocateKeyedHandle` |
| Relocation.RelocateKeyedHandles | src/main/java/com/michalklempa/flink/state/metadata/MoveImpl.java:107-140 | on success, the same number of handles, in order, each the translation of the original |
| Relocation.RelocateSubtask | src/main/java/com/michalklempa/flink/state/metadata/MoveImpl.java:63-82 | succeeds exactly when all four collections translate, each on its own; keeps each collection's length |
| Relocation.RelocateOperatorState | src/main/java/com/michalklempa/flink/state/metadata/MoveImpl.java:44-57 | keeps operator id, parallelism, max parallelism and the set of subtask indices; each index maps to the translation of its original subtask state |
| Relocation.RelocateCheckpoint | src/main/java/com/michalklempa/flink/state/metadata/MoveImpl.java:39-61 | keeps checkpoint id and master states; the same number of operator states in the same order, each the translation of the original with the same id and parallelisms |
| MoveImpl.ConvertStreamStateHandleMap | src/main/java/com/michalklempa/flink/state/metadata/MoveImpl.java:142-152 | the loop returns the translated map, or a failure the unordered specification allows |
| MoveImpl.ConvertOperatorStateHandle | src/main/java/com/michalklempa/flink/state/metadata/MoveImpl.java:84-94 | the loop returns the translated list, or the first failing handle's failure |
| MoveImpl.ConvertKeyedStateHandle | src/main/java/com/michalklempa/flink/state/metadata/MoveImpl.java:107-140 | the loop returns the translated list, or the first failing handle's failure |
| MoveImpl.ConvertSubtaskState | src/main/java/com/michalklempa/flink/state/metadata/MoveImpl.java:63-82 | returns the translated subtask state, or the failure of the first collection that fails |
| MoveImpl.ConvertSubtaskStates | src/main/java/com/michalklempa/flink/state/metadata/MoveImpl.java:51-57 | the inner loop of `convert` returns the translated subtask map, or a failure the unordered specification allows |
| MoveImpl.Convert | src/main/java/com/michalklempa/flink/state/metadata/MoveImpl.java:39-61 | returns the relocated checkpoint, or a failure the specification allows |
| RelocationProperties.ConvertUriRoundTrip | src/main/java/com/michalklempa/flink/state/metadata/MoveImpl.java:154-163 | matching a rewritten path against the swapped roots gives back the original path |
| RelocationProperties.ConvertUriInjective | src/main/java/com/michalklempa/flink/state/metadata/MoveImpl.java:154-163 | two different paths are never rewritten to the same path |
| RelocationProperties.ConvertUriRerunFails | src/main/java/com/michalklempa/flink/state/metadata/MoveImpl.java:154-163 | when neither root lies inside the other, a rewritten path no longer matches |
| RelocationProperties.AsWrittenUnknownKeyedFailureHidesClass | src/main/java/com/michalklempa/flink/state/metadata/MoveImpl.java:135-137 | as written, two unknown keyed implementations give the same failure, which does not name the handle's class |
| RelocationProperties.UnknownKeyedFailureNamesClass | src/main/java/com/michalklempa/flink/state/metadata/MoveImpl.java:135-137 | corrected, the failure names the handle's class, and two unknown implementations give the same failure exactly when their classes are equal |
| RelocationProperties.StreamRelocatesExactly | src/main/java/com/michalklempa/flink/state/metadata/MoveImpl.java:95-105 | a stream handle translates exactly when it is known and its path matches; the result is the handle with its path rewritten |
| RelocationProperties.StreamMapRelocatesExactly | src/main/java/com/michalklempa/flink/state/metadata/MoveImpl.java:142-152 | a shared or private map translates exactly when all its handles are known and all its paths match; the result is the map with every path rewritten |
| RelocationProperties.OperatorHandlesRelocateExactly | src/main/java/com/michalklempa/flink/state/metadata/MoveImpl.java:84-94 | the same for a list of operator handles |
| RelocationProperties.KeyedRelocatesExactly | src/main/java/com/michalklempa/flink/state/metadata/MoveImpl.java:110-137 | the same for one keyed handle (an unknown one never translates) |
| RelocationProperties.KeyedHandlesRelocateExactly | src/main/java/com/michalklempa/flink/state/metadata/MoveImpl.java:107-140 | the same for a list of keyed handles |
| RelocationProperties.SubtaskRelocatesExactly | src/main/java/com/michalklempa/flink/state/metadata/MoveImpl.java:63-82 | the same for a subtask state |
| RelocationProperties.OperatorStateRelocatesExactly | src/main/java/com/michalklempa/flink/state/metadata/MoveImpl.java:44-57 | the same for an operator state |
| RelocationProperties.CheckpointRelocatesExactly | src/main/java/com/michalklempa/flink/state/metadata/MoveImpl.java:39-61 | the whole run succeeds exactly when every handle is known and every file path matches; a single bad handle or path anywhere means no graph at all; on success, the result is the input with every file path rewritten and nothing else changed |
| RelocationProperties.StreamFailsAtLeaf | src/main/java/com/michalklempa/flink/state/metadata/MoveImpl.java:95-105 | a failing stream handle reports the matcher's failure for its own path, or, if its class is unknown, an unknown-handle failure |
| RelocationProperties.StreamMapFailsAtLeaf | src/main/java/com/michalklempa/flink/state/metadata/MoveImpl.java:142-152 | every failure a map translation may report is a leaf failure of the map: the matcher's failure for one of its paths, or an unknown-handle failure when it holds an unknown handle |
| RelocationProperties.OperatorHandlesFailAtLeaf | src/main/java/com/michalklempa/flink/state/metadata/MoveImpl.java:84-94 | the same for a list of operator handles |
| RelocationProperties.KeyedFailsAtLeaf | src/main/java/com/michalklempa/flink/state/metadata/MoveImpl.java:110-137 | the same for one keyed handle |
| RelocationProperties.KeyedHandlesFailAtLeaf | src/main/java/com/michalklempa/flink/state/metadata/MoveImpl.java:107-140 | the same for a list of keyed handles |
| RelocationProperties.SubtaskFailsAtLeaf | src/main/java/com/michalklempa/flink/state/metadata/MoveImpl.java:63-82 | the same for a subtask state: the failure of whichever collection failed propagates |
| RelocationProperties.OperatorStateFailsAtLeaf | src/main/java/com/michalklempa/flink/state/metadata/MoveImpl.java:44-57 | the same for an operator state |
| RelocationProperties.CheckpointFailureIsLeafFailure | src/main/java/com/michalklempa/flink/state/metadata/MoveImpl.java:39-61 | a failed run reports only the matcher's failure for one of the checkpoint's file paths, or, when the checkpoint holds a handle of an unknown class, an unknown-handle failure: a leaf failure propagates unchanged through every level |
| RelocationProperties.RepathStreamPaths | src/main/java/com/michalklempa/flink/state/metadata/MoveImpl.java:95-105 | rewriting a stream handle maps its file path and keeps its kind |
| RelocationProperties.RepathStreamMapPaths | src/main/java/com/michalklempa/flink/state/metadata/MoveImpl.java:142-152 | rewriting a map gives exactly the images of its paths and keeps which handles are known |
| RelocationProperties.RepathOperatorHandlesPaths | src/main/java/com/michalklempa/flink/state/metadata/MoveImpl.java:84-94 | the same for a list of operator handles |
| RelocationProperties.RepathKeyedPaths | src/main/java/com/michalklempa/flink/state/metadata/MoveImpl.java:110-137 | the same for one keyed handle |
| RelocationProperties.RepathKeyedHandlesPaths | src/main/java/com/michalklempa/flink/state/metadata/MoveImpl.java:107-140 | the same for a list of keyed handles |
| RelocationProperties.RepathSubtaskPaths | src/main/java/com/michalklempa/flink/state/metadata/MoveImpl.java:63-82 | the same for a subtask state |
| RelocationProperties.RepathOperatorStatePathsImage | src/main/java/com/michalklempa/flink/state/metadata/MoveImpl.java:44-57 | every path of a rewritten operator state is the image of an original path |
| RelocationProperties.RepathOperatorStatePathsPreimage | src/main/java/com/michalklempa/flink/state/metadata/MoveImpl.java:44-57 | the image of every original path of an operator state is a path of the rewritten state |
| RelocationProperties.RepathOperatorStatePaths | src/main/java/com/michalklempa/flink/state/metadata/MoveImpl.java:44-57 | rewriting an operator state gives exactly the images of its paths and keeps which handles are known |
| RelocationProperties.RepathCheckpointPaths | src/main/java/com/michalklempa/flink/state/metadata/MoveImpl.java:39-61 | the same for a whole checkpoint |
| RelocationProperties.RepathStreamUndo | src/main/java/com/michalklempa/flink/state/metadata/MoveImpl.java:95-105 | a second rewrite that undoes the first on the handle's path gives back the handle |
| RelocationProperties.RepathStreamMapUndo | src/main/java/com/michalklempa/flink/state/metadata/MoveImpl.java:142-152 | the same for a shared or private map |
| RelocationProperties.RepathOperatorHandlesUndo | src/main/java/com/michalklempa/flink/state/metadata/MoveImpl.java:84-94 | the same for a list of operator handles |
| RelocationProperties.RepathKeyedUndo | src/main/java/com/michalklempa/flink/state/metadata/MoveImpl.java:110-137 | the same for one keyed handle |
| RelocationProperties.RepathKeyedHandlesUndo | src/main/java/com/michalklempa/flink/state/metadata/MoveImpl.java:107-140 | the same for a list of keyed handles |
| RelocationProperties.RepathSubtaskUndo | src/main/java/com/michalklempa/flink/state/metadata/MoveImpl.java:63-82 | the same for a subtask state |
| RelocationProperties.RepathOperatorStateUndo | src/main/java/com/michalklempa/flink/state/metadata/MoveImpl.java:44-57 | the same for an operator state |
| RelocationProperties.RepathCheckpointUndo | src/main/java/com/michalklempa/flink/state/metadata/MoveImpl.java:39-61 | the same for a whole checkpoint |
| RelocationProperties.RelocatedFilePaths | src/main/java/com/michalklempa/flink/state/metadata/MoveImpl.java:39-163 | a relocated checkpoint references exactly the rewritten paths of the original, all of them under the destination root |
| RelocationProperties.RelocationRoundTrip | src/main/java/com/michalklempa/flink/state/metadata/MoveImpl.java:39-163 | relocating the result back with the roots swapped succeeds and gives back the original checkpoint |
| RelocationProperties.RelocatingTwiceFails | src/main/java/com/michalklempa/flink/state/metadata/MoveImpl.java:39-163 | when neither root lies inside the other, relocating a checkpoint that references a file a second time with the same roots fails, and every failure it may report is a path mismatch |
| Scenarios.ChildOfRootMoves | src/main/java/com/michalklempa/flink/state/metadata/MoveImpl.java:158-160 | a file `root/n` moves to `dst/n` with the same size |
| Scenarios.IncrementalHandleMoves | src/main/java/com/michalklempa/flink/state/metadata/MoveImpl.java:117-132 | an incremental handle with meta `root/meta`, shared `root/b2` and private `root/other` moves its files to `dst/meta`, `dst/b2` and `dst/other`, and keeps its backend, range, checkpoint id, keys and sizes |
| Scenarios.SubtaskMoves | src/main/java/com/michalklempa/flink/state/metadata/MoveImpl.java:63-82 | a subtask state holding that handle as managed keyed state moves it and keeps the empty collections |
| Scenarios.OperatorMoves | src/main/java/com/michalklempa/flink/state/metadata/MoveImpl.java:44-57 | an operator state of parallelism 4 holding that subtask state at index 0 moves it and keeps its id and parallelisms |
| Scenarios.SnapshotWithIncrementalHandleMoves | src/main/java/com/michalklempa/flink/state/metadata/MoveImpl.java:39-61 | a checkpoint holding that operator state moves it and keeps its checkpoint id |
| Scenarios.FileElsewhereFails | src/main/java/com/michalklempa/flink/state/metadata/MoveImpl.java:162 | a file at `elsewhere/file` fails as a mismatch against `root` |
| Scenarios.RootItselfMoves | src/main/java/com/michalklempa/flink/state/metadata/MoveImpl.java:155-157 | a file at exactly `root` moves to exactly `dst`, with no segment appended |
| Scenarios.GrandchildFails | src/main/java/com/michalklempa/flink/state/metadata/MoveImpl.java:158-162 | a file two levels below the source root fails as a mismatch |
| Scenarios.EmptyPathFails | src/main/java/com/michalklempa/flink/state/metadata/MoveImpl.java:158 | the parentless root path fails as a missing parent |

### A root path with no parent

MoveImpl.java:158 compares `getParent()` with the source root. For a path
with no segments, `getParent()` returns null, so the call to `equals`
throws a NullPointerException. The "Unknown path" error of line 162 is never
reached for that path. The model reports `MissingParent` for it and
`PathMismatch` for every other path that does not match. In both cases the
run aborts and no graph is produced.

## Left out

- Logging (`LOG.debug`, `LOG.info`): it has no effect on the result.
- The parts of the tool around the engine are not part of this model:
  - command-line parsing and log set-up in Main.java;
  - reading and decoding metadata files in Load.java, which uses a library codec not shown here;
  - the wrapper in Move.java, which only constructs the engine and calls `convert`;
  - writing the result back.
- Parsing and normalisation of Flink paths: scheme, authority, trailing slashes and relative paths, whose parent is `.`. A path is an already-normalised sequence of segments under an absolute root.
- Failure messages: a failure records its kind and the offending path or class name, not the message text. The mismatch message names the source root as the user typed it, and the model records the parsed root.
- Hash-map iteration order: the model does not fix an order. A failing run over a map may report the failure of any failing entry, and the specification is the set of those failures.
- Object identity and aliasing: all values are immutable. For example, a byte-stream handle or a master state is shared, not copied. That sharing is invisible here.
- Subclass dispatch of `instanceof` on library classes that are not shown. For instance, a subclass of the file handle class would be translated as a plain file handle and lose its own class. Each handle level has a closed set of kinds plus one `Other` kind for every implementation the engine does not know.
- Operator-state handles: the engine never inspects their class. It always builds an `OperatorStreamStateHandle` from the offsets and the translated delegate, so the model has only that kind.
- Content of an operator state other than its id, parallelism, maximum parallelism and subtask states: MoveImpl.java:46 builds each new operator state from those three values only, and the library class (which may hold more, such as operator-coordinator state) is not part of this model. The model's operator state has no other field, so it cannot show that such content is dropped.
- Fields of a subtask state other than the four handle collections: the engine's constructor call does not pass them on, and the library class that holds them is not part of this model.
- Library checks inside `OperatorState.putState` (the subtask index bound): the library class is not part of this model. Every index is accepted.
- RelocateKeyedHandles (Relocation.RelocateKeyedHandles): reports a keyed handle of an unknown class under the handle's own class, the corrected behaviour of the finding below. MoveImpl.java:136 reports the class of the collection instead. `RelocateSubtask`, `RelocateOperatorState` and `RelocateCheckpoint` inherit this. The as-written behaviour is `Relocation.RelocateKeyedHandleAsWritten`.
- ConvertKeyedStateHandle (MoveImpl.ConvertKeyedStateHandle): returns `Err(UnknownKeyedHandle(c))` with the handle's own class `c` for a keyed handle of an unknown class, as the corrected specification does. MoveImpl.java:136 names the collection's class. `ConvertSubtaskState`, `ConvertSubtaskStates` and `Convert` inherit this.
- MoveImpl.Convert:
  - It does not model that the source appends each new operator state to the output list first and then fills it in place. The method builds the subtask map first and appends the finished operator state. With immutable values the two give the same result.
  - The inner loop is the separate method `MoveImpl.ConvertSubtaskStates`.
- Integer widths: ids, sizes, parallelisms and offsets are unbounded integers. The engine only copies them, so no arithmetic can wrap.

## Findings

| source | as written | input that shows it | evidently intended | confidence | as-written member | corrected member |
|---|---|---|---|---|---|---|
| src/main/java/com/michalklempa/flink/state/metadata/MoveImpl.java:136 | the failure for a keyed handle of an unknown implementation names `_keyedStateHandles.getClass()`, the class of the collection being translated | any keyed handle other than key-groups or incremental, e.g. a `DirectoryKeyedStateHandle`, reported as class `StateObjectCollection`; two different unknown classes give the same message | name the class of the handle, as the stream-handle failure at line 105 does | not executed | RelocationProperties.AsWrittenUnknownKeyedFailureHidesClass | RelocationProperties.UnknownKeyedFailureNamesClass |
