/** What relocating a snapshot should produce, described without the engine:
    the file paths each part of the graph references (`...Paths`), whether
    every handle in it is of a class the engine knows (`...Known`), and the
    same graph with every file path `p` replaced by `f(p)` and nothing else
    changed (`Repath...`). */
module Repathing {
  import opened Paths
  import opened Snapshot

  // Stream handles: the only leaves that hold a path.

  function RepathStream(f: Path -> Path, h: StreamStateHandle): StreamStateHandle {
    match h
    case FileStateHandle(p, size) => FileStateHandle(f(p), size)
    case _ => h
  }

  ghost function StreamPaths(h: StreamStateHandle): set<Path> {
    if h.FileStateHandle? then {h.filePath} else {}
  }

  ghost predicate StreamKnown(h: StreamStateHandle) {
    !h.OtherStreamStateHandle?
  }

  // The shared and private state of an incremental handle.

  function RepathStreamMap(f: Path -> Path, m: map<StateHandleId, StreamStateHandle>): map<StateHandleId, StreamStateHandle> {
    map k | k in m :: RepathStream(f, m[k])
  }

  ghost function StreamMapPaths(m: map<StateHandleId, StreamStateHandle>): set<Path> {
    set k, p | k in m && p in StreamPaths(m[k]) :: p
  }

  ghost predicate StreamMapKnown(m: map<StateHandleId, StreamStateHandle>) {
    forall k | k in m :: StreamKnown(m[k])
  }

  // Operator state handles.

  function RepathOperatorHandle(f: Path -> Path, h: OperatorStateHandle): OperatorStateHandle {
    OperatorStreamStateHandle(h.stateNameToPartitionOffsets, RepathStream(f, h.delegateStateHandle))
  }

  function RepathOperatorHandles(f: Path -> Path, hs: seq<OperatorStateHandle>): seq<OperatorStateHandle> {
    seq(|hs|, i requires 0 <= i < |hs| => RepathOperatorHandle(f, hs[i]))
  }

  ghost function OperatorHandlesPaths(hs: seq<OperatorStateHandle>): set<Path> {
    set i, p | 0 <= i < |hs| && p in StreamPaths(hs[i].delegateStateHandle) :: p
  }

  ghost predicate OperatorHandlesKnown(hs: seq<OperatorStateHandle>) {
    forall i | 0 <= i < |hs| :: StreamKnown(hs[i].delegateStateHandle)
  }

  // Keyed state handles.

  function RepathKeyed(f: Path -> Path, h: KeyedStateHandle): KeyedStateHandle {
    match h
    case KeyGroupsStateHandle(offsets, delegate) => KeyGroupsStateHandle(offsets, RepathStream(f, delegate))
    case IncrementalRemoteKeyedStateHandle(backend, range, checkpointId, shared, private, meta) =>
      IncrementalRemoteKeyedStateHandle(
        backend, range, checkpointId, RepathStreamMap(f, shared), RepathStreamMap(f, private), RepathStream(f, meta))
    case OtherKeyedStateHandle(_) => h
  }

  ghost function KeyedPaths(h: KeyedStateHandle): set<Path> {
    match h
    case KeyGroupsStateHandle(_, delegate) => StreamPaths(delegate)
    case IncrementalRemoteKeyedStateHandle(_, _, _, shared, private, meta) =>
      StreamPaths(meta) + StreamMapPaths(shared) + StreamMapPaths(private)
    case OtherKeyedStateHandle(_) => {}
  }

  ghost predicate KeyedKnown(h: KeyedStateHandle) {
    match h
    case KeyGroupsStateHandle(_, delegate) => StreamKnown(delegate)
    case IncrementalRemoteKeyedStateHandle(_, _, _, shared, private, meta) =>
      StreamKnown(meta) && StreamMapKnown(shared) && StreamMapKnown(private)
    case OtherKeyedStateHandle(_) => false
  }

  function RepathKeyedHandles(f: Path -> Path, hs: seq<KeyedStateHandle>): seq<KeyedStateHandle> {
    seq(|hs|, i requires 0 <= i < |hs| => RepathKeyed(f, hs[i]))
  }

  ghost function KeyedHandlesPaths(hs: seq<KeyedStateHandle>): set<Path> {
    set i, p | 0 <= i < |hs| && p in KeyedPaths(hs[i]) :: p
  }

  ghost predicate KeyedHandlesKnown(hs: seq<KeyedStateHandle>) {
    forall i | 0 <= i < |hs| :: KeyedKnown(hs[i])
  }

  // Subtask states.

  function RepathSubtask(f: Path -> Path, s: OperatorSubtaskState): OperatorSubtaskState {
    OperatorSubtaskState(
      RepathOperatorHandles(f, s.managedOperatorState),
      RepathOperatorHandles(f, s.rawOperatorState),
      RepathKeyedHandles(f, s.managedKeyedState),
      RepathKeyedHandles(f, s.rawKeyedState))
  }

  ghost function SubtaskPaths(s: OperatorSubtaskState): set<Path> {
    OperatorHandlesPaths(s.managedOperatorState) + OperatorHandlesPaths(s.rawOperatorState)
    + KeyedHandlesPaths(s.managedKeyedState) + KeyedHandlesPaths(s.rawKeyedState)
  }

  ghost predicate SubtaskKnown(s: OperatorSubtaskState) {
    && OperatorHandlesKnown(s.managedOperatorState) && OperatorHandlesKnown(s.rawOperatorState)
    && KeyedHandlesKnown(s.managedKeyedState) && KeyedHandlesKnown(s.rawKeyedState)
  }

  // Operator states.

  function RepathOperatorState(f: Path -> Path, op: OperatorState): OperatorState {
    op.(subtaskStates := map k | k in op.subtaskStates :: RepathSubtask(f, op.subtaskStates[k]))
  }

  ghost function OperatorStatePaths(op: OperatorState): set<Path> {
    set k, p | k in op.subtaskStates && p in SubtaskPaths(op.subtaskStates[k]) :: p
  }

  ghost predicate OperatorStateKnown(op: OperatorState) {
    forall k | k in op.subtaskStates :: SubtaskKnown(op.subtaskStates[k])
  }

  // The whole checkpoint.

  function RepathCheckpoint(f: Path -> Path, cp: CheckpointMetadata): CheckpointMetadata {
    cp.(operatorStates := seq(|cp.operatorStates|, i requires 0 <= i < |cp.operatorStates| =>
                              RepathOperatorState(f, cp.operatorStates[i])))
  }

  ghost function CheckpointPaths(cp: CheckpointMetadata): set<Path> {
    set i, p | 0 <= i < |cp.operatorStates| && p in OperatorStatePaths(cp.operatorStates[i]) :: p
  }

  ghost predicate CheckpointKnown(cp: CheckpointMetadata) {
    forall i | 0 <= i < |cp.operatorStates| :: OperatorStateKnown(cp.operatorStates[i])
  }

  /** The paths `f` maps the paths of `ps` to. */
  ghost function Image(f: Path -> Path, ps: set<Path>): set<Path> {
    set p | p in ps :: f(p)
  }
}
