/** The relocation engine as a function of the snapshot graph and the two
    roots: the path matcher (`ConvertUri`), the stream-handle translator
    (`ConvertStreamStateHandle`) and, for each level of the graph, the
    outcome that translating it has (`Relocate...`). The loops that compute
    these outcomes step by step are in module MoveImpl. */
module Relocation {
  import opened Outcomes
  import opened Paths
  import opened Snapshot

  /** The engine's two configured roots. */
  datatype Roots = Roots(sourcePath: Path, destinationPath: Path) {
    /** The roots of the move back from the destination to the source. */
    function Swapped(): Roots {
      Roots(destinationPath, sourcePath)
    }
  }

  /** Why a run aborts. */
  datatype Failure =
      /** A path that is neither the source root nor directly under it. */
    | PathMismatch(path: Path, source: Path)
      /** A path without a parent (the root) other than the source root: the
          library's `getParent` returns null and the comparison with the
          source root throws a NullPointerException. */
    | MissingParent(path: Path)
      /** A stream handle of a class the engine does not know. */
    | UnknownStreamHandle(className: string)
      /** A keyed handle of a class the engine does not know. */
    | UnknownKeyedHandle(className: string)

  /** `convertUri`: the source root itself becomes the destination root, a
      path directly under the source root moves directly under the
      destination root with the same name, and any other path aborts. */
  function ConvertUri(roots: Roots, p: Path): (r: Result<Path, Failure>)
    ensures r.Ok? <==> p == roots.sourcePath || IsChildOf(p, roots.sourcePath)
    ensures p == roots.sourcePath ==> r == Ok(roots.destinationPath)
    ensures IsChildOf(p, roots.sourcePath) ==>
      r == Ok(Path(roots.destinationPath.segments + [p.segments[|p.segments| - 1]]))
    ensures r.Err? ==>
      r.error == if p.segments == [] then MissingParent(p) else PathMismatch(p, roots.sourcePath)
  {
    if p == roots.sourcePath then
      Ok(roots.destinationPath)
    else
      match p.Parent()
      case None => Err(MissingParent(p))
      case Some(parent) =>
        if parent == roots.sourcePath then Ok(roots.destinationPath.Child(p.Name()))
        else Err(PathMismatch(p, roots.sourcePath))
  }

  /** `convertStreamStateHandle`: a file handle gets its path rewritten and
      keeps its size, a byte-stream handle is returned as it is, and any
      other implementation aborts. */
  function ConvertStreamStateHandle(roots: Roots, h: StreamStateHandle): (r: Result<StreamStateHandle, Failure>)
    ensures h.FileStateHandle? ==>
      match ConvertUri(roots, h.filePath)
      case Ok(q) => r == Ok(FileStateHandle(q, h.stateSize))
      case Err(e) => r == Err(e)
    ensures h.ByteStreamStateHandle? ==> r == Ok(h)
    ensures h.OtherStreamStateHandle? ==> r == Err(UnknownStreamHandle(h.className))
  {
    match h
    case FileStateHandle(path, size) =>
      (match ConvertUri(roots, path)
       case Ok(q) => Ok(FileStateHandle(q, size))
       case Err(e) => Err(e))
    case ByteStreamStateHandle(_, _) => Ok(h)
    case OtherStreamStateHandle(name) => Err(UnknownStreamHandle(name))
  }

  /** The loop body of `convertOperatorStateHandle`: the offsets are kept
      and only the delegate stream is translated. */
  function RelocateOperatorHandle(roots: Roots, h: OperatorStateHandle): (o: Outcome<OperatorStateHandle, Failure>)
    ensures o.Done? <==> ConvertStreamStateHandle(roots, h.delegateStateHandle).Ok?
    ensures o.Done? ==> o.value.stateNameToPartitionOffsets == h.stateNameToPartitionOffsets
  {
    match ConvertStreamStateHandle(roots, h.delegateStateHandle)
    case Ok(d) => Done(OperatorStreamStateHandle(h.stateNameToPartitionOffsets, d))
    case Err(e) => Raised({e})
  }

  function OperatorHandleStep(roots: Roots): OperatorStateHandle -> Outcome<OperatorStateHandle, Failure> {
    h => RelocateOperatorHandle(roots, h)
  }

  /** `convertOperatorStateHandle`: the handles in order, or the failure of
      the first one that fails. */
  function RelocateOperatorHandles(roots: Roots, hs: seq<OperatorStateHandle>): (o: Outcome<seq<OperatorStateHandle>, Failure>)
    ensures o.Done? ==>
      |o.value| == |hs| &&
      forall i | 0 <= i < |hs| :: o.value[i].stateNameToPartitionOffsets == hs[i].stateNameToPartitionOffsets
    ensures o.Done? ==> forall i | 0 <= i < |hs| :: RelocateOperatorHandle(roots, hs[i]) == Done(o.value[i])
  {
    Traverse(OperatorHandleStep(roots), hs)
  }

  function StreamStep(roots: Roots): StreamStateHandle -> Outcome<StreamStateHandle, Failure> {
    h => FromResult(ConvertStreamStateHandle(roots, h))
  }

  /** `convertStreamStateHandleMap`: the same keys, each value translated. */
  function RelocateStreamMap(roots: Roots, m: map<StateHandleId, StreamStateHandle>): (o: Outcome<map<StateHandleId, StreamStateHandle>, Failure>)
    ensures o.Done? <==> forall k | k in m :: ConvertStreamStateHandle(roots, m[k]).Ok?
    ensures o.Done? ==> o.value.Keys == m.Keys
  {
    TraverseMap(StreamStep(roots), m)
  }

  /** The loop body of `convertKeyedStateHandle`: a key-groups handle keeps
      its offsets and gets its delegate translated; an incremental handle
      keeps its backend, key-group range and checkpoint id and gets its meta
      stream, then its shared state, then its private state translated; any
      other implementation aborts. */
  function RelocateKeyedHandle(roots: Roots, h: KeyedStateHandle): (o: Outcome<KeyedStateHandle, Failure>)
    ensures o.Done? ==> o.value.KeyGroupsStateHandle? == h.KeyGroupsStateHandle?
    ensures o.Done? ==> o.value.IncrementalRemoteKeyedStateHandle? == h.IncrementalRemoteKeyedStateHandle?
    ensures o.Done? && h.KeyGroupsStateHandle? ==> o.value.groupRangeOffsets == h.groupRangeOffsets
    ensures o.Done? && h.IncrementalRemoteKeyedStateHandle? ==>
      && o.value.backendIdentifier == h.backendIdentifier
      && o.value.keyGroupRange == h.keyGroupRange
      && o.value.checkpointId == h.checkpointId
      && o.value.sharedState.Keys == h.sharedState.Keys
      && o.value.privateState.Keys == h.privateState.Keys
    ensures h.OtherKeyedStateHandle? ==> o == Raised({UnknownKeyedHandle(h.className)})
  {
    match h
    case KeyGroupsStateHandle(offsets, delegate) =>
      (match ConvertStreamStateHandle(roots, delegate)
       case Ok(d) => Done(KeyGroupsStateHandle(offsets, d))
       case Err(e) => Raised({e}))
    case IncrementalRemoteKeyedStateHandle(backend, range, checkpointId, shared, private, meta) =>
      (match ConvertStreamStateHandle(roots, meta)
       case Err(e) => Raised({e})
       case Ok(m) =>
         match RelocateStreamMap(roots, shared)
         case Raised(es) => Raised(es)
         case Done(s) =>
           match RelocateStreamMap(roots, private)
           case Raised(es) => Raised(es)
           case Done(p) => Done(IncrementalRemoteKeyedStateHandle(backend, range, checkpointId, s, p, m)))
    case OtherKeyedStateHandle(name) => Raised({UnknownKeyedHandle(name)})
  }

  function KeyedHandleStep(roots: Roots): KeyedStateHandle -> Outcome<KeyedStateHandle, Failure> {
    h => RelocateKeyedHandle(roots, h)
  }

  /** The class the source names when it meets a keyed handle of an unknown
      implementation: that of the collection being translated. */
  const KeyedCollectionClass := "org.apache.flink.runtime.checkpoint.StateObjectCollection"

  /** The loop body of `convertKeyedStateHandle` as written: a handle of an
      unknown implementation is reported under the class of the collection
      it came from rather than its own. The rest of the model uses
      `RelocateKeyedHandle`, which reports the handle's own class. */
  function RelocateKeyedHandleAsWritten(roots: Roots, h: KeyedStateHandle): (o: Outcome<KeyedStateHandle, Failure>)
    ensures h.OtherKeyedStateHandle? ==> o == Raised({UnknownKeyedHandle(KeyedCollectionClass)})
    ensures !h.OtherKeyedStateHandle? ==> o == RelocateKeyedHandle(roots, h)
  {
    if h.OtherKeyedStateHandle? then Raised({UnknownKeyedHandle(KeyedCollectionClass)}) else RelocateKeyedHandle(roots, h)
  }

  /** `convertKeyedStateHandle`: the handles in order, or the failure of the
      first one that fails (for an unknown class, the corrected failure of
      `RelocateKeyedHandle`). */
  function RelocateKeyedHandles(roots: Roots, hs: seq<KeyedStateHandle>): (o: Outcome<seq<KeyedStateHandle>, Failure>)
    ensures o.Done? ==> |o.value| == |hs|
    ensures o.Done? ==> forall i | 0 <= i < |hs| :: RelocateKeyedHandle(roots, hs[i]) == Done(o.value[i])
  {
    Traverse(KeyedHandleStep(roots), hs)
  }

  /** `convertSubtaskState`: the four collections, each translated on its
      own, in the order managed operator, raw operator, managed keyed, raw
      keyed; the first that fails aborts. */
  function RelocateSubtask(roots: Roots, s: OperatorSubtaskState): (o: Outcome<OperatorSubtaskState, Failure>)
    ensures o.Done? <==>
      && RelocateOperatorHandles(roots, s.managedOperatorState).Done?
      && RelocateOperatorHandles(roots, s.rawOperatorState).Done?
      && RelocateKeyedHandles(roots, s.managedKeyedState).Done?
      && RelocateKeyedHandles(roots, s.rawKeyedState).Done?
    ensures o.Done? ==>
      && |o.value.managedOperatorState| == |s.managedOperatorState|
      && |o.value.rawOperatorState| == |s.rawOperatorState|
      && |o.value.managedKeyedState| == |s.managedKeyedState|
      && |o.value.rawKeyedState| == |s.rawKeyedState|
  {
    match RelocateOperatorHandles(roots, s.managedOperatorState)
    case Raised(es) => Raised(es)
    case Done(managedOperator) =>
      match RelocateOperatorHandles(roots, s.rawOperatorState)
      case Raised(es) => Raised(es)
      case Done(rawOperator) =>
        match RelocateKeyedHandles(roots, s.managedKeyedState)
        case Raised(es) => Raised(es)
        case Done(managedKeyed) =>
          match RelocateKeyedHandles(roots, s.rawKeyedState)
          case Raised(es) => Raised(es)
          case Done(rawKeyed) => Done(OperatorSubtaskState(managedOperator, rawOperator, managedKeyed, rawKeyed))
  }

  function SubtaskStep(roots: Roots): OperatorSubtaskState -> Outcome<OperatorSubtaskState, Failure> {
    s => RelocateSubtask(roots, s)
  }

  /** One iteration of the outer loop of `convert`: a new operator state with
      the same id, parallelism and maximum parallelism, holding under each
      subtask index the translation of the original subtask state. */
  function RelocateOperatorState(roots: Roots, op: OperatorState): (o: Outcome<OperatorState, Failure>)
    ensures o.Done? ==>
      && o.value.operatorId == op.operatorId
      && o.value.parallelism == op.parallelism
      && o.value.maxParallelism == op.maxParallelism
      && o.value.subtaskStates.Keys == op.subtaskStates.Keys
    ensures o.Done? ==>
      forall k | k in op.subtaskStates :: RelocateSubtask(roots, op.subtaskStates[k]) == Done(o.value.subtaskStates[k])
  {
    match TraverseMap(SubtaskStep(roots), op.subtaskStates)
    case Raised(es) => Raised(es)
    case Done(subtasks) => Done(OperatorState(op.operatorId, op.parallelism, op.maxParallelism, subtasks))
  }

  function OperatorStateStep(roots: Roots): OperatorState -> Outcome<OperatorState, Failure> {
    op => RelocateOperatorState(roots, op)
  }

  /** `convert`: the same checkpoint id and master states, and the operator
      states in the same order, each translated; nothing if any fails. */
  function RelocateCheckpoint(roots: Roots, cp: CheckpointMetadata): (o: Outcome<CheckpointMetadata, Failure>)
    ensures o.Done? ==>
      && o.value.checkpointId == cp.checkpointId
      && o.value.masterStates == cp.masterStates
      && |o.value.operatorStates| == |cp.operatorStates|
    ensures o.Done? ==>
      forall i | 0 <= i < |cp.operatorStates| ::
        && o.value.operatorStates[i].operatorId == cp.operatorStates[i].operatorId
        && o.value.operatorStates[i].parallelism == cp.operatorStates[i].parallelism
        && o.value.operatorStates[i].maxParallelism == cp.operatorStates[i].maxParallelism
        && o.value.operatorStates[i].subtaskStates.Keys == cp.operatorStates[i].subtaskStates.Keys
    ensures o.Done? ==>
      forall i | 0 <= i < |cp.operatorStates| :: RelocateOperatorState(roots, cp.operatorStates[i]) == Done(o.value.operatorStates[i])
  {
    match Traverse(OperatorStateStep(roots), cp.operatorStates)
    case Raised(es) => Raised(es)
    case Done(operatorStates) => Done(CheckpointMetadata(cp.checkpointId, operatorStates, cp.masterStates))
  }
}
