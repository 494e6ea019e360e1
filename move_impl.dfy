/** The relocation engine's loops: for-each loops that build the output
    lists and maps one element at a time and abort on the first failure.
    Each method is proved to realise the corresponding outcome of module
    Relocation: it returns the value that outcome describes, or one of the
    failures it allows. A keyed handle of an unknown class is reported under
    its own class, as the corrected `Relocation.RelocateKeyedHandle` does,
    not under the class of its collection as the source does. */
module MoveImpl {
  import opened Outcomes
  import opened Snapshot
  import opened Relocation

  /** `convertStreamStateHandleMap`: puts the translation of every entry into
      a new map under the same key, visiting the entries in any order. */
  method ConvertStreamStateHandleMap(roots: Roots, m: map<StateHandleId, StreamStateHandle>)
    returns (r: Result<map<StateHandleId, StreamStateHandle>, Failure>)
    ensures Realizes(r, RelocateStreamMap(roots, m))
  {
    var converted: map<StateHandleId, StreamStateHandle> := map[];
    var remaining := m.Keys;
    while remaining != {}
      invariant remaining <= m.Keys
      invariant converted.Keys == m.Keys - remaining
      invariant forall k | k in converted :: ConvertStreamStateHandle(roots, m[k]) == Ok(converted[k])
      decreases remaining
    {
      var key :| key in remaining;
      var handle := ConvertStreamStateHandle(roots, m[key]);
      if handle.Err? {
        assert StreamStep(roots)(m[key]) == Raised({handle.error});
        return Err(handle.error);
      }
      converted := converted[key := handle.value];
      remaining := remaining - {key};
    }
    assert forall k | k in m :: StreamStep(roots)(m[k]) == Done(converted[k]);
    assert RelocateStreamMap(roots, m).value == converted;
    r := Ok(converted);
  }

  /** `convertOperatorStateHandle`: appends, for each handle in order, a new
      handle with the same offsets and the translated delegate. */
  method ConvertOperatorStateHandle(roots: Roots, hs: seq<OperatorStateHandle>)
    returns (r: Result<seq<OperatorStateHandle>, Failure>)
    ensures Realizes(r, RelocateOperatorHandles(roots, hs))
  {
    var converted: seq<OperatorStateHandle> := [];
    var i := 0;
    while i < |hs|
      invariant 0 <= i <= |hs|
      invariant Traverse(OperatorHandleStep(roots), hs[..i]) == Done(converted)
    {
      var h := hs[i];
      var delegate := ConvertStreamStateHandle(roots, h.delegateStateHandle);
      if delegate.Err? {
        TraverseFirstFailure(OperatorHandleStep(roots), hs, i);
        return Err(delegate.error);
      }
      var handle := OperatorStreamStateHandle(h.stateNameToPartitionOffsets, delegate.value);
      TraverseSnoc(OperatorHandleStep(roots), hs, i, converted, handle);
      converted := converted + [handle];
      i := i + 1;
    }
    assert hs[..i] == hs;
    r := Ok(converted);
  }

  /** `convertKeyedStateHandle`: appends, for each handle in order, its
      translation; a handle of an unknown class aborts, reported under its
      own class. */
  method ConvertKeyedStateHandle(roots: Roots, hs: seq<KeyedStateHandle>)
    returns (r: Result<seq<KeyedStateHandle>, Failure>)
    ensures Realizes(r, RelocateKeyedHandles(roots, hs))
  {
    var converted: seq<KeyedStateHandle> := [];
    var i := 0;
    while i < |hs|
      invariant 0 <= i <= |hs|
      invariant Traverse(KeyedHandleStep(roots), hs[..i]) == Done(converted)
    {
      var handle: KeyedStateHandle;
      match hs[i] {
        case KeyGroupsStateHandle(offsets, delegate) =>
          var stateHandle := ConvertStreamStateHandle(roots, delegate);
          if stateHandle.Err? {
            TraverseFirstFailure(KeyedHandleStep(roots), hs, i);
            return Err(stateHandle.error);
          }
          handle := KeyGroupsStateHandle(offsets, stateHandle.value);
        case IncrementalRemoteKeyedStateHandle(backend, range, checkpointId, shared, private, meta) =>
          var metaDataStateHandle := ConvertStreamStateHandle(roots, meta);
          if metaDataStateHandle.Err? {
            TraverseFirstFailure(KeyedHandleStep(roots), hs, i);
            return Err(metaDataStateHandle.error);
          }
          var sharedStates := ConvertStreamStateHandleMap(roots, shared);
          if sharedStates.Err? {
            TraverseFirstFailure(KeyedHandleStep(roots), hs, i);
            return Err(sharedStates.error);
          }
          var privateStates := ConvertStreamStateHandleMap(roots, private);
          if privateStates.Err? {
            TraverseFirstFailure(KeyedHandleStep(roots), hs, i);
            return Err(privateStates.error);
          }
          handle := IncrementalRemoteKeyedStateHandle(
            backend, range, checkpointId, sharedStates.value, privateStates.value, metaDataStateHandle.value);
        case OtherKeyedStateHandle(name) =>
          TraverseFirstFailure(KeyedHandleStep(roots), hs, i);
          return Err(UnknownKeyedHandle(name));
      }
      TraverseSnoc(KeyedHandleStep(roots), hs, i, converted, handle);
      converted := converted + [handle];
      i := i + 1;
    }
    assert hs[..i] == hs;
    r := Ok(converted);
  }

  /** `convertSubtaskState`: translates the four collections in turn. */
  method ConvertSubtaskState(roots: Roots, s: OperatorSubtaskState)
    returns (r: Result<OperatorSubtaskState, Failure>)
    ensures Realizes(r, RelocateSubtask(roots, s))
  {
    var managedOperatorState := ConvertOperatorStateHandle(roots, s.managedOperatorState);
    if managedOperatorState.Err? {
      return Err(managedOperatorState.error);
    }
    var rawOperatorState := ConvertOperatorStateHandle(roots, s.rawOperatorState);
    if rawOperatorState.Err? {
      return Err(rawOperatorState.error);
    }
    var managedKeyedState := ConvertKeyedStateHandle(roots, s.managedKeyedState);
    if managedKeyedState.Err? {
      return Err(managedKeyedState.error);
    }
    var rawKeyedState := ConvertKeyedStateHandle(roots, s.rawKeyedState);
    if rawKeyedState.Err? {
      return Err(rawKeyedState.error);
    }
    r := Ok(OperatorSubtaskState(
      managedOperatorState.value, rawOperatorState.value, managedKeyedState.value, rawKeyedState.value));
  }

  /** The inner loop of `convert`: puts the translation of every subtask
      state of `op` under its subtask index, visiting the entries in any
      order. */
  method ConvertSubtaskStates(roots: Roots, op: OperatorState)
    returns (r: Result<map<int, OperatorSubtaskState>, Failure>)
    ensures Realizes(r, TraverseMap(SubtaskStep(roots), op.subtaskStates))
  {
    var subtaskStates: map<int, OperatorSubtaskState> := map[];
    var remaining := op.subtaskStates.Keys;
    while remaining != {}
      invariant remaining <= op.subtaskStates.Keys
      invariant subtaskStates.Keys == op.subtaskStates.Keys - remaining
      invariant forall k | k in subtaskStates :: RelocateSubtask(roots, op.subtaskStates[k]) == Done(subtaskStates[k])
      decreases remaining
    {
      ghost var next := PickOne(remaining);  // a witness that there is an entry left to visit
      var subtaskIndex :| subtaskIndex in remaining;
      var subtaskState := ConvertSubtaskState(roots, op.subtaskStates[subtaskIndex]);
      if subtaskState.Err? {
        assert SubtaskStep(roots)(op.subtaskStates[subtaskIndex]).Raised?;
        return Err(subtaskState.error);
      }
      subtaskStates := subtaskStates[subtaskIndex := subtaskState.value];
      remaining := remaining - {subtaskIndex};
    }
    assert forall k | k in op.subtaskStates :: SubtaskStep(roots)(op.subtaskStates[k]) == Done(subtaskStates[k]);
    assert TraverseMap(SubtaskStep(roots), op.subtaskStates).value == subtaskStates;
    r := Ok(subtaskStates);
  }

  /** `convert`: for each operator state in order, a new operator state with
      the same id and parallelisms holding the translated subtask states;
      then the new checkpoint with the same id and master states. */
  method Convert(roots: Roots, savepoint: CheckpointMetadata)
    returns (r: Result<CheckpointMetadata, Failure>)
    ensures Realizes(r, RelocateCheckpoint(roots, savepoint))
  {
    var masterStates := savepoint.masterStates;
    var operatorStates: seq<OperatorState> := [];
    var i := 0;
    while i < |savepoint.operatorStates|
      invariant 0 <= i <= |savepoint.operatorStates|
      invariant Traverse(OperatorStateStep(roots), savepoint.operatorStates[..i]) == Done(operatorStates)
    {
      var op := savepoint.operatorStates[i];
      var subtaskStates := ConvertSubtaskStates(roots, op);
      if subtaskStates.Err? {
        assert OperatorStateStep(roots)(op).Raised?;
        TraverseFirstFailure(OperatorStateStep(roots), savepoint.operatorStates, i);
        return Err(subtaskStates.error);
      }
      var taskState := OperatorState(op.operatorId, op.parallelism, op.maxParallelism, subtaskStates.value);
      assert OperatorStateStep(roots)(op) == Done(taskState);
      TraverseSnoc(OperatorStateStep(roots), savepoint.operatorStates, i, operatorStates, taskState);
      operatorStates := operatorStates + [taskState];
      i := i + 1;
    }
    assert savepoint.operatorStates[..i] == savepoint.operatorStates;
    r := Ok(CheckpointMetadata(savepoint.checkpointId, operatorStates, masterStates));
  }
}
