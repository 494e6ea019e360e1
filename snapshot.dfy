/** The decoded snapshot-metadata graph the relocation engine reads and
    rebuilds (the library classes `CheckpointMetadata`, `OperatorState`,
    `OperatorSubtaskState` and the state handles), as immutable values.
    Every field the engine only copies is kept as an opaque value. */
module Snapshot {
  import opened Paths

  type byte = bv8

  /** A 128-bit operator identifier, as two 64-bit halves. */
  datatype OperatorId = OperatorId(upperPart: int, lowerPart: int)

  /** A backend identifier (a UUID). */
  datatype Uuid = Uuid(mostSignificantBits: int, leastSignificantBits: int)

  /** The key of an entry of the shared or private state of an incremental handle. */
  datatype StateHandleId = StateHandleId(keyString: string)

  datatype KeyGroupRange = KeyGroupRange(startKeyGroup: int, endKeyGroup: int)

  /** A key-group range with the stream offset of each of its key groups. */
  datatype KeyGroupRangeOffsets = KeyGroupRangeOffsets(keyGroupRange: KeyGroupRange, offsets: seq<int>)

  datatype DistributionMode = SplitDistribute | Union | Broadcast

  /** Where the partitions of one named operator state lie in the stream. */
  datatype StateMetaInfo = StateMetaInfo(offsets: seq<int>, distributionMode: DistributionMode)

  /** A stream of persisted state: a file, bytes held in the metadata itself,
      or an implementation the engine does not know (named by its class). */
  datatype StreamStateHandle =
    | FileStateHandle(filePath: Path, stateSize: int)
    | ByteStreamStateHandle(handleName: string, data: seq<byte>)
    | OtherStreamStateHandle(className: string)

  /** Operator state: the offsets of each named state within one stream. */
  datatype OperatorStateHandle =
    OperatorStreamStateHandle(stateNameToPartitionOffsets: map<string, StateMetaInfo>, delegateStateHandle: StreamStateHandle)

  /** Keyed state: one stream split by key group, an incremental snapshot
      of a remote backend, or an implementation the engine does not know. */
  datatype KeyedStateHandle =
    | KeyGroupsStateHandle(groupRangeOffsets: KeyGroupRangeOffsets, delegateStateHandle: StreamStateHandle)
    | IncrementalRemoteKeyedStateHandle(
        backendIdentifier: Uuid,
        keyGroupRange: KeyGroupRange,
        checkpointId: int,
        sharedState: map<StateHandleId, StreamStateHandle>,
        privateState: map<StateHandleId, StreamStateHandle>,
        metaStateHandle: StreamStateHandle)
    | OtherKeyedStateHandle(className: string)

  /** The state of one parallel instance of an operator. */
  datatype OperatorSubtaskState = OperatorSubtaskState(
    managedOperatorState: seq<OperatorStateHandle>,
    rawOperatorState: seq<OperatorStateHandle>,
    managedKeyedState: seq<KeyedStateHandle>,
    rawKeyedState: seq<KeyedStateHandle>)

  datatype OperatorState = OperatorState(
    operatorId: OperatorId,
    parallelism: int,
    maxParallelism: int,
    subtaskStates: map<int, OperatorSubtaskState>)

  /** State of the checkpoint coordinator's hooks, never rewritten. */
  datatype MasterState = MasterState(name: string, bytes: seq<byte>, version: int)

  datatype CheckpointMetadata = CheckpointMetadata(
    checkpointId: int,
    operatorStates: seq<OperatorState>,
    masterStates: seq<MasterState>)
}
