/** Worked examples of the relocation engine on small snapshots. */
module Scenarios {
  import opened Outcomes
  import opened Paths
  import opened Snapshot
  import opened Relocation

  const Root := Path(["root"])
  const Dst := Path(["dst"])
  const Moving := Roots(Root, Dst)

  function File(segments: seq<string>, size: int): StreamStateHandle {
    FileStateHandle(Path(segments), size)
  }

  /** A file directly under the source root moves directly under the
      destination root, keeping its name and size. */
  lemma ChildOfRootMoves(name: string, size: int)
    ensures ConvertStreamStateHandle(Moving, File(["root", name], size)) == Ok(File(["dst", name], size))
  {
    var p := Path(["root", name]);
    assert p.segments[..1] == Root.segments;
    assert p.Parent() == Some(Root);
    assert p.Name() == name;
    assert Dst.Child(name).segments == ["dst", name];
  }

  /** An incremental handle whose meta, shared and private files all lie
      directly under the source root. */
  function IncrementalUnderRoot(): KeyedStateHandle {
    IncrementalRemoteKeyedStateHandle(
      Uuid(7, 11), KeyGroupRange(0, 127), 42,
      map[StateHandleId("h1") := File(["root", "b2"], 50)],
      map[StateHandleId("h2") := File(["root", "other"], 10)],
      File(["root", "meta"], 100))
  }

  /** An incremental handle moves its three files under the destination
      root and keeps its backend, key-group range and checkpoint id. */
  lemma IncrementalHandleMoves()
    ensures RelocateKeyedHandle(Moving, IncrementalUnderRoot()) == Done(IncrementalUnderDst())
  {
    var shared := map[StateHandleId("h1") := File(["root", "b2"], 50)];
    var private := map[StateHandleId("h2") := File(["root", "other"], 10)];
    ChildOfRootMoves("b2", 50);
    ChildOfRootMoves("other", 10);
    ChildOfRootMoves("meta", 100);
    assert RelocateStreamMap(Moving, shared).value == map[StateHandleId("h1") := File(["dst", "b2"], 50)];
    assert RelocateStreamMap(Moving, private).value == map[StateHandleId("h2") := File(["dst", "other"], 10)];
  }

  /** The subtask state holding only that handle, as managed keyed state. */
  function SubtaskUnderRoot(): OperatorSubtaskState {
    OperatorSubtaskState([], [], [IncrementalUnderRoot()], [])
  }

  /** What that handle becomes: the same handle with its files under the
      destination root. */
  function IncrementalUnderDst(): KeyedStateHandle {
    IncrementalRemoteKeyedStateHandle(
      Uuid(7, 11), KeyGroupRange(0, 127), 42,
      map[StateHandleId("h1") := File(["dst", "b2"], 50)],
      map[StateHandleId("h2") := File(["dst", "other"], 10)],
      File(["dst", "meta"], 100))
  }

  function MovedSubtask(): OperatorSubtaskState {
    OperatorSubtaskState([], [], [IncrementalUnderDst()], [])
  }

  lemma SubtaskMoves()
    ensures RelocateSubtask(Moving, SubtaskUnderRoot()) == Done(MovedSubtask())
  {
    IncrementalHandleMoves();
    TraverseOne(KeyedHandleStep(Moving), IncrementalUnderRoot());
    assert RelocateOperatorHandles(Moving, []) == Done([]);
    assert RelocateKeyedHandles(Moving, []) == Done([]);
  }

  /** An operator state of parallelism four holding that subtask state at
      index 0, and what it becomes. */
  function OperatorUnderRoot(): OperatorState {
    OperatorState(OperatorId(0, 1), 4, 128, map[0 := SubtaskUnderRoot()])
  }

  function OperatorUnderDst(): OperatorState {
    OperatorState(OperatorId(0, 1), 4, 128, map[0 := MovedSubtask()])
  }

  /** The operator id and the parallelisms stay; the subtask state moves. */
  lemma OperatorMoves()
    ensures RelocateOperatorState(Moving, OperatorUnderRoot()) == Done(OperatorUnderDst())
  {
    SubtaskMoves();
    TraverseMapOne(SubtaskStep(Moving), 0, SubtaskUnderRoot());
  }

  /** In a snapshot holding only that operator state, the checkpoint id and
      the (empty) master states stay and the operator state moves. */
  lemma SnapshotWithIncrementalHandleMoves()
    ensures RelocateCheckpoint(Moving, CheckpointMetadata(42, [OperatorUnderRoot()], []))
      == Done(CheckpointMetadata(42, [OperatorUnderDst()], []))
  {
    OperatorMoves();
    TraverseOne(OperatorStateStep(Moving), OperatorUnderRoot());
  }

  /** A file outside the source root makes the translation fail, naming the
      path and the root it did not match. */
  lemma FileElsewhereFails()
    ensures ConvertStreamStateHandle(Moving, File(["elsewhere", "file"], 1))
      == Err(PathMismatch(Path(["elsewhere", "file"]), Root))
  {
    assert !IsPrefixOf(Root, Path(["elsewhere", "file"])) by {
      assert |"elsewhere"| != |"root"|;
      assert ["elsewhere", "file"][..1][0] == "elsewhere";
    }
  }

  /** The source root itself is rewritten to exactly the destination root,
      with no segment appended. */
  lemma RootItselfMoves()
    ensures ConvertStreamStateHandle(Moving, File(["root"], 3)) == Ok(File(["dst"], 3))
  {
  }

  /** A file two levels below the source root does not match: only the root
      and its direct children do. */
  lemma GrandchildFails()
    ensures ConvertUri(Moving, Path(["root", "a", "b"])) == Err(PathMismatch(Path(["root", "a", "b"]), Root))
  {
  }

  /** The empty path has no parent, so the matcher cannot take it apart. */
  lemma EmptyPathFails()
    ensures ConvertUri(Moving, Path([])) == Err(MissingParent(Path([])))
  {
  }
}
