/** What the relocation engine guarantees, proved about module Relocation
    against the reference description of module Repathing. */
module RelocationProperties {
  import opened Outcomes
  import opened Paths
  import opened Snapshot
  import opened Relocation
  import opened Repathing

  /** The path the matcher rewrites `p` to (and `p` itself where it fails). */
  function Rewrite(roots: Roots): Path -> Path {
    p => if ConvertUri(roots, p).Ok? then ConvertUri(roots, p).value else p
  }

  /** Every path of `ps` is the source root or directly under it. */
  ghost predicate PathsMatch(roots: Roots, ps: set<Path>) {
    forall p | p in ps :: ConvertUri(roots, p).Ok?
  }

  /** Neither root lies inside the other. */
  predicate Unrelated(roots: Roots) {
    !IsPrefixOf(roots.sourcePath, roots.destinationPath) && !IsPrefixOf(roots.destinationPath, roots.sourcePath)
  }

  // ---------------------------------------------------------------------
  // The path matcher

  /** Matching the rewritten path against the swapped roots gives back the
      original path: moving to the destination and back is the identity. */
  lemma ConvertUriRoundTrip(roots: Roots, p: Path)
    requires ConvertUri(roots, p).Ok?
    ensures ConvertUri(roots.Swapped(), ConvertUri(roots, p).value) == Ok(p)
  {
  }

  /** Two different paths are never rewritten to the same path. */
  lemma ConvertUriInjective(roots: Roots, p: Path, p': Path)
    requires ConvertUri(roots, p).Ok? && ConvertUri(roots, p').Ok?
    requires ConvertUri(roots, p).value == ConvertUri(roots, p').value
    ensures p == p'
  {
  }

  /** When neither root lies inside the other, a rewritten path no longer
      matches the source root: relocating twice with the same roots fails. */
  lemma ConvertUriRerunFails(roots: Roots, p: Path)
    requires Unrelated(roots)
    requires ConvertUri(roots, p).Ok?
    ensures ConvertUri(roots, ConvertUri(roots, p).value).Err?
  {
  }

  // ---------------------------------------------------------------------
  // The failure for a keyed handle of an unknown implementation

  /** As written, the failure does not tell two unknown implementations
      apart: both are reported under the collection's class. */
  lemma AsWrittenUnknownKeyedFailureHidesClass(roots: Roots, a: KeyedStateHandle, b: KeyedStateHandle)
    requires a.OtherKeyedStateHandle? && b.OtherKeyedStateHandle?
    ensures RelocateKeyedHandleAsWritten(roots, a) == RelocateKeyedHandleAsWritten(roots, b)
    ensures a.className != KeyedCollectionClass ==>
      RelocateKeyedHandleAsWritten(roots, a) != Raised({UnknownKeyedHandle(a.className)})
  {
  }

  /** Corrected, the failure names the handle's own class, as the stream
      handle failure does, so different unknown implementations give
      different failures. */
  lemma UnknownKeyedFailureNamesClass(roots: Roots, a: KeyedStateHandle, b: KeyedStateHandle)
    requires a.OtherKeyedStateHandle? && b.OtherKeyedStateHandle?
    ensures RelocateKeyedHandle(roots, a) == Raised({UnknownKeyedHandle(a.className)})
    ensures RelocateKeyedHandle(roots, a) == RelocateKeyedHandle(roots, b) <==> a.className == b.className
  {
  }

  // ---------------------------------------------------------------------
  // Translation is exactly the reference rewrite: it succeeds precisely when
  // every handle is of a known class and every file path matches, and then
  // its result is the input with every file path rewritten.

  lemma StreamRelocatesExactly(roots: Roots, h: StreamStateHandle)
    ensures ConvertStreamStateHandle(roots, h).Ok? <==> StreamKnown(h) && PathsMatch(roots, StreamPaths(h))
    ensures ConvertStreamStateHandle(roots, h).Ok? ==>
      ConvertStreamStateHandle(roots, h).value == RepathStream(Rewrite(roots), h)
  {
  }

  lemma StreamMapRelocatesExactly(roots: Roots, m: map<StateHandleId, StreamStateHandle>)
    ensures RelocateStreamMap(roots, m).Done? <==> StreamMapKnown(m) && PathsMatch(roots, StreamMapPaths(m))
    ensures RelocateStreamMap(roots, m).Done? ==>
      RelocateStreamMap(roots, m).value == RepathStreamMap(Rewrite(roots), m)
  {
    forall k | k in m {
      StreamRelocatesExactly(roots, m[k]);
    }
    if StreamMapKnown(m) && PathsMatch(roots, StreamMapPaths(m)) {
      forall k | k in m ensures ConvertStreamStateHandle(roots, m[k]).Ok? {
        assert forall p | p in StreamPaths(m[k]) :: p in StreamMapPaths(m);
      }
    }
    if RelocateStreamMap(roots, m).Done? {
      forall p | p in StreamMapPaths(m) ensures ConvertUri(roots, p).Ok? {
        var k :| k in m && p in StreamPaths(m[k]);
      }
      assert RelocateStreamMap(roots, m).value == RepathStreamMap(Rewrite(roots), m);
    }
  }

  lemma OperatorHandlesRelocateExactly(roots: Roots, hs: seq<OperatorStateHandle>)
    ensures RelocateOperatorHandles(roots, hs).Done? <==>
      OperatorHandlesKnown(hs) && PathsMatch(roots, OperatorHandlesPaths(hs))
    ensures RelocateOperatorHandles(roots, hs).Done? ==>
      RelocateOperatorHandles(roots, hs).value == RepathOperatorHandles(Rewrite(roots), hs)
  {
    var o := RelocateOperatorHandles(roots, hs);
    forall i | 0 <= i < |hs| {
      StreamRelocatesExactly(roots, hs[i].delegateStateHandle);
    }
    if OperatorHandlesKnown(hs) && PathsMatch(roots, OperatorHandlesPaths(hs)) {
      forall i | 0 <= i < |hs| ensures PathsMatch(roots, StreamPaths(hs[i].delegateStateHandle)) {
        assert forall p | p in StreamPaths(hs[i].delegateStateHandle) :: p in OperatorHandlesPaths(hs);
      }
    }
    if o.Done? {
      forall p | p in OperatorHandlesPaths(hs) ensures ConvertUri(roots, p).Ok? {
        var i :| 0 <= i < |hs| && p in StreamPaths(hs[i].delegateStateHandle);
        assert OperatorHandleStep(roots)(hs[i]).Done?;
      }
      assert o.value == RepathOperatorHandles(Rewrite(roots), hs);
    }
  }

  lemma KeyedRelocatesExactly(roots: Roots, h: KeyedStateHandle)
    ensures RelocateKeyedHandle(roots, h).Done? <==> KeyedKnown(h) && PathsMatch(roots, KeyedPaths(h))
    ensures RelocateKeyedHandle(roots, h).Done? ==>
      RelocateKeyedHandle(roots, h).value == RepathKeyed(Rewrite(roots), h)
  {
    match h
    case KeyGroupsStateHandle(_, delegate) =>
      StreamRelocatesExactly(roots, delegate);
    case IncrementalRemoteKeyedStateHandle(_, _, _, shared, private, meta) =>
      StreamRelocatesExactly(roots, meta);
      StreamMapRelocatesExactly(roots, shared);
      StreamMapRelocatesExactly(roots, private);
    case OtherKeyedStateHandle(_) =>
  }

  lemma KeyedHandlesRelocateExactly(roots: Roots, hs: seq<KeyedStateHandle>)
    ensures RelocateKeyedHandles(roots, hs).Done? <==> KeyedHandlesKnown(hs) && PathsMatch(roots, KeyedHandlesPaths(hs))
    ensures RelocateKeyedHandles(roots, hs).Done? ==>
      RelocateKeyedHandles(roots, hs).value == RepathKeyedHandles(Rewrite(roots), hs)
  {
    var o := RelocateKeyedHandles(roots, hs);
    forall i | 0 <= i < |hs| {
      KeyedRelocatesExactly(roots, hs[i]);
    }
    if KeyedHandlesKnown(hs) && PathsMatch(roots, KeyedHandlesPaths(hs)) {
      forall i | 0 <= i < |hs| ensures PathsMatch(roots, KeyedPaths(hs[i])) {
        assert forall p | p in KeyedPaths(hs[i]) :: p in KeyedHandlesPaths(hs);
      }
    }
    if o.Done? {
      forall p | p in KeyedHandlesPaths(hs) ensures ConvertUri(roots, p).Ok? {
        var i :| 0 <= i < |hs| && p in KeyedPaths(hs[i]);
        assert KeyedHandleStep(roots)(hs[i]).Done?;
      }
      assert o.value == RepathKeyedHandles(Rewrite(roots), hs);
    }
  }

  lemma SubtaskRelocatesExactly(roots: Roots, s: OperatorSubtaskState)
    ensures RelocateSubtask(roots, s).Done? <==> SubtaskKnown(s) && PathsMatch(roots, SubtaskPaths(s))
    ensures RelocateSubtask(roots, s).Done? ==>
      RelocateSubtask(roots, s).value == RepathSubtask(Rewrite(roots), s)
  {
    OperatorHandlesRelocateExactly(roots, s.managedOperatorState);
    OperatorHandlesRelocateExactly(roots, s.rawOperatorState);
    KeyedHandlesRelocateExactly(roots, s.managedKeyedState);
    KeyedHandlesRelocateExactly(roots, s.rawKeyedState);
  }

  lemma OperatorStateRelocatesExactly(roots: Roots, op: OperatorState)
    ensures RelocateOperatorState(roots, op).Done? <==> OperatorStateKnown(op) && PathsMatch(roots, OperatorStatePaths(op))
    ensures RelocateOperatorState(roots, op).Done? ==>
      RelocateOperatorState(roots, op).value == RepathOperatorState(Rewrite(roots), op)
  {
    var m := op.subtaskStates;
    forall k | k in m {
      SubtaskRelocatesExactly(roots, m[k]);
    }
    if OperatorStateKnown(op) && PathsMatch(roots, OperatorStatePaths(op)) {
      forall k | k in m ensures RelocateSubtask(roots, m[k]).Done? {
        assert forall p | p in SubtaskPaths(m[k]) :: p in OperatorStatePaths(op);
      }
      assert TraverseMap(SubtaskStep(roots), m).Done?;
    }
    if RelocateOperatorState(roots, op).Done? {
      forall p | p in OperatorStatePaths(op) ensures ConvertUri(roots, p).Ok? {
        var k :| k in m && p in SubtaskPaths(m[k]);
      }
      assert RelocateOperatorState(roots, op).value.subtaskStates == RepathOperatorState(Rewrite(roots), op).subtaskStates;
    }
  }

  /** Relocating a checkpoint succeeds exactly when every handle in it is of
      a known class and every file path in it is the source root or directly
      under it, and then its result is the checkpoint with every file path
      rewritten and every other field unchanged. */
  lemma CheckpointRelocatesExactly(roots: Roots, cp: CheckpointMetadata)
    ensures RelocateCheckpoint(roots, cp).Done? <==> CheckpointKnown(cp) && PathsMatch(roots, CheckpointPaths(cp))
    ensures RelocateCheckpoint(roots, cp).Done? ==>
      RelocateCheckpoint(roots, cp).value == RepathCheckpoint(Rewrite(roots), cp)
  {
    var ops := cp.operatorStates;
    var o := Traverse(OperatorStateStep(roots), ops);
    forall i | 0 <= i < |ops| {
      OperatorStateRelocatesExactly(roots, ops[i]);
    }
    if CheckpointKnown(cp) && PathsMatch(roots, CheckpointPaths(cp)) {
      forall i | 0 <= i < |ops| ensures OperatorStateStep(roots)(ops[i]).Done? {
        assert forall p | p in OperatorStatePaths(ops[i]) :: p in CheckpointPaths(cp);
      }
    }
    if o.Done? {
      forall p | p in CheckpointPaths(cp) ensures ConvertUri(roots, p).Ok? {
        var i :| 0 <= i < |ops| && p in OperatorStatePaths(ops[i]);
        assert OperatorStateStep(roots)(ops[i]).Done?;
      }
      assert o.value == RepathCheckpoint(Rewrite(roots), cp).operatorStates;
    }
  }

  // ---------------------------------------------------------------------
  // Which failure a failed translation reports: the matcher's failure for
  // one of the graph's file paths, or, when the graph holds a handle of an
  // unknown class, an unknown-handle failure.

  /** `e` is a failure some leaf of a graph with file paths `ps` raises;
      `known` says whether every handle of the graph is of a known class. */
  ghost predicate LeafFailure(roots: Roots, ps: set<Path>, known: bool, e: Failure) {
    || (exists p | p in ps :: ConvertUri(roots, p) == Err(e))
    || (!known && (e.UnknownStreamHandle? || e.UnknownKeyedHandle?))
  }

  /** A leaf failure of a part is a leaf failure of the whole. */
  lemma LeafFailureWidens(roots: Roots, ps: set<Path>, known: bool, ps': set<Path>, known': bool, e: Failure)
    requires LeafFailure(roots, ps, known, e)
    requires ps <= ps' && (known' ==> known)
    ensures LeafFailure(roots, ps', known', e)
  {
    if !(exists p | p in ps :: ConvertUri(roots, p) == Err(e)) {
      assert !known;
    } else {
      var p :| p in ps && ConvertUri(roots, p) == Err(e);
      assert p in ps';
    }
  }

  lemma StreamFailsAtLeaf(roots: Roots, h: StreamStateHandle)
    ensures ConvertStreamStateHandle(roots, h).Err? ==>
      LeafFailure(roots, StreamPaths(h), StreamKnown(h), ConvertStreamStateHandle(roots, h).error)
  {
    if h.FileStateHandle? && ConvertStreamStateHandle(roots, h).Err? {
      assert h.filePath in StreamPaths(h);
    }
  }

  lemma StreamMapFailsAtLeaf(roots: Roots, m: map<StateHandleId, StreamStateHandle>)
    ensures RelocateStreamMap(roots, m).Raised? ==>
      forall e | e in RelocateStreamMap(roots, m).errors :: LeafFailure(roots, StreamMapPaths(m), StreamMapKnown(m), e)
  {
    var o := RelocateStreamMap(roots, m);
    if o.Raised? {
      forall e | e in o.errors ensures LeafFailure(roots, StreamMapPaths(m), StreamMapKnown(m), e) {
        var k :| k in m && StreamStep(roots)(m[k]).Raised? && e in StreamStep(roots)(m[k]).errors;
        StreamMapEntryFailsAtLeaf(roots, m, k, e);
      }
    }
  }

  lemma StreamMapEntryFailsAtLeaf(roots: Roots, m: map<StateHandleId, StreamStateHandle>, k: StateHandleId, e: Failure)
    requires k in m && StreamStep(roots)(m[k]).Raised? && e in StreamStep(roots)(m[k]).errors
    ensures LeafFailure(roots, StreamMapPaths(m), StreamMapKnown(m), e)
  {
    assert e == ConvertStreamStateHandle(roots, m[k]).error;
    StreamFailsAtLeaf(roots, m[k]);
    assert StreamPaths(m[k]) <= StreamMapPaths(m);
    LeafFailureWidens(roots, StreamPaths(m[k]), StreamKnown(m[k]), StreamMapPaths(m), StreamMapKnown(m), e);
  }

  lemma OperatorHandlesFailAtLeaf(roots: Roots, hs: seq<OperatorStateHandle>)
    ensures RelocateOperatorHandles(roots, hs).Raised? ==>
      forall e | e in RelocateOperatorHandles(roots, hs).errors ::
        LeafFailure(roots, OperatorHandlesPaths(hs), OperatorHandlesKnown(hs), e)
  {
    var o := RelocateOperatorHandles(roots, hs);
    if o.Raised? {
      var i :| 0 <= i < |hs| && OperatorHandleStep(roots)(hs[i]).Raised? && o.errors == OperatorHandleStep(roots)(hs[i]).errors;
      var d := hs[i].delegateStateHandle;
      StreamFailsAtLeaf(roots, d);
      forall e | e in o.errors ensures LeafFailure(roots, OperatorHandlesPaths(hs), OperatorHandlesKnown(hs), e) {
        LeafFailureWidens(roots, StreamPaths(d), StreamKnown(d), OperatorHandlesPaths(hs), OperatorHandlesKnown(hs), e);
      }
    }
  }

  lemma KeyedFailsAtLeaf(roots: Roots, h: KeyedStateHandle)
    ensures RelocateKeyedHandle(roots, h).Raised? ==>
      forall e | e in RelocateKeyedHandle(roots, h).errors :: LeafFailure(roots, KeyedPaths(h), KeyedKnown(h), e)
  {
    match h
    case KeyGroupsStateHandle(_, delegate) =>
      StreamFailsAtLeaf(roots, delegate);
    case IncrementalRemoteKeyedStateHandle(_, _, _, shared, private, meta) =>
      var o := RelocateKeyedHandle(roots, h);
      if o.Raised? {
        StreamFailsAtLeaf(roots, meta);
        StreamMapFailsAtLeaf(roots, shared);
        StreamMapFailsAtLeaf(roots, private);
        forall e | e in o.errors ensures LeafFailure(roots, KeyedPaths(h), KeyedKnown(h), e) {
          if ConvertStreamStateHandle(roots, meta).Err? {
            LeafFailureWidens(roots, StreamPaths(meta), StreamKnown(meta), KeyedPaths(h), KeyedKnown(h), e);
          } else if RelocateStreamMap(roots, shared).Raised? {
            LeafFailureWidens(roots, StreamMapPaths(shared), StreamMapKnown(shared), KeyedPaths(h), KeyedKnown(h), e);
          } else {
            LeafFailureWidens(roots, StreamMapPaths(private), StreamMapKnown(private), KeyedPaths(h), KeyedKnown(h), e);
          }
        }
      }
    case OtherKeyedStateHandle(_) =>
  }

  lemma KeyedHandlesFailAtLeaf(roots: Roots, hs: seq<KeyedStateHandle>)
    ensures RelocateKeyedHandles(roots, hs).Raised? ==>
      forall e | e in RelocateKeyedHandles(roots, hs).errors ::
        LeafFailure(roots, KeyedHandlesPaths(hs), KeyedHandlesKnown(hs), e)
  {
    var o := RelocateKeyedHandles(roots, hs);
    if o.Raised? {
      var i :| 0 <= i < |hs| && KeyedHandleStep(roots)(hs[i]).Raised? && o.errors == KeyedHandleStep(roots)(hs[i]).errors;
      KeyedFailsAtLeaf(roots, hs[i]);
      forall e | e in o.errors ensures LeafFailure(roots, KeyedHandlesPaths(hs), KeyedHandlesKnown(hs), e) {
        LeafFailureWidens(roots, KeyedPaths(hs[i]), KeyedKnown(hs[i]), KeyedHandlesPaths(hs), KeyedHandlesKnown(hs), e);
      }
    }
  }

  lemma SubtaskFailsAtLeaf(roots: Roots, s: OperatorSubtaskState)
    ensures RelocateSubtask(roots, s).Raised? ==>
      forall e | e in RelocateSubtask(roots, s).errors :: LeafFailure(roots, SubtaskPaths(s), SubtaskKnown(s), e)
  {
    var o := RelocateSubtask(roots, s);
    if o.Raised? {
      OperatorHandlesFailAtLeaf(roots, s.managedOperatorState);
      OperatorHandlesFailAtLeaf(roots, s.rawOperatorState);
      KeyedHandlesFailAtLeaf(roots, s.managedKeyedState);
      KeyedHandlesFailAtLeaf(roots, s.rawKeyedState);
      forall e | e in o.errors ensures LeafFailure(roots, SubtaskPaths(s), SubtaskKnown(s), e) {
        if RelocateOperatorHandles(roots, s.managedOperatorState).Raised? {
          LeafFailureWidens(roots, OperatorHandlesPaths(s.managedOperatorState),
            OperatorHandlesKnown(s.managedOperatorState), SubtaskPaths(s), SubtaskKnown(s), e);
        } else if RelocateOperatorHandles(roots, s.rawOperatorState).Raised? {
          LeafFailureWidens(roots, OperatorHandlesPaths(s.rawOperatorState),
            OperatorHandlesKnown(s.rawOperatorState), SubtaskPaths(s), SubtaskKnown(s), e);
        } else if RelocateKeyedHandles(roots, s.managedKeyedState).Raised? {
          LeafFailureWidens(roots, KeyedHandlesPaths(s.managedKeyedState),
            KeyedHandlesKnown(s.managedKeyedState), SubtaskPaths(s), SubtaskKnown(s), e);
        } else {
          LeafFailureWidens(roots, KeyedHandlesPaths(s.rawKeyedState),
            KeyedHandlesKnown(s.rawKeyedState), SubtaskPaths(s), SubtaskKnown(s), e);
        }
      }
    }
  }

  lemma OperatorStateFailsAtLeaf(roots: Roots, op: OperatorState)
    ensures RelocateOperatorState(roots, op).Raised? ==>
      forall e | e in RelocateOperatorState(roots, op).errors ::
        LeafFailure(roots, OperatorStatePaths(op), OperatorStateKnown(op), e)
  {
    var o := RelocateOperatorState(roots, op);
    if o.Raised? {
      forall e | e in o.errors ensures LeafFailure(roots, OperatorStatePaths(op), OperatorStateKnown(op), e) {
        SubtasksFailAtLeaf(roots, op, e);
      }
    }
  }

  lemma SubtasksFailAtLeaf(roots: Roots, op: OperatorState, e: Failure)
    requires TraverseMap(SubtaskStep(roots), op.subtaskStates).Raised?
    requires e in TraverseMap(SubtaskStep(roots), op.subtaskStates).errors
    ensures LeafFailure(roots, OperatorStatePaths(op), OperatorStateKnown(op), e)
  {
    var k := TraverseMapFailureSource(SubtaskStep(roots), op.subtaskStates, e);
    SubtaskEntryFailsAtLeaf(roots, op, k, e);
  }

  lemma SubtaskEntryFailsAtLeaf(roots: Roots, op: OperatorState, k: int, e: Failure)
    requires k in op.subtaskStates
    requires RelocateSubtask(roots, op.subtaskStates[k]).Raised? && e in RelocateSubtask(roots, op.subtaskStates[k]).errors
    ensures LeafFailure(roots, OperatorStatePaths(op), OperatorStateKnown(op), e)
  {
    var s := op.subtaskStates[k];
    SubtaskFailsAtLeaf(roots, s);
    assert SubtaskPaths(s) <= OperatorStatePaths(op);
    LeafFailureWidens(roots, SubtaskPaths(s), SubtaskKnown(s), OperatorStatePaths(op), OperatorStateKnown(op), e);
  }

  /** A failed relocation reports only failures of its leaves: the
      matcher's failure for one of the checkpoint's file paths, or, when the
      checkpoint holds a handle of an unknown class, an unknown-handle
      failure. */
  lemma CheckpointFailureIsLeafFailure(roots: Roots, cp: CheckpointMetadata)
    ensures RelocateCheckpoint(roots, cp).Raised? ==>
      forall e | e in RelocateCheckpoint(roots, cp).errors ::
        LeafFailure(roots, CheckpointPaths(cp), CheckpointKnown(cp), e)
  {
    var o := RelocateCheckpoint(roots, cp);
    var ops := cp.operatorStates;
    if o.Raised? {
      var i :| 0 <= i < |ops| && OperatorStateStep(roots)(ops[i]).Raised? && o.errors == OperatorStateStep(roots)(ops[i]).errors;
      OperatorStateFailsAtLeaf(roots, ops[i]);
      assert OperatorStatePaths(ops[i]) <= CheckpointPaths(cp);
      forall e | e in o.errors ensures LeafFailure(roots, CheckpointPaths(cp), CheckpointKnown(cp), e) {
        LeafFailureWidens(roots, OperatorStatePaths(ops[i]), OperatorStateKnown(ops[i]), CheckpointPaths(cp), CheckpointKnown(cp), e);
      }
    }
  }

  // ---------------------------------------------------------------------
  // Rewriting the paths of a graph: the new graph references exactly the
  // images of the old paths, has handles of the same classes, and a second
  // rewrite that undoes the first on every path gives back the graph.

  lemma RepathStreamPaths(f: Path -> Path, h: StreamStateHandle)
    ensures StreamPaths(RepathStream(f, h)) == Image(f, StreamPaths(h))
    ensures StreamKnown(RepathStream(f, h)) == StreamKnown(h)
  {
  }

  lemma RepathStreamMapPaths(f: Path -> Path, m: map<StateHandleId, StreamStateHandle>)
    ensures StreamMapPaths(RepathStreamMap(f, m)) == Image(f, StreamMapPaths(m))
    ensures StreamMapKnown(RepathStreamMap(f, m)) == StreamMapKnown(m)
  {
    var m' := RepathStreamMap(f, m);
    forall q | q in StreamMapPaths(m') ensures q in Image(f, StreamMapPaths(m)) {
      var k :| k in m' && q in StreamPaths(m'[k]);
      RepathStreamPaths(f, m[k]);
      var p :| p in StreamPaths(m[k]) && q == f(p);
      assert p in StreamMapPaths(m);
    }
    forall q | q in Image(f, StreamMapPaths(m)) ensures q in StreamMapPaths(m') {
      var p :| p in StreamMapPaths(m) && q == f(p);
      var k :| k in m && p in StreamPaths(m[k]);
      assert q in StreamPaths(m'[k]);
    }
    assert StreamMapKnown(m') == StreamMapKnown(m) by {
      assert forall k | k in m :: StreamKnown(m'[k]) == StreamKnown(m[k]);
    }
  }

  lemma RepathOperatorHandlesPaths(f: Path -> Path, hs: seq<OperatorStateHandle>)
    ensures OperatorHandlesPaths(RepathOperatorHandles(f, hs)) == Image(f, OperatorHandlesPaths(hs))
    ensures OperatorHandlesKnown(RepathOperatorHandles(f, hs)) == OperatorHandlesKnown(hs)
  {
    var hs' := RepathOperatorHandles(f, hs);
    forall q | q in OperatorHandlesPaths(hs') ensures q in Image(f, OperatorHandlesPaths(hs)) {
      var i :| 0 <= i < |hs'| && q in StreamPaths(hs'[i].delegateStateHandle);
      assert hs'[i].delegateStateHandle == RepathStream(f, hs[i].delegateStateHandle);
      RepathStreamPaths(f, hs[i].delegateStateHandle);
      var p :| p in StreamPaths(hs[i].delegateStateHandle) && q == f(p);
      assert p in OperatorHandlesPaths(hs);
    }
    forall q | q in Image(f, OperatorHandlesPaths(hs)) ensures q in OperatorHandlesPaths(hs') {
      var p :| p in OperatorHandlesPaths(hs) && q == f(p);
      var i :| 0 <= i < |hs| && p in StreamPaths(hs[i].delegateStateHandle);
      assert q in StreamPaths(hs'[i].delegateStateHandle);
    }
    assert forall i | 0 <= i < |hs| :: hs'[i] == RepathOperatorHandle(f, hs[i]);
  }

  lemma RepathKeyedPaths(f: Path -> Path, h: KeyedStateHandle)
    ensures KeyedPaths(RepathKeyed(f, h)) == Image(f, KeyedPaths(h))
    ensures KeyedKnown(RepathKeyed(f, h)) == KeyedKnown(h)
  {
    match h
    case KeyGroupsStateHandle(_, _) =>
    case IncrementalRemoteKeyedStateHandle(_, _, _, shared, private, meta) =>
      RepathStreamMapPaths(f, shared);
      RepathStreamMapPaths(f, private);
      assert Image(f, KeyedPaths(h)) ==
        Image(f, StreamPaths(meta)) + Image(f, StreamMapPaths(shared)) + Image(f, StreamMapPaths(private));
    case OtherKeyedStateHandle(_) =>
  }

  lemma RepathKeyedHandlesPaths(f: Path -> Path, hs: seq<KeyedStateHandle>)
    ensures KeyedHandlesPaths(RepathKeyedHandles(f, hs)) == Image(f, KeyedHandlesPaths(hs))
    ensures KeyedHandlesKnown(RepathKeyedHandles(f, hs)) == KeyedHandlesKnown(hs)
  {
    var hs' := RepathKeyedHandles(f, hs);
    forall i | 0 <= i < |hs| {
      RepathKeyedPaths(f, hs[i]);
    }
    forall q | q in KeyedHandlesPaths(hs') ensures q in Image(f, KeyedHandlesPaths(hs)) {
      var i :| 0 <= i < |hs'| && q in KeyedPaths(hs'[i]);
      var p :| p in KeyedPaths(hs[i]) && q == f(p);
      assert p in KeyedHandlesPaths(hs);
    }
    forall q | q in Image(f, KeyedHandlesPaths(hs)) ensures q in KeyedHandlesPaths(hs') {
      var p :| p in KeyedHandlesPaths(hs) && q == f(p);
      var i :| 0 <= i < |hs| && p in KeyedPaths(hs[i]);
      assert q in KeyedPaths(hs'[i]);
    }
    assert forall i | 0 <= i < |hs| :: hs'[i] == RepathKeyed(f, hs[i]);
  }

  lemma RepathSubtaskPaths(f: Path -> Path, s: OperatorSubtaskState)
    ensures SubtaskPaths(RepathSubtask(f, s)) == Image(f, SubtaskPaths(s))
    ensures SubtaskKnown(RepathSubtask(f, s)) == SubtaskKnown(s)
  {
    RepathOperatorHandlesPaths(f, s.managedOperatorState);
    RepathOperatorHandlesPaths(f, s.rawOperatorState);
    RepathKeyedHandlesPaths(f, s.managedKeyedState);
    RepathKeyedHandlesPaths(f, s.rawKeyedState);
    assert Image(f, SubtaskPaths(s)) ==
      Image(f, OperatorHandlesPaths(s.managedOperatorState)) + Image(f, OperatorHandlesPaths(s.rawOperatorState))
      + Image(f, KeyedHandlesPaths(s.managedKeyedState)) + Image(f, KeyedHandlesPaths(s.rawKeyedState));
  }

  lemma RepathOperatorStatePaths(f: Path -> Path, op: OperatorState)
    ensures OperatorStatePaths(RepathOperatorState(f, op)) == Image(f, OperatorStatePaths(op))
    ensures OperatorStateKnown(RepathOperatorState(f, op)) == OperatorStateKnown(op)
  {
    RepathOperatorStatePathsImage(f, op);
    RepathOperatorStatePathsPreimage(f, op);
    var m, m' := op.subtaskStates, RepathOperatorState(f, op).subtaskStates;
    forall k | k in m ensures SubtaskKnown(m'[k]) == SubtaskKnown(m[k]) {
      RepathSubtaskPaths(f, m[k]);
    }
  }

  /** Every path of the rewritten operator state is the image of an old one. */
  lemma RepathOperatorStatePathsImage(f: Path -> Path, op: OperatorState)
    ensures OperatorStatePaths(RepathOperatorState(f, op)) <= Image(f, OperatorStatePaths(op))
  {
    var m, m' := op.subtaskStates, RepathOperatorState(f, op).subtaskStates;
    forall q | q in OperatorStatePaths(RepathOperatorState(f, op)) ensures q in Image(f, OperatorStatePaths(op)) {
      var k :| k in m' && q in SubtaskPaths(m'[k]);
      RepathSubtaskPaths(f, m[k]);
      var p :| p in SubtaskPaths(m[k]) && q == f(p);
      assert p in OperatorStatePaths(op);
    }
  }

  /** The image of every old path of an operator state is a path of the rewritten one. */
  lemma RepathOperatorStatePathsPreimage(f: Path -> Path, op: OperatorState)
    ensures Image(f, OperatorStatePaths(op)) <= OperatorStatePaths(RepathOperatorState(f, op))
  {
    var m, m' := op.subtaskStates, RepathOperatorState(f, op).subtaskStates;
    forall q | q in Image(f, OperatorStatePaths(op)) ensures q in OperatorStatePaths(RepathOperatorState(f, op)) {
      var p :| p in OperatorStatePaths(op) && q == f(p);
      var k :| k in m && p in SubtaskPaths(m[k]);
      RepathSubtaskPaths(f, m[k]);
      assert q in SubtaskPaths(m'[k]);
    }
  }

  lemma RepathCheckpointPaths(f: Path -> Path, cp: CheckpointMetadata)
    ensures CheckpointPaths(RepathCheckpoint(f, cp)) == Image(f, CheckpointPaths(cp))
    ensures CheckpointKnown(RepathCheckpoint(f, cp)) == CheckpointKnown(cp)
  {
    var ops, ops' := cp.operatorStates, RepathCheckpoint(f, cp).operatorStates;
    forall i | 0 <= i < |ops| {
      RepathOperatorStatePaths(f, ops[i]);
    }
    forall q | q in CheckpointPaths(RepathCheckpoint(f, cp)) ensures q in Image(f, CheckpointPaths(cp)) {
      var i :| 0 <= i < |ops'| && q in OperatorStatePaths(ops'[i]);
      var p :| p in OperatorStatePaths(ops[i]) && q == f(p);
      assert p in CheckpointPaths(cp);
    }
    forall q | q in Image(f, CheckpointPaths(cp)) ensures q in CheckpointPaths(RepathCheckpoint(f, cp)) {
      var p :| p in CheckpointPaths(cp) && q == f(p);
      var i :| 0 <= i < |ops| && p in OperatorStatePaths(ops[i]);
      assert q in OperatorStatePaths(ops'[i]);
    }
    assert forall i | 0 <= i < |ops| :: ops'[i] == RepathOperatorState(f, ops[i]);
  }

  /** `g` undoes `f` on every path of `ps`. */
  ghost predicate Undoes(g: Path -> Path, f: Path -> Path, ps: set<Path>) {
    forall p | p in ps :: g(f(p)) == p
  }

  lemma RepathStreamUndo(f: Path -> Path, g: Path -> Path, h: StreamStateHandle)
    requires Undoes(g, f, StreamPaths(h))
    ensures RepathStream(g, RepathStream(f, h)) == h
  {
  }

  lemma RepathStreamMapUndo(f: Path -> Path, g: Path -> Path, m: map<StateHandleId, StreamStateHandle>)
    requires Undoes(g, f, StreamMapPaths(m))
    ensures RepathStreamMap(g, RepathStreamMap(f, m)) == m
  {
    var m' := RepathStreamMap(g, RepathStreamMap(f, m));
    forall k | k in m ensures m'[k] == m[k] {
      assert Undoes(g, f, StreamPaths(m[k])) by {
        forall p | p in StreamPaths(m[k]) ensures p in StreamMapPaths(m) {}
      }
      RepathStreamUndo(f, g, m[k]);
    }
  }

  lemma RepathOperatorHandlesUndo(f: Path -> Path, g: Path -> Path, hs: seq<OperatorStateHandle>)
    requires Undoes(g, f, OperatorHandlesPaths(hs))
    ensures RepathOperatorHandles(g, RepathOperatorHandles(f, hs)) == hs
  {
    var hs' := RepathOperatorHandles(g, RepathOperatorHandles(f, hs));
    forall i | 0 <= i < |hs| ensures hs'[i] == hs[i] {
      var d := hs[i].delegateStateHandle;
      assert Undoes(g, f, StreamPaths(d)) by {
        forall p | p in StreamPaths(d) ensures p in OperatorHandlesPaths(hs) {}
      }
      RepathStreamUndo(f, g, d);
    }
  }

  lemma RepathKeyedUndo(f: Path -> Path, g: Path -> Path, h: KeyedStateHandle)
    requires Undoes(g, f, KeyedPaths(h))
    ensures RepathKeyed(g, RepathKeyed(f, h)) == h
  {
    match h
    case KeyGroupsStateHandle(_, delegate) =>
      RepathStreamUndo(f, g, delegate);
    case IncrementalRemoteKeyedStateHandle(_, _, _, shared, private, meta) =>
      RepathStreamUndo(f, g, meta);
      RepathStreamMapUndo(f, g, shared);
      RepathStreamMapUndo(f, g, private);
    case OtherKeyedStateHandle(_) =>
  }

  lemma RepathKeyedHandlesUndo(f: Path -> Path, g: Path -> Path, hs: seq<KeyedStateHandle>)
    requires Undoes(g, f, KeyedHandlesPaths(hs))
    ensures RepathKeyedHandles(g, RepathKeyedHandles(f, hs)) == hs
  {
    var hs' := RepathKeyedHandles(g, RepathKeyedHandles(f, hs));
    forall i | 0 <= i < |hs| ensures hs'[i] == hs[i] {
      assert Undoes(g, f, KeyedPaths(hs[i])) by {
        forall p | p in KeyedPaths(hs[i]) ensures p in KeyedHandlesPaths(hs) {}
      }
      RepathKeyedUndo(f, g, hs[i]);
    }
  }

  lemma RepathSubtaskUndo(f: Path -> Path, g: Path -> Path, s: OperatorSubtaskState)
    requires Undoes(g, f, SubtaskPaths(s))
    ensures RepathSubtask(g, RepathSubtask(f, s)) == s
  {
    RepathOperatorHandlesUndo(f, g, s.managedOperatorState);
    RepathOperatorHandlesUndo(f, g, s.rawOperatorState);
    RepathKeyedHandlesUndo(f, g, s.managedKeyedState);
    RepathKeyedHandlesUndo(f, g, s.rawKeyedState);
  }

  lemma RepathOperatorStateUndo(f: Path -> Path, g: Path -> Path, op: OperatorState)
    requires Undoes(g, f, OperatorStatePaths(op))
    ensures RepathOperatorState(g, RepathOperatorState(f, op)) == op
  {
    var m, m' := op.subtaskStates, RepathOperatorState(g, RepathOperatorState(f, op)).subtaskStates;
    forall k | k in m ensures m'[k] == m[k] {
      assert Undoes(g, f, SubtaskPaths(m[k])) by {
        forall p | p in SubtaskPaths(m[k]) ensures p in OperatorStatePaths(op) {}
      }
      RepathSubtaskUndo(f, g, m[k]);
    }
  }

  lemma RepathCheckpointUndo(f: Path -> Path, g: Path -> Path, cp: CheckpointMetadata)
    requires Undoes(g, f, CheckpointPaths(cp))
    ensures RepathCheckpoint(g, RepathCheckpoint(f, cp)) == cp
  {
    var ops, ops' := cp.operatorStates, RepathCheckpoint(g, RepathCheckpoint(f, cp)).operatorStates;
    forall i | 0 <= i < |ops| ensures ops'[i] == ops[i] {
      assert Undoes(g, f, OperatorStatePaths(ops[i])) by {
        forall p | p in OperatorStatePaths(ops[i]) ensures p in CheckpointPaths(cp) {}
      }
      RepathOperatorStateUndo(f, g, ops[i]);
    }
  }

  // ---------------------------------------------------------------------
  // The engine's promises about whole snapshots.

  /** A relocated snapshot references exactly the rewritten paths of the
      original, and every other field is unchanged. */
  lemma RelocatedFilePaths(roots: Roots, cp: CheckpointMetadata)
    requires RelocateCheckpoint(roots, cp).Done?
    ensures CheckpointPaths(RelocateCheckpoint(roots, cp).value) == Image(Rewrite(roots), CheckpointPaths(cp))
    ensures forall p | p in CheckpointPaths(RelocateCheckpoint(roots, cp).value) ::
      IsPrefixOf(roots.destinationPath, p)
  {
    CheckpointRelocatesExactly(roots, cp);
    RepathCheckpointPaths(Rewrite(roots), cp);
  }

  /** Relocating a snapshot and then relocating the result with the roots
      swapped gives back the original snapshot. */
  lemma RelocationRoundTrip(roots: Roots, cp: CheckpointMetadata)
    requires RelocateCheckpoint(roots, cp).Done?
    ensures RelocateCheckpoint(roots.Swapped(), RelocateCheckpoint(roots, cp).value) == Done(cp)
  {
    var f, g := Rewrite(roots), Rewrite(roots.Swapped());
    var out := RelocateCheckpoint(roots, cp).value;
    CheckpointRelocatesExactly(roots, cp);
    RepathCheckpointPaths(f, cp);
    forall p | p in CheckpointPaths(cp) ensures ConvertUri(roots.Swapped(), f(p)) == Ok(p) {
      ConvertUriRoundTrip(roots, p);
    }
    assert PathsMatch(roots.Swapped(), CheckpointPaths(out)) by {
      forall q | q in CheckpointPaths(out) ensures ConvertUri(roots.Swapped(), q).Ok? {
        var p :| p in CheckpointPaths(cp) && q == f(p);
      }
    }
    CheckpointRelocatesExactly(roots.Swapped(), out);
    RepathCheckpointUndo(f, g, cp);
  }

  /** When neither root lies inside the other, a snapshot that references a
      file and was relocated cannot be relocated again with the same roots:
      every failure the second run may report is a path mismatch. */
  lemma RelocatingTwiceFails(roots: Roots, cp: CheckpointMetadata)
    requires Unrelated(roots)
    requires CheckpointPaths(cp) != {}
    requires RelocateCheckpoint(roots, cp).Done?
    ensures RelocateCheckpoint(roots, RelocateCheckpoint(roots, cp).value).Raised?
    ensures forall e | e in RelocateCheckpoint(roots, RelocateCheckpoint(roots, cp).value).errors :: e.PathMismatch?
  {
    var out := RelocateCheckpoint(roots, cp).value;
    CheckpointRelocatesExactly(roots, cp);
    RepathCheckpointPaths(Rewrite(roots), cp);
    var p :| p in CheckpointPaths(cp);
    ConvertUriRerunFails(roots, p);
    assert Rewrite(roots)(p) in CheckpointPaths(out);
    CheckpointRelocatesExactly(roots, out);
    RelocatedFilePaths(roots, cp);
    CheckpointFailureIsLeafFailure(roots, out);
    forall e | e in RelocateCheckpoint(roots, out).errors ensures e.PathMismatch? {
      var q :| q in CheckpointPaths(out) && ConvertUri(roots, q) == Err(e);
      assert IsPrefixOf(roots.destinationPath, q);
    }
  }
}
