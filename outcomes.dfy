/** Success and failure of the relocation engine.

    A single run of the engine either returns a value or throws one exception:
    that is a `Result`. The engine iterates over hash maps, whose order is not
    fixed, so when several entries would fail, which failure a run reports
    depends on that order. The specification of a traversal is therefore an
    `Outcome`: either the one value every iteration order produces, or the set
    of failures that some iteration order raises first. */
module Outcomes {

  datatype Option<T> = None | Some(value: T)

  datatype Result<T, E> = Ok(value: T) | Err(error: E)

  datatype Outcome<T, E> = Done(value: T) | Raised(errors: set<E>)

  /** A run that returned `r` is one of the runs that `o` describes. */
  ghost predicate Realizes<T, E>(r: Result<T, E>, o: Outcome<T, E>) {
    match o
    case Done(v) => r == Ok(v)
    case Raised(es) => r.Err? && r.error in es
  }

  /** Some element of a non-empty set: the entry a hash-map iteration visits next. */
  lemma PickOne<T>(s: set<T>) returns (x: T)
    requires s != {}
    ensures x in s
  {
    x :| x in s;
  }

  /** The outcome of a step whose failure is deterministic. */
  function FromResult<T, E>(r: Result<T, E>): (o: Outcome<T, E>)
    ensures Realizes(r, o)
    ensures o.Raised? ==> o.errors == {r.error}
  {
    match r
    case Ok(v) => Done(v)
    case Err(e) => Raised({e})
  }

  /** Applies `f` to the elements of `xs` from first to last, as a for-each
      loop over a list does, and stops at the first element that fails. */
  function Traverse<A, B, E>(f: A -> Outcome<B, E>, xs: seq<A>): (o: Outcome<seq<B>, E>)
    ensures o.Done? <==> forall i | 0 <= i < |xs| :: f(xs[i]).Done?
    ensures o.Done? ==> |o.value| == |xs| && forall i | 0 <= i < |xs| :: f(xs[i]) == Done(o.value[i])
    ensures o.Raised? ==>
      exists i | 0 <= i < |xs| ::
        f(xs[i]).Raised? && o.errors == f(xs[i]).errors && forall j | 0 <= j < i :: f(xs[j]).Done?
    decreases |xs|
  {
    if xs == [] then Done([])
    else
      var init := Traverse(f, xs[..|xs| - 1]);
      if init.Raised? then Raised(init.errors)
      else
        match f(xs[|xs| - 1])
        case Raised(es) => Raised(es)
        case Done(y) => Done(init.value + [y])
  }

  /** When every element before position `i` succeeds and element `i` fails,
      the traversal fails exactly as element `i` does. */
  lemma TraverseFirstFailure<A, B, E>(f: A -> Outcome<B, E>, xs: seq<A>, i: nat)
    requires i < |xs|
    requires Traverse(f, xs[..i]).Done?
    requires f(xs[i]).Raised?
    ensures Traverse(f, xs) == Raised(f(xs[i]).errors)
  {
    var o := Traverse(f, xs);
    assert forall j | 0 <= j < i :: f(xs[j]).Done? by {
      forall j | 0 <= j < i ensures f(xs[j]).Done? {
        assert xs[..i][j] == xs[j];
      }
    }
    var k :| 0 <= k < |xs| && f(xs[k]).Raised? && o.errors == f(xs[k]).errors
             && forall j | 0 <= j < k :: f(xs[j]).Done?;
    assert k == i;
  }

  /** A successful traversal of a prefix extends by one successful element. */
  lemma TraverseSnoc<A, B, E>(f: A -> Outcome<B, E>, xs: seq<A>, i: nat, ys: seq<B>, y: B)
    requires i < |xs|
    requires Traverse(f, xs[..i]) == Done(ys)
    requires f(xs[i]) == Done(y)
    ensures Traverse(f, xs[..i + 1]) == Done(ys + [y])
  {
    assert xs[..i + 1][..i] == xs[..i];
  }

  /** The translation of a one-element list is the list of the element's
      translation. */
  lemma TraverseOne<A, B, E>(f: A -> Outcome<B, E>, x: A)
    requires f(x).Done?
    ensures Traverse(f, [x]) == Done([f(x).value])
  {
    assert [x][..0] == [];
    TraverseSnoc(f, [x], 0, [], f(x).value);
    assert [x][..1] == [x];
    assert [] + [f(x).value] == [f(x).value];
  }

  /** Applies `f` to every value of `m`, in no particular order: the map of
      the results when every value succeeds, otherwise the failures of the
      failing values, any of which an iteration order may meet first. */
  function TraverseMap<K, A, B, E>(f: A -> Outcome<B, E>, m: map<K, A>): (o: Outcome<map<K, B>, E>)
    ensures o.Done? <==> forall k | k in m :: f(m[k]).Done?
    ensures o.Done? ==> o.value.Keys == m.Keys && forall k | k in m :: f(m[k]) == Done(o.value[k])
    ensures forall k | k in m && f(m[k]).Raised? :: o.Raised? && f(m[k]).errors <= o.errors
    ensures o.Raised? ==>
      forall e | e in o.errors :: exists k | k in m :: f(m[k]).Raised? && e in f(m[k]).errors
  {
    if forall k | k in m :: f(m[k]).Done? then
      Done(map k | k in m :: f(m[k]).value)
    else
      Raised(set k, e | k in m && f(m[k]).Raised? && e in f(m[k]).errors :: e)
  }

  /** The entry a failure of `TraverseMap` comes from. */
  lemma TraverseMapFailureSource<K, A, B, E>(f: A -> Outcome<B, E>, m: map<K, A>, e: E) returns (k: K)
    requires TraverseMap(f, m).Raised? && e in TraverseMap(f, m).errors
    ensures k in m && f(m[k]).Raised? && e in f(m[k]).errors
  {
    k :| k in m && f(m[k]).Raised? && e in f(m[k]).errors;
  }

  /** The translation of a one-entry map is the map of the entry's
      translation. */
  lemma TraverseMapOne<K, A, B, E>(f: A -> Outcome<B, E>, k: K, x: A)
    requires f(x).Done?
    ensures TraverseMap(f, map[k := x]) == Done(map[k := f(x).value])
  {
    var m := map[k := x];
    assert forall k' | k' in m :: f(m[k']).Done?;
    var o := TraverseMap(f, m);
    assert o.value.Keys == {k} && f(m[k]) == Done(o.value[k]);
    assert o.value == map[k := f(x).value];
  }
}
