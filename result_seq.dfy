/** Applying a failing step to every element of a sequence, left to right,
    stopping at the first failure: the shape of every `foreach` in the
    formatter that pushes onto `$elements` and may throw on the way. */
module ResultSeq {
  import opened Wrappers

  /** Concatenation of a sequence of sequences, in order. */
  function Flatten<T>(xss: seq<seq<T>>): (r: seq<T>)
    decreases |xss|
  {
    if xss == [] then [] else Flatten(xss[..|xss| - 1]) + xss[|xss| - 1]
  }

  /** `f` applied to each element in order; the first failure is the result. */
  function MapAll<A, B, E>(f: A -> Result<B, E>, xs: seq<A>): (r: Result<seq<B>, E>)
    ensures r.Ok? ==> |r.value| == |xs|
    decreases |xs|
  {
    if xs == [] then Ok([])
    else
      match MapAll(f, xs[..|xs| - 1])
      case Err(e) => Err(e)
      case Ok(ys) =>
        match f(xs[|xs| - 1])
        case Err(e) => Err(e)
        case Ok(y) => Ok(ys + [y])
  }

  /** `f` applied to each element in order, the produced sequences concatenated;
      the first failure is the result. */
  function FlatMapAll<A, B, E>(f: A -> Result<seq<B>, E>, xs: seq<A>): (r: Result<seq<B>, E>)
    decreases |xs|
  {
    if xs == [] then Ok([])
    else
      match FlatMapAll(f, xs[..|xs| - 1])
      case Err(e) => Err(e)
      case Ok(ys) =>
        match f(xs[|xs| - 1])
        case Err(e) => Err(e)
        case Ok(y) => Ok(ys + y)
  }

  /** One more element: the loop step of a method computing `MapAll`. */
  lemma MapAllSnoc<A, B, E>(f: A -> Result<B, E>, xs: seq<A>, x: A)
    ensures MapAll(f, xs + [x]) ==
      match MapAll(f, xs)
      case Err(e) => Err(e)
      case Ok(ys) => (match f(x) case Err(e) => Err(e) case Ok(y) => Ok(ys + [y]))
  {
    assert (xs + [x])[..|xs + [x]| - 1] == xs;
  }

  /** One more element: the loop step of a method computing `FlatMapAll`. */
  lemma FlatMapAllSnoc<A, B, E>(f: A -> Result<seq<B>, E>, xs: seq<A>, x: A)
    ensures FlatMapAll(f, xs + [x]) ==
      match FlatMapAll(f, xs)
      case Err(e) => Err(e)
      case Ok(ys) => (match f(x) case Err(e) => Err(e) case Ok(y) => Ok(ys + y))
  {
    assert (xs + [x])[..|xs + [x]| - 1] == xs;
  }

  /** The loop step of a method computing `MapAll(f, xs)`: the next
      element succeeds and its result is appended. */
  lemma MapAllStep<A, B, E>(f: A -> Result<B, E>, xs: seq<A>, i: nat, acc: seq<B>, y: B)
    requires i < |xs| && MapAll(f, xs[..i]) == Ok(acc) && f(xs[i]) == Ok(y)
    ensures MapAll(f, xs[..i + 1]) == Ok(acc + [y])
  {
    MapAllSnoc(f, xs[..i], xs[i]);
    assert xs[..i + 1] == xs[..i] + [xs[i]];
  }

  /** The loop exit of a method computing `MapAll(f, xs)` on a failure:
      the failure of the next element is the result. */
  lemma MapAllStepErr<A, B, E>(f: A -> Result<B, E>, xs: seq<A>, i: nat, acc: seq<B>)
    requires i < |xs| && MapAll(f, xs[..i]) == Ok(acc) && f(xs[i]).Err?
    ensures MapAll(f, xs) == Err(f(xs[i]).error)
  {
    MapAllSnoc(f, xs[..i], xs[i]);
    assert xs[..i + 1] == xs[..i] + [xs[i]];
    MapAllPrefixErr(f, xs, i + 1);
  }

  /** The loop step of a method computing `FlatMapAll(f, xs)`. */
  lemma FlatMapAllStep<A, B, E>(f: A -> Result<seq<B>, E>, xs: seq<A>, i: nat, acc: seq<B>, y: seq<B>)
    requires i < |xs| && FlatMapAll(f, xs[..i]) == Ok(acc) && f(xs[i]) == Ok(y)
    ensures FlatMapAll(f, xs[..i + 1]) == Ok(acc + y)
  {
    FlatMapAllSnoc(f, xs[..i], xs[i]);
    assert xs[..i + 1] == xs[..i] + [xs[i]];
  }

  /** The loop exit of a method computing `FlatMapAll(f, xs)` on a failure. */
  lemma FlatMapAllStepErr<A, B, E>(f: A -> Result<seq<B>, E>, xs: seq<A>, i: nat, acc: seq<B>)
    requires i < |xs| && FlatMapAll(f, xs[..i]) == Ok(acc) && f(xs[i]).Err?
    ensures FlatMapAll(f, xs) == Err(f(xs[i]).error)
  {
    FlatMapAllSnoc(f, xs[..i], xs[i]);
    assert xs[..i + 1] == xs[..i] + [xs[i]];
    FlatMapAllPrefixErr(f, xs, i + 1);
  }

  /** A failure on a prefix is the failure of the whole: no partial result. */
  lemma {:induction false} MapAllPrefixErr<A, B, E>(f: A -> Result<B, E>, xs: seq<A>, k: nat)
    requires k <= |xs|
    requires MapAll(f, xs[..k]).Err?
    ensures MapAll(f, xs) == MapAll(f, xs[..k])
    decreases |xs| - k
  {
    if k < |xs| {
      MapAllSnoc(f, xs[..k], xs[k]);
      assert xs[..k + 1] == xs[..k] + [xs[k]];
      MapAllPrefixErr(f, xs, k + 1);
    } else {
      assert xs[..k] == xs;
    }
  }

  /** A failure on a prefix is the failure of the whole: no partial result. */
  lemma {:induction false} FlatMapAllPrefixErr<A, B, E>(f: A -> Result<seq<B>, E>, xs: seq<A>, k: nat)
    requires k <= |xs|
    requires FlatMapAll(f, xs[..k]).Err?
    ensures FlatMapAll(f, xs) == FlatMapAll(f, xs[..k])
    decreases |xs| - k
  {
    if k < |xs| {
      FlatMapAllSnoc(f, xs[..k], xs[k]);
      assert xs[..k + 1] == xs[..k] + [xs[k]];
      FlatMapAllPrefixErr(f, xs, k + 1);
    } else {
      assert xs[..k] == xs;
    }
  }

  /** All or nothing: the mapping succeeds exactly when every step does, and
      then its i-th result is the i-th step's result. */
  lemma {:induction false} MapAllSpec<A, B, E>(f: A -> Result<B, E>, xs: seq<A>)
    ensures MapAll(f, xs).Ok? <==> (forall i :: 0 <= i < |xs| ==> f(xs[i]).Ok?)
    ensures MapAll(f, xs).Ok? ==>
      forall i :: 0 <= i < |xs| ==> MapAll(f, xs).value[i] == f(xs[i]).value
    decreases |xs|
  {
    if xs != [] {
      var init := xs[..|xs| - 1];
      MapAllSpec(f, init);
      assert forall i :: 0 <= i < |init| ==> init[i] == xs[i];
    }
  }

  /** The failure reported is that of the first failing element. */
  lemma {:induction false} MapAllFirstError<A, B, E>(f: A -> Result<B, E>, xs: seq<A>)
    requires MapAll(f, xs).Err?
    ensures exists k :: 0 <= k < |xs| && f(xs[k]).Err? && MapAll(f, xs).error == f(xs[k]).error &&
                        forall j :: 0 <= j < k ==> f(xs[j]).Ok?
    decreases |xs|
  {
    var init := xs[..|xs| - 1];
    assert forall i :: 0 <= i < |init| ==> init[i] == xs[i];
    if MapAll(f, init).Err? {
      MapAllFirstError(f, init);
      var k :| 0 <= k < |init| && f(init[k]).Err? && MapAll(f, init).error == f(init[k]).error &&
               forall j :: 0 <= j < k ==> f(init[j]).Ok?;
      assert f(xs[k]).Err?;
    } else {
      MapAllSpec(f, init);
      var k := |xs| - 1;
      assert f(xs[k]).Err?;
      assert forall j :: 0 <= j < k ==> f(xs[j]).Ok?;
    }
  }

  /** Mapping then concatenating is concatenating the per-element results. */
  lemma {:induction false} FlatMapAllIsFlatten<A, B, E>(f: A -> Result<seq<B>, E>, xs: seq<A>)
    ensures FlatMapAll(f, xs) ==
      match MapAll(f, xs)
      case Err(e) => Err(e)
      case Ok(yss) => Ok(Flatten(yss))
    decreases |xs|
  {
    if xs != [] {
      FlatMapAllIsFlatten(f, xs[..|xs| - 1]);
      match MapAll(f, xs[..|xs| - 1])
      case Err(e) =>
      case Ok(yss) =>
        match f(xs[|xs| - 1])
        case Err(e) =>
        case Ok(y) =>
          assert (yss + [y])[..|yss + [y]| - 1] == yss;
    }
  }
}
