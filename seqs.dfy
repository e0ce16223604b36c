/** Filtering a sequence through a partial step, the shape of every
    "append what qualifies" loop of the claim processor. */
module Seqs {
  import opened Wrappers

  /** The results of `f` on `xs`, in order, where `f` gives one. */
  function Collect<A, B>(f: A -> Option<B>, xs: seq<A>): (ys: seq<B>)
    ensures |ys| <= |xs|
  {
    if xs == [] then []
    else
      var rest := Collect(f, xs[..|xs| - 1]);
      match f(xs[|xs| - 1])
      case Some(y) => rest + [y]
      case None => rest
  }

  /** `y` is the result of `f` on one of `xs`. */
  ghost predicate ResultOf<A, B>(f: A -> Option<B>, xs: seq<A>, y: B) {
    exists j :: 0 <= j < |xs| && f(xs[j]) == Some(y)
  }

  /** Every collected result is the result of `f` on one of the inputs. */
  lemma {:induction false} CollectFrom<A, B>(f: A -> Option<B>, xs: seq<A>)
    ensures forall k :: 0 <= k < |Collect(f, xs)| ==> ResultOf(f, xs, Collect(f, xs)[k])
    decreases |xs|
  {
    if xs != [] {
      var front := xs[..|xs| - 1];
      CollectFrom(f, front);
      var rest := Collect(f, front);
      var ys := Collect(f, xs);
      forall k | 0 <= k < |ys| ensures ResultOf(f, xs, ys[k]) {
        if k < |rest| {
          assert ResultOf(f, front, rest[k]);
          var j :| 0 <= j < |front| && f(front[j]) == Some(rest[k]);
          assert xs[j] == front[j];
        } else {
          assert f(xs[|xs| - 1]) == Some(ys[k]);
        }
      }
    }
  }

  /** Collecting over two blocks collects over the first, then the second. */
  lemma {:induction false} CollectAppend<A, B>(f: A -> Option<B>, xs: seq<A>, zs: seq<A>)
    ensures Collect(f, xs + zs) == Collect(f, xs) + Collect(f, zs)
    decreases |zs|
  {
    if zs == [] {
      assert xs + zs == xs;
    } else {
      var zs' := zs[..|zs| - 1];
      assert (xs + zs)[..|xs + zs| - 1] == xs + zs';
      assert (xs + zs)[|xs + zs| - 1] == zs[|zs| - 1];
      CollectAppend(f, xs, zs');
    }
  }

  /** One more input adds its result, if it has one, at the end. */
  lemma CollectSnoc<A, B>(f: A -> Option<B>, xs: seq<A>, x: A)
    ensures Collect(f, xs + [x]) == Collect(f, xs) + (if f(x).Some? then [f(x).value] else [])
  {
    assert (xs + [x])[..|xs + [x]| - 1] == xs;
    assert (xs + [x])[|xs + [x]| - 1] == x;
  }

  /** When `f` keeps every input as it is, collecting changes nothing. */
  lemma {:induction false} CollectFixed<A>(f: A -> Option<A>, xs: seq<A>)
    requires forall i :: 0 <= i < |xs| ==> f(xs[i]) == Some(xs[i])
    ensures Collect(f, xs) == xs
    decreases |xs|
  {
    if xs != [] {
      var front := xs[..|xs| - 1];
      assert forall i :: 0 <= i < |front| ==> front[i] == xs[i];
      CollectFixed(f, front);
    }
  }

  /** Each input with a result contributes it: `f(x) == Some(y)` for an input
      `x` puts `y` among the results. */
  lemma {:induction false} CollectComplete<A, B>(f: A -> Option<B>, xs: seq<A>, j: nat)
    requires j < |xs| && f(xs[j]).Some?
    ensures f(xs[j]).value in Collect(f, xs)
    decreases |xs|
  {
    if j < |xs| - 1 {
      var front := xs[..|xs| - 1];
      assert front[j] == xs[j];
      CollectComplete(f, front, j);
    }
  }

  /** `f` applied to each of `xs` in order, stopping at the first error, as a
      loop that appends each result and lets an exception escape does. */
  function MapAll<A, B, E>(f: A -> Result<B, E>, xs: seq<A>): (r: Result<seq<B>, E>)
    ensures r.Ok? ==> |r.value| == |xs| && forall i :: 0 <= i < |xs| ==> f(xs[i]) == Ok(r.value[i])
  {
    if xs == [] then Ok([])
    else
      match MapAll(f, xs[..|xs| - 1])
      case Err(e) => Err(e)
      case Ok(ys) =>
        match f(xs[|xs| - 1])
        case Err(e) => Err(e)
        case Ok(y) =>
          assert forall i :: 0 <= i < |xs| - 1 ==> xs[..|xs| - 1][i] == xs[i];
          Ok(ys + [y])
  }

  /** One more input: its result is appended, or its error ends the run. */
  lemma MapAllSnoc<A, B, E>(f: A -> Result<B, E>, xs: seq<A>, x: A)
    requires MapAll(f, xs).Ok?
    ensures MapAll(f, xs + [x]) == if f(x).Ok? then Ok(MapAll(f, xs).value + [f(x).value]) else Err(f(x).error)
  {
    assert (xs + [x])[..|xs + [x]| - 1] == xs;
    assert (xs + [x])[|xs + [x]| - 1] == x;
  }

  /** Once a prefix fails, the whole run fails with the same error. */
  lemma {:induction false} MapAllErrorStays<A, B, E>(f: A -> Result<B, E>, xs: seq<A>, n: nat)
    requires n <= |xs| && MapAll(f, xs[..n]).Err?
    ensures MapAll(f, xs) == MapAll(f, xs[..n])
    decreases |xs| - n
  {
    if n < |xs| {
      assert xs[..n + 1][..n] == xs[..n];
      MapAllErrorStays(f, xs, n + 1);
    } else {
      assert xs[..n] == xs;
    }
  }

  /** The run fails exactly when some input fails, and then with the error of
      the first input that fails. */
  lemma {:induction false} MapAllError<A, B, E>(f: A -> Result<B, E>, xs: seq<A>)
    ensures MapAll(f, xs).Err? <==> exists i :: 0 <= i < |xs| && f(xs[i]).Err?
    ensures MapAll(f, xs).Err? ==>
      exists i :: 0 <= i < |xs| && f(xs[i]) == Err(MapAll(f, xs).error) && forall k :: 0 <= k < i ==> f(xs[k]).Ok?
    decreases |xs|
  {
    if xs != [] {
      var front := xs[..|xs| - 1];
      assert forall i :: 0 <= i < |front| ==> front[i] == xs[i];
      MapAllError(f, front);
      if MapAll(f, front).Err? {
        var i :| 0 <= i < |front| && f(front[i]) == Err(MapAll(f, front).error) && forall k :: 0 <= k < i ==> f(front[k]).Ok?;
        assert f(xs[i]) == Err(MapAll(f, xs).error);
      } else if f(xs[|xs| - 1]).Err? {
        assert forall k :: 0 <= k < |xs| - 1 ==> f(xs[k]).Ok?;
      }
    }
  }

  /** The result of the first of `xs`, in order, on which `f` gives one. */
  function FirstSome<A, B>(f: A -> Option<B>, xs: seq<A>): Option<B>
  {
    if xs == [] then None
    else if f(xs[0]).Some? then f(xs[0])
    else FirstSome(f, xs[1..])
  }

  /** First success wins: the result is that of some input all of whose
      predecessors give none, and there is none exactly when no input gives one. */
  lemma {:induction false} FirstSomeIsFirst<A, B>(f: A -> Option<B>, xs: seq<A>)
    ensures FirstSome(f, xs).None? <==> forall j :: 0 <= j < |xs| ==> f(xs[j]).None?
    ensures FirstSome(f, xs).Some? ==>
      exists i :: 0 <= i < |xs| && f(xs[i]) == FirstSome(f, xs) && forall j :: 0 <= j < i ==> f(xs[j]).None?
    decreases |xs|
  {
    if xs != [] && f(xs[0]).None? {
      var rest := xs[1..];
      FirstSomeIsFirst(f, rest);
      assert forall j :: 1 <= j < |xs| ==> xs[j] == rest[j - 1];
      if FirstSome(f, rest).Some? {
        var i :| 0 <= i < |rest| && f(rest[i]) == FirstSome(f, rest) && forall j :: 0 <= j < i ==> f(rest[j]).None?;
        assert xs[i + 1] == rest[i];
        assert forall j :: 0 <= j < i + 1 ==> f(xs[j]).None?;
      }
    }
  }

  /** Inputs behind one that gives a result are never consulted. */
  lemma {:induction false} FirstSomePrefix<A, B>(f: A -> Option<B>, xs: seq<A>, more: seq<A>)
    requires FirstSome(f, xs).Some?
    ensures FirstSome(f, xs + more) == FirstSome(f, xs)
    decreases |xs|
  {
    assert (xs + more)[0] == xs[0];
    if f(xs[0]).None? {
      assert (xs + more)[1..] == xs[1..] + more;
      FirstSomePrefix(f, xs[1..], more);
    }
  }

  /** The first `n` elements, or all of them when there are fewer (`xs[:n]`). */
  function Take<T>(xs: seq<T>, n: nat): (ys: seq<T>)
    ensures |ys| == if |xs| <= n then |xs| else n
    ensures forall k :: 0 <= k < |ys| ==> ys[k] == xs[k]
  {
    if |xs| <= n then xs else xs[..n]
  }
}
