/** Option and Result, and the Python exceptions the extractor can raise. */
module Outcomes {

  datatype Option<+T> = None | Some(value: T) {
    function GetOr(default: T): T {
      match this
      case Some(v) => v
      case None => default
    }
  }

  /** The built-in exceptions that escape from the extraction code. */
  datatype PyError =
    | AttributeError   // `.get` called on a value that is not a dict
    | KeyError         // `d[0]` on a dict
    | IndexError       // `x[0]` on an empty list or string
    | TypeError        // `x[0]` on a number, a bool or None
    | ValueError       // `q, y = ...` with the wrong number of values

  /** A value, or the exception that was raised instead of computing it. */
  datatype Result<+T> = Ok(value: T) | Err(error: PyError) {
    predicate IsFailure() {
      Err?
    }

    function PropagateFailure<U>(): Result<U>
      requires Err?
    {
      Err(error)
    }

    function Extract(): T
      requires Ok?
    {
      value
    }
  }

  /**
    What the last element of `xs` that `pick` gives an answer for gives:
    a loop that overwrites one variable leaves it holding this value.
  */
  function LastSome<T, U>(xs: seq<T>, pick: T -> Option<U>): (r: Option<U>)
    ensures r.None? <==> forall i :: 0 <= i < |xs| ==> pick(xs[i]).None?
  {
    if xs == [] then None
    else
      assert forall i :: 0 < i < |xs| ==> xs[i] == xs[1..][i - 1];
      var later := LastSome(xs[1..], pick);
      if later.Some? then later else pick(xs[0])
  }

  /** `LastSome` is the answer of the last element that gives one. */
  lemma {:induction false} LastSomeAt<T, U>(xs: seq<T>, pick: T -> Option<U>, k: nat)
    requires k < |xs| && pick(xs[k]).Some?
    requires forall j :: k < j < |xs| ==> pick(xs[j]).None?
    ensures LastSome(xs, pick) == pick(xs[k])
  {
    if k > 0 {
      LastSomeAt(xs[1..], pick, k - 1);
    } else {
      forall i | 0 <= i < |xs[1..]| ensures pick(xs[1..][i]).None? {
        assert xs[1..][i] == xs[i + 1];
      }
    }
  }

  /** An element `pick` gives no answer for can be dropped without changing `LastSome`. */
  lemma {:induction false} LastSomeSkip<T, U>(a: seq<T>, x: T, b: seq<T>, pick: T -> Option<U>)
    requires pick(x).None?
    ensures LastSome(a + [x] + b, pick) == LastSome(a + b, pick)
    decreases |a|
  {
    if a == [] {
      assert a + [x] + b == [x] + b;
      assert ([x] + b)[1..] == b;
      assert a + b == b;
    } else {
      assert (a + [x] + b)[1..] == a[1..] + [x] + b;
      assert (a + b)[1..] == a[1..] + b;
      LastSomeSkip(a[1..], x, b, pick);
    }
  }

  /**
    A variable `v` that a loop over `xs` overwrites with each answer ends
    as `LastSome(xs, pick).GetOr(v)`: after the first element it holds
    `pick(xs[0]).GetOr(v)`, and the rest of the loop goes on from there.
  */
  lemma LastSomeFold<T, U>(xs: seq<T>, pick: T -> Option<U>, v: U)
    requires xs != []
    ensures LastSome(xs, pick).GetOr(v) == LastSome(xs[1..], pick).GetOr(pick(xs[0]).GetOr(v))
  {
  }

  /** An answer `LastSome` gives comes from some element: this lemma names its index. */
  lemma {:induction false} LastSomeWitness<T, U>(xs: seq<T>, pick: T -> Option<U>) returns (i: nat)
    requires LastSome(xs, pick).Some?
    ensures i < |xs| && pick(xs[i]) == LastSome(xs, pick)
  {
    var later := LastSome(xs[1..], pick);
    if later.Some? {
      var j := LastSomeWitness(xs[1..], pick);
      i := j + 1;
    } else {
      i := 0;
    }
  }

  /** Some element satisfies `p` exactly when the first does or one of the rest does. */
  lemma SomeShift<T>(xs: seq<T>, p: T -> bool)
    requires xs != []
    ensures (exists i :: 0 <= i < |xs| && p(xs[i])) <==> p(xs[0]) || exists i :: 0 <= i < |xs[1..]| && p(xs[1..][i])
  {
    if exists i :: 0 <= i < |xs| && p(xs[i]) {
      var i :| 0 <= i < |xs| && p(xs[i]);
      if i > 0 {
        assert xs[1..][i - 1] == xs[i];
      }
    }
    if exists i :: 0 <= i < |xs[1..]| && p(xs[1..][i]) {
      var i :| 0 <= i < |xs[1..]| && p(xs[1..][i]);
      assert xs[i + 1] == xs[1..][i];
    }
  }
}
