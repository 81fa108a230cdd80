/** Option and Result, the shapes the server's Rust code returns everywhere. */
module Wrappers {

  datatype Option<+T> = None | Some(value: T) {
    function UnwrapOr(default: T): T {
      match this
      case Some(v) => v
      case None => default
    }
  }

  datatype Result<+T, +E> = Ok(value: T) | Err(error: E)

  /** `iter().filter_map(f)`: the `Some` values of `f` over `xs`, in order. */
  function FilterMap<A, B>(f: A -> Option<B>, xs: seq<A>): (ys: seq<B>)
    ensures |ys| <= |xs|
  {
    if xs == [] then []
    else (if f(xs[0]).Some? then [f(xs[0]).value] else []) + FilterMap(f, xs[1..])
  }

  lemma FilterMapCons<A, B>(f: A -> Option<B>, x: A, xs: seq<A>)
    ensures FilterMap(f, [x] + xs) == (if f(x).Some? then [f(x).value] else []) + FilterMap(f, xs)
  {
    assert ([x] + xs)[1..] == xs;
  }

  /** Every value kept is the image of some element. */
  lemma {:induction false} FilterMapSound<A, B>(f: A -> Option<B>, xs: seq<A>, k: nat)
    requires k < |FilterMap(f, xs)|
    ensures exists i :: 0 <= i < |xs| && f(xs[i]) == Some(FilterMap(f, xs)[k])
  {
    if f(xs[0]).Some? && k == 0 {
      assert f(xs[0]) == Some(FilterMap(f, xs)[0]);
    } else {
      var j := if f(xs[0]).Some? then k - 1 else k;
      assert FilterMap(f, xs)[k] == FilterMap(f, xs[1..])[j];
      FilterMapSound(f, xs[1..], j);
      var i :| 0 <= i < |xs[1..]| && f(xs[1..][i]) == Some(FilterMap(f, xs[1..])[j]);
      assert xs[1..][i] == xs[i + 1];
    }
  }

  function Min(a: nat, b: nat): nat {
    if a <= b then a else b
  }
}
