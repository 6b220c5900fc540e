/** Optional values and fallible results, used wherever the source returns
    `null`/`undefined` or throws. */
module Results {

  datatype Option<+T> = None | Some(value: T) {
    function GetOr(default: T): T {
      match this
      case Some(v) => v
      case None => default
    }
  }

  datatype Result<+T, +E> = Ok(value: T) | Err(error: E)

  /** The present values, in order. */
  function Somes<T>(xs: seq<Option<T>>): (r: seq<T>)
    ensures |r| <= |xs|
  {
    if xs == [] then []
    else Somes(xs[..|xs| - 1]) + (if xs[|xs| - 1].Some? then [xs[|xs| - 1].value] else [])
  }

  lemma {:induction false} SomesConcat<T>(a: seq<Option<T>>, b: seq<Option<T>>)
    ensures Somes(a + b) == Somes(a) + Somes(b)
    decreases |b|
  {
    if b == [] {
      assert a + b == a;
    } else {
      var init := b[..|b| - 1];
      assert (a + b)[..|a + b| - 1] == a + init;
      assert (a + b)[|a + b| - 1] == b[|b| - 1];
      SomesConcat(a, init);
    }
  }

  /** Every present value comes from some position. */
  lemma {:induction false} SomesSound<T>(xs: seq<Option<T>>, y: T)
    requires y in Somes(xs)
    ensures exists k :: 0 <= k < |xs| && xs[k] == Some(y)
    decreases |xs|
  {
    var init := xs[..|xs| - 1];
    if y in Somes(init) {
      SomesSound(init, y);
      var k :| 0 <= k < |init| && init[k] == Some(y);
      assert xs[k] == init[k];
    } else {
      assert xs[|xs| - 1] == Some(y);
    }
  }

  /** Every position holding a value contributes it. */
  lemma {:induction false} SomesComplete<T>(xs: seq<Option<T>>, k: nat)
    requires k < |xs| && xs[k].Some?
    ensures xs[k].value in Somes(xs)
    decreases |xs|
  {
    var init := xs[..|xs| - 1];
    if k < |init| {
      assert init[k] == xs[k];
      SomesComplete(init, k);
    }
  }
}
