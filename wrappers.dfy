/** Option and Result, used for Python's `None` and for operations that raise. */
module Wrappers {

  datatype Option<+T> = None | Some(value: T) {
    /** `x if x is not None else d` */
    function GetOr(d: T): T {
      match this
      case Some(v) => v
      case None => d
    }
  }

  datatype Result<+T> = Ok(value: T) | Err(msg: string)

  /** A loop that reads each element in turn and stops at the first that raises: the
      readings in order, or that first error. */
  function Collect<X, Y>(xs: seq<X>, read: X -> Result<Y>): (r: Result<seq<Y>>)
    decreases |xs|
  {
    if |xs| == 0 then Ok([])
    else
      match Collect(xs[..|xs| - 1], read)
      case Err(m) => Err(m)
      case Ok(ys) =>
        match read(xs[|xs| - 1])
        case Err(m) => Err(m)
        case Ok(y) => Ok(ys + [y])
  }

  /** Reading one more element appends its value. */
  lemma CollectGrow<X, Y>(xs: seq<X>, i: nat, read: X -> Result<Y>, ys: seq<Y>)
    requires i < |xs| && Collect(xs[..i], read) == Ok(ys) && read(xs[i]).Ok?
    ensures Collect(xs[..i + 1], read) == Ok(ys + [read(xs[i]).value])
  {
    assert xs[..i + 1][..i] == xs[..i];
  }

  /** `Collect` reads element for element: it succeeds exactly when every reading does,
      and then its i-th value is the reading of the i-th element. */
  lemma {:induction false} CollectPointwise<X, Y>(xs: seq<X>, read: X -> Result<Y>)
    ensures Collect(xs, read).Ok? <==> forall i :: 0 <= i < |xs| ==> read(xs[i]).Ok?
    ensures Collect(xs, read).Ok? ==> (|Collect(xs, read).value| == |xs| &&
      forall i :: 0 <= i < |xs| ==> read(xs[i]) == Ok(Collect(xs, read).value[i]))
    decreases |xs|
  {
    if |xs| > 0 {
      var n := |xs| - 1;
      var init := xs[..n];
      assert forall i :: 0 <= i < n ==> init[i] == xs[i];
      CollectPointwise(init, read);
      match Collect(init, read)
      case Err(_) =>
        var i :| 0 <= i < n && !read(init[i]).Ok?;
        assert !read(xs[i]).Ok?;
      case Ok(ys) =>
        match read(xs[n])
        case Err(_) =>
        case Ok(y) =>
          var r := ys + [y];
          assert Collect(xs, read) == Ok(r);
          assert forall i :: 0 <= i < n ==> r[i] == ys[i];
    }
  }

  /** When every reading raises only with `m`, so does `Collect`. */
  lemma {:induction false} CollectErr<X, Y>(xs: seq<X>, read: X -> Result<Y>, m: string)
    requires forall x :: read(x).Err? ==> read(x) == Err(m)
    ensures Collect(xs, read).Err? ==> Collect(xs, read) == Err(m)
    decreases |xs|
  {
    if |xs| > 0 {
      CollectErr(xs[..|xs| - 1], read, m);
    }
  }
}
