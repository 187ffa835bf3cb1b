/** internal/platform/web/middleware.go: a Middleware turns a handler into a
    handler, and wrapMiddleware layers a list of them around a final handler.
    The module is generic in the handler type; `None` stands for a nil entry. */
module WebMiddleware {
  import opened Wrappers

  /** The meaning of wrapMiddleware: the first entry ends up outermost, nil
      entries are skipped (a right fold over the list). */
  function Wrap<H>(mw: seq<Option<H -> H>>, h: H): H
    decreases |mw|
  {
    if |mw| == 0 then h
    else
      var rest := Wrap(mw[1..], h);
      if mw[0].Some? then mw[0].value(rest) else rest
  }

  /** The plain composition of a list of middleware with no nil entries:
      `Compose([m0, m1, ..., mk], h) == m0(m1(...mk(h)))`. */
  function Compose<H>(ms: seq<H -> H>, h: H): H
    decreases |ms|
  {
    if |ms| == 0 then h else ms[0](Compose(ms[1..], h))
  }

  /** The non-nil entries of a middleware list, in list order. */
  function Present<H>(mw: seq<Option<H -> H>>): (ms: seq<H -> H>)
    ensures |ms| <= |mw|
    decreases |mw|
  {
    if |mw| == 0 then []
    else if mw[0].Some? then [mw[0].value] + Present(mw[1..])
    else Present(mw[1..])
  }

  /** wrapMiddleware: counts down from the last entry and reassigns the handler
      once per non-nil entry. */
  method WrapMiddleware<H>(mw: seq<Option<H -> H>>, handler: H) returns (wrapped: H)
    ensures wrapped == Wrap(mw, handler)
  {
    wrapped := handler;
    var i := |mw|;
    while i > 0
      invariant 0 <= i <= |mw|
      invariant wrapped == Wrap(mw[i..], handler)
    {
      i := i - 1;
      assert mw[i..][1..] == mw[i + 1..];
      var m := mw[i];
      if m.Some? {
        wrapped := m.value(wrapped);
      }
    }
    assert mw[0..] == mw;
  }

  /** Wrapping with an empty list returns the handler unchanged. */
  lemma WrapEmpty<H>(h: H)
    ensures Wrap([], h) == h
  {
  }

  /** Fold law: wrapping with `a + b` is wrapping with `b` first, then with `a`. */
  lemma {:induction false} WrapAppend<H>(a: seq<Option<H -> H>>, b: seq<Option<H -> H>>, h: H)
    ensures Wrap(a + b, h) == Wrap(a, Wrap(b, h))
    decreases |a|
  {
    if a == [] {
      assert a + b == b;
    } else {
      assert (a + b)[1..] == a[1..] + b;
      WrapAppend(a[1..], b, h);
    }
  }

  /** Nil entries are skipped and every non-nil entry is applied exactly once,
      in list order, the first one outermost. */
  lemma {:induction false} WrapIsCompose<H>(mw: seq<Option<H -> H>>, h: H)
    ensures Wrap(mw, h) == Compose(Present(mw), h)
    decreases |mw|
  {
    if mw != [] {
      WrapIsCompose(mw[1..], h);
      if mw[0].Some? {
        assert Present(mw)[1..] == Present(mw[1..]);
      }
    }
  }

  /** The first non-nil entry becomes the outermost layer. */
  lemma {:induction false} WrapOutermost<H>(m: H -> H, rest: seq<Option<H -> H>>, h: H)
    ensures Wrap([Some(m)] + rest, h) == m(Wrap(rest, h))
  {
    assert ([Some(m)] + rest)[1..] == rest;
  }

  /** A list of only nil entries leaves the handler unchanged. */
  lemma {:induction false} WrapAllNil<H>(mw: seq<Option<H -> H>>, h: H)
    requires forall i :: 0 <= i < |mw| ==> mw[i] == None
    ensures Wrap(mw, h) == h
    decreases |mw|
  {
    if mw != [] {
      WrapAllNil(mw[1..], h);
    }
  }
}
