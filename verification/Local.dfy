/** src/trust/local.rs: the property in a cell, operated on in place, the simple
    sequential specification that the remote side must agree with. */
module Locals {
  import opened Operations

  class Local<T(0)> {
    var inner: T

    constructor (value: T)
      ensures inner == value
    {
      inner := value;
    }

    method Apply<R>(f: T -> (T, R)) returns (r: R)
      modifies this
      ensures (inner, r) == f(old(inner))
    {
      var out := f(inner);
      inner := out.0;
      r := out.1;
    }

    method ApplyWith<V, R>(f: (T, V) -> (T, R), w: V) returns (r: R)
      modifies this
      ensures (inner, r) == f(old(inner), w)
    {
      var out := f(inner, w);
      inner := out.0;
      r := out.1;
    }

    method With<R>(f: T -> R) returns (r: R)
      ensures r == f(inner)
    {
      r := f(inner);
    }

    /** `n` is a u8. */
    method ApplyBatchMut(f: T -> T, n: nat)
      requires n < 256
      modifies this
      ensures inner == Iterate(f, n, old(inner))
    {
      for i := 0 to n
        invariant inner == Iterate(f, i, old(inner))
      {
        inner := f(inner);
      }
    }

    method IntoInner() returns (v: T)
      ensures v == inner
    {
      v := inner;
    }

    /** Perform one request as the operations above do. */
    method Perform<R>(req: Request<T, R>) returns (reply: Reply<T, R>)
      requires !req.Terminate? && (req.CallMutRetUnit? ==> req.repeat < 256)
      modifies this
      ensures req.CallMutRetUnit? ==> inner == Iterate(req.f, req.repeat, old(inner)) && reply == Nothing
      ensures req.CallMutOutPtr? ==> reply.Result? && (inner, reply.r) == req.g(old(inner))
      ensures req.CallMutArgsOutPtr? ==> reply.Result? && (inner, reply.r) == req.h(old(inner), req.args)
      ensures req.IntoInner? ==> inner == old(inner) && reply == Inner(old(inner))
      ensures req.Launch? ==> reply.Result? && (inner, reply.r) == req.g(old(inner))
      ensures inner == Fold(old(inner), Executions(req))
    {
      FoldOnce(inner, req);
      match req
      case CallMutRetUnit(f, n) =>
        FoldIsIterate<T, R>(inner, f, n);
        ApplyBatchMut(f, n);
        reply := Nothing;
      case CallMutOutPtr(g) =>
        var r := Apply(g);
        reply := Result(r);
      case CallMutArgsOutPtr(h, args) =>
        var r := ApplyWith(h, args);
        reply := Result(r);
      case IntoInner =>
        var v := IntoInner();
        reply := Inner(v);
      case Launch(g) =>
        var r := Apply(g);
        reply := Result(r);
    }
  }

  /** The executions a request stands for in the history of the atomic object. */
  function Executions<T, R>(req: Request<T, R>): (ops: seq<Request<T, R>>)
    ensures |ops| == Repeats(req)
  {
    Copies(req, Repeats(req))
  }

  function Copies<T, R>(req: Request<T, R>, n: nat): (ops: seq<Request<T, R>>)
    ensures |ops| == n && forall i :: 0 <= i < n ==> ops[i] == req
  {
    if n == 0 then [] else Copies(req, n - 1) + [req]
  }

  lemma FoldOnce<T, R>(v: T, req: Request<T, R>)
    ensures Fold(v, Copies(req, 1)) == Apply(req, v).0
  {
    assert Copies(req, 1) == [req];
    assert [req][..0] == [];
  }

  /** A batch is one operation applied n times, for every n including 0. */
  lemma FoldIsIterate<T, R>(v: T, f: T -> T, n: nat)
    ensures forall k: nat :: Fold(v, Copies<T, R>(CallMutRetUnit(f, k), n)) == Iterate(f, n, v)
  {
    forall k: nat
      ensures Fold(v, Copies<T, R>(CallMutRetUnit(f, k), n)) == Iterate(f, n, v)
    {
      FoldCopies<T, R>(v, f, k, n);
    }
  }

  lemma {:induction false} FoldCopies<T, R>(v: T, f: T -> T, k: nat, n: nat)
    ensures Fold(v, Copies<T, R>(CallMutRetUnit(f, k), n)) == Iterate(f, n, v)
    decreases n
  {
    if n > 0 {
      FoldCopies<T, R>(v, f, k, n - 1);
      var req: Request<T, R> := CallMutRetUnit(f, k);
      assert Copies(req, n)[..n - 1] == Copies(req, n - 1);
    }
  }

  /** The shortcut path of apply_batch_mut: the loop the calling thread runs itself when it
      is the trustee thread. */
  method ShortcutBatch<T>(p: T, f: T -> T, n: nat) returns (v: T)
    requires n < 256
    ensures v == Iterate(f, n, p)
  {
    v := p;
    for i := 0 to n
      invariant v == Iterate(f, i, p)
    {
      v := f(v);
    }
  }
}
