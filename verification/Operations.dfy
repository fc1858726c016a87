/** What a request record asks the trustee to do, as one abstract value: the closure
    behind the vtable, its arguments, and the property tag (src/runtime/slots.rs). */
module Operations {
  import opened Bytes

  /** What comes back in the response slot. */
  datatype Reply<+T, +R> = Nothing | Result(r: R) | Inner(v: T)

  datatype Request<!T, !R> =
    | CallMutRetUnit(f: T -> T, repeat: nat)
    | CallMutOutPtr(g: T -> (T, R))
    | CallMutArgsOutPtr(h: (T, seq<byte>) -> (T, R), args: seq<byte>)
    | IntoInner
    | Launch(g: T -> (T, R))
    | Terminate

  /** The value after one execution of the request, and its reply. */
  function Apply<T, R>(req: Request<T, R>, v: T): (T, Reply<T, R>)
  {
    match req
    case CallMutRetUnit(f, _) => (f(v), Nothing)
    case CallMutOutPtr(g) => (g(v).0, Result(g(v).1))
    case CallMutArgsOutPtr(h, args) => (h(v, args).0, Result(h(v, args).1))
    case IntoInner => (v, Inner(v))
    case Launch(g) => (g(v).0, Result(g(v).1))
    case Terminate => (v, Nothing)
  }

  /** How often the trustee executes it: only `apply_batch_mut` sets another count. */
  function Repeats<T, R>(req: Request<T, R>): nat
  {
    if req.CallMutRetUnit? then req.repeat else 1
  }

  /** The value after a sequence of executions. */
  function Fold<T, R>(v: T, ops: seq<Request<T, R>>): T
    decreases |ops|
  {
    if ops == [] then v
    else Apply(ops[|ops| - 1], Fold(v, ops[..|ops| - 1])).0
  }

  function Iterate<T>(f: T -> T, n: nat, v: T): T
  {
    if n == 0 then v else f(Iterate(f, n - 1, v))
  }

  // ---- what these mean ----------------------------------------------------------

  /** One execution takes v to v' and answers `reply`, said by the request's own closure and
      arguments. */
  ghost predicate Executes<T, R>(req: Request<T, R>, v: T, v': T, reply: Reply<T, R>)
  {
    match req
    case CallMutRetUnit(f, _) => v' == f(v)
    case CallMutOutPtr(g) => reply.Result? && (v', reply.r) == g(v)
    case CallMutArgsOutPtr(h, args) => reply.Result? && (v', reply.r) == h(v, args)
    case IntoInner => v' == v && reply == Inner(v)
    case Launch(g) => reply.Result? && (v', reply.r) == g(v)
    case Terminate => v' == v
  }

  lemma ApplyExecutes<T, R>(req: Request<T, R>, v: T)
    ensures Executes(req, v, Apply(req, v).0, Apply(req, v).1)
  {
  }

  /** `vals` are the values from the first to the last of n applications of f. */
  ghost predicate Passes<T>(f: T -> T, n: nat, vals: seq<T>)
  {
    |vals| == n + 1 && forall i :: 0 <= i < n ==> vals[i + 1] == f(vals[i])
  }

  /** Iterating is applying one at a time, n times. */
  lemma {:induction false} IterateMeans<T>(f: T -> T, n: nat, v: T) returns (vals: seq<T>)
    ensures Passes(f, n, vals) && vals[0] == v && vals[n] == Iterate(f, n, v)
  {
    if n == 0 {
      vals := [v];
    } else {
      vals := IterateMeans(f, n - 1, v);
      vals := vals + [f(vals[n - 1])];
    }
  }

  /** Folding is executing one at a time, in order. */
  lemma {:induction false} FoldMeans<T, R>(v: T, ops: seq<Request<T, R>>) returns (vals: seq<T>)
    ensures |vals| == |ops| + 1 && vals[0] == v && vals[|ops|] == Fold(v, ops)
    ensures forall i :: 0 <= i < |ops| ==> Executes(ops[i], vals[i], vals[i + 1], Apply(ops[i], vals[i]).1)
    decreases |ops|
  {
    if ops == [] {
      vals := [v];
    } else {
      var n := |ops| - 1;
      vals := FoldMeans(v, ops[..n]);
      ApplyExecutes(ops[n], vals[n]);
      vals := vals + [Apply(ops[n], vals[n]).0];
    }
  }
}
