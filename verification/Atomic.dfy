/** The specification: one object, to which calls are applied one execution at a time.
    A call is invoked, takes effect as often as its request repeats, and returns. */
module Atomic {
  import opened Operations

  datatype Call<!T, !R> =
    | Free
    | Pending(req: Request<T, R>, left: nat)
    | Done(req: Request<T, R>, reply: Reply<T, R>)

  datatype Object<!T, !R> = Object(value: T, calls: seq<Call<T, R>>)

  datatype Label<!T, !R> =
    | Tau
    | Join
    | Invoke(c: nat, req: Request<T, R>)
    | Effect(c: nat, req: Request<T, R>)
    | Return(c: nat, reply: Reply<T, R>)

  function Opened<T, R>(req: Request<T, R>): Call<T, R>
  {
    if Repeats(req) == 0 then Done(req, Nothing) else Pending(req, Repeats(req))
  }

  function Executed<T, R>(call: Call<T, R>, reply: Reply<T, R>): Call<T, R>
    requires call.Pending?
  {
    if call.left <= 1 then Done(call.req, reply) else Pending(call.req, call.left - 1)
  }

  ghost predicate AtomicNext<T, R>(a: Object<T, R>, lab: Label<T, R>, a': Object<T, R>)
  {
    match lab
    case Tau => a' == a
    case Join => a' == a.(calls := a.calls + [Free])
    case Invoke(c, req) =>
      && c < |a.calls| && a.calls[c] == Free
      && a' == a.(calls := a.calls[c := Opened(req)])
    case Effect(c, req) =>
      && c < |a.calls| && a.calls[c].Pending? && a.calls[c].req == req
      && a' == Object(Apply(req, a.value).0, a.calls[c := Executed(a.calls[c], Apply(req, a.value).1)])
    case Return(c, reply) =>
      && c < |a.calls| && a.calls[c].Done? && a.calls[c].reply == reply
      && a' == a.(calls := a.calls[c := Free])
  }

  ghost predicate ObjectRun<T, R>(objs: seq<Object<T, R>>, labels: seq<Label<T, R>>)
  {
    && |objs| == |labels| + 1
    && forall i :: 0 <= i < |labels| ==> AtomicNext(objs[i], labels[i], objs[i + 1])
  }

  /** The requests executed, in order. */
  ghost function Effects<T, R>(labels: seq<Label<T, R>>): seq<Request<T, R>>
    decreases |labels|
  {
    if labels == [] then []
    else
      var last := labels[|labels| - 1];
      Effects(labels[..|labels| - 1]) + (if last.Effect? then [last.req] else [])
  }

  /** The value is always the initial one folded with the executions so far. */
  lemma {:induction false} ValueIsFold<T, R>(objs: seq<Object<T, R>>, labels: seq<Label<T, R>>, n: nat)
    requires ObjectRun(objs, labels) && n <= |labels|
    ensures objs[n].value == Fold(objs[0].value, Effects(labels[..n]))
    decreases n
  {
    if n > 0 {
      ValueIsFold(objs, labels, n - 1);
      var before, last := Effects(labels[..n - 1]), labels[n - 1];
      assert labels[..n][..n - 1] == labels[..n - 1];
      assert AtomicNext(objs[n - 1], last, objs[n]);
      if last.Effect? {
        assert (before + [last.req])[..|before|] == before;
      } else {
        assert Effects(labels[..n]) == before;
      }
    }
  }

  // ---- the history of one call ------------------------------------------------

  predicate Concerns<T, R>(lab: Label<T, R>, c: nat)
  {
    match lab
    case Invoke(d, _) => d == c
    case Effect(d, _) => d == c
    case Return(d, _) => d == c
    case _ => false
  }

  /** How many of labels lo..hi are executions for client c. */
  ghost function EffectCount<T, R>(labels: seq<Label<T, R>>, c: nat, lo: nat, hi: nat): nat
    requires lo <= hi <= |labels|
    decreases hi - lo
  {
    if lo == hi then 0
    else EffectCount(labels, c, lo, hi - 1) + (if labels[hi - 1].Effect? && labels[hi - 1].c == c then 1 else 0)
  }

  /** Label `at` invokes `req` for client c, and up to `n` client c is only executed. */
  ghost predicate InvokedAt<T, R>(labels: seq<Label<T, R>>, c: nat, req: Request<T, R>, at: nat, n: nat)
  {
    && at < n <= |labels|
    && labels[at] == Invoke(c, req)
    && forall k :: at < k < n && Concerns(labels[k], c) ==> labels[k] == Effect(c, req)
  }

  /** The reply is what the closure returns on the value at its execution. */
  ghost predicate AnsweredBy<T, R>(objs: seq<Object<T, R>>, labels: seq<Label<T, R>>, c: nat,
                                   req: Request<T, R>, reply: Reply<T, R>, at: nat, n: nat)
    requires n <= |labels| && |objs| == |labels| + 1
  {
    if req.CallMutRetUnit? then reply == Nothing
    else exists e: nat :: at < e < n && labels[e] == Effect(c, req) && reply == Apply(req, objs[e].value).1
  }

  /** How far client c's current call has come is what the labels say. */
  ghost predicate Explained<T, R>(objs: seq<Object<T, R>>, labels: seq<Label<T, R>>, c: nat, n: nat)
    requires n <= |labels| && |objs| == |labels| + 1 && c < |objs[n].calls|
  {
    match objs[n].calls[c]
    case Free => true
    case Pending(req, left) =>
      exists at: nat :: InvokedAt(labels, c, req, at, n)
        && 0 < left <= Repeats(req) && EffectCount(labels, c, at + 1, n) == Repeats(req) - left
    case Done(req, reply) =>
      exists at: nat :: InvokedAt(labels, c, req, at, n)
        && EffectCount(labels, c, at + 1, n) == Repeats(req) && AnsweredBy(objs, labels, c, req, reply, at, n)
  }

  lemma InvokedLater<T, R>(labels: seq<Label<T, R>>, c: nat, req: Request<T, R>, at: nat, n: nat)
    requires InvokedAt(labels, c, req, at, n) && n < |labels|
    requires Concerns(labels[n], c) ==> labels[n] == Effect(c, req)
    ensures InvokedAt(labels, c, req, at, n + 1)
    ensures EffectCount(labels, c, at + 1, n + 1)
         == EffectCount(labels, c, at + 1, n) + (if Concerns(labels[n], c) then 1 else 0)
  {
  }

  /** A label that does not concern c leaves its explanation valid. */
  lemma ExplainedOther<T, R>(objs: seq<Object<T, R>>, labels: seq<Label<T, R>>, c: nat, n: nat)
    requires ObjectRun(objs, labels) && n < |labels| && c < |objs[n].calls| && c < |objs[n + 1].calls|
    requires Explained(objs, labels, c, n) && !Concerns(labels[n], c) && objs[n + 1].calls[c] == objs[n].calls[c]
    ensures Explained(objs, labels, c, n + 1)
  {
    match objs[n].calls[c]
    case Free =>
    case Pending(req, left) =>
      var at: nat :| InvokedAt(labels, c, req, at, n)
        && 0 < left <= Repeats(req) && EffectCount(labels, c, at + 1, n) == Repeats(req) - left;
      InvokedLater(labels, c, req, at, n);
    case Done(req, reply) =>
      var at: nat :| InvokedAt(labels, c, req, at, n)
        && EffectCount(labels, c, at + 1, n) == Repeats(req) && AnsweredBy(objs, labels, c, req, reply, at, n);
      InvokedLater(labels, c, req, at, n);
      assert AnsweredBy(objs, labels, c, req, reply, at, n + 1);
  }

  lemma ExplainedInvoke<T, R>(objs: seq<Object<T, R>>, labels: seq<Label<T, R>>, c: nat, req: Request<T, R>, n: nat)
    requires ObjectRun(objs, labels) && n < |labels| && labels[n] == Invoke(c, req)
    ensures c < |objs[n + 1].calls| && Explained(objs, labels, c, n + 1)
  {
    assert AtomicNext(objs[n], labels[n], objs[n + 1]);
    assert InvokedAt(labels, c, req, n, n + 1);
    assert EffectCount(labels, c, n + 1, n + 1) == 0;
  }

  lemma ExplainedEffect<T, R>(objs: seq<Object<T, R>>, labels: seq<Label<T, R>>, c: nat, req: Request<T, R>, n: nat)
    requires ObjectRun(objs, labels) && n < |labels| && labels[n] == Effect(c, req)
    requires c < |objs[n].calls| && Explained(objs, labels, c, n)
    ensures c < |objs[n + 1].calls| && Explained(objs, labels, c, n + 1)
  {
    assert AtomicNext(objs[n], labels[n], objs[n + 1]);
    var left := objs[n].calls[c].left;
    var at: nat :| InvokedAt(labels, c, req, at, n)
      && 0 < left <= Repeats(req) && EffectCount(labels, c, at + 1, n) == Repeats(req) - left;
    InvokedLater(labels, c, req, at, n);
    if left == 1 {
      var reply := Apply(req, objs[n].value).1;
      assert AnsweredBy(objs, labels, c, req, reply, at, n + 1);
    }
  }

  lemma {:induction false} EveryCallExplained<T, R>(objs: seq<Object<T, R>>, labels: seq<Label<T, R>>, c: nat, n: nat)
    requires ObjectRun(objs, labels) && n <= |labels|
    requires forall d :: 0 <= d < |objs[0].calls| ==> objs[0].calls[d] == Free
    requires c < |objs[n].calls|
    ensures Explained(objs, labels, c, n)
    decreases n
  {
    if n > 0 {
      var lab := labels[n - 1];
      assert AtomicNext(objs[n - 1], lab, objs[n]);
      if c < |objs[n - 1].calls| {
        EveryCallExplained(objs, labels, c, n - 1);
        if !Concerns(lab, c) {
          ExplainedOther(objs, labels, c, n - 1);
        } else if lab.Invoke? {
          ExplainedInvoke(objs, labels, c, lab.req, n - 1);
        } else if lab.Effect? {
          ExplainedEffect(objs, labels, c, lab.req, n - 1);
        }
      }
    }
  }

  /** Every return answers an earlier invocation of the same client, between which and
      itself the request was executed exactly as often as it repeats and the client did
      nothing else; the reply is the closure's result on the fold of all executions
      before its own. */
  lemma ReturnIsJustified<T, R>(objs: seq<Object<T, R>>, labels: seq<Label<T, R>>, j: nat)
    requires ObjectRun(objs, labels) && j < |labels| && labels[j].Return?
    requires forall d :: 0 <= d < |objs[0].calls| ==> objs[0].calls[d] == Free
    ensures exists req, at: nat :: Justified(objs[0].value, labels, labels[j].c, req, labels[j].reply, at, j)
  {
    var c, reply := labels[j].c, labels[j].reply;
    assert AtomicNext(objs[j], labels[j], objs[j + 1]);
    EveryCallExplained(objs, labels, c, j);
    var req := objs[j].calls[c].req;
    var at: nat :| InvokedAt(labels, c, req, at, j)
      && EffectCount(labels, c, at + 1, j) == Repeats(req) && AnsweredBy(objs, labels, c, req, reply, at, j);
    if !req.CallMutRetUnit? {
      var e: nat :| at < e < j && labels[e] == Effect(c, req) && reply == Apply(req, objs[e].value).1;
      ValueIsFold(objs, labels, e);
      assert reply == Apply(req, Fold(objs[0].value, Effects(labels[..e]))).1;
    }
    assert Justified(objs[0].value, labels, c, req, reply, at, j);
  }

  ghost predicate Finished<T, R>(objs: seq<Object<T, R>>, n: nat, c: nat, req: Request<T, R>, reply: Reply<T, R>)
  {
    n < |objs| && c < |objs[n].calls| && objs[n].calls[c] == Done(req, reply)
  }

  /** A finished call that is no batch was executed at one label since its invocation, with
      this reply on the fold of the executions before it. */
  lemma FinishedHasExecution<T, R>(objs: seq<Object<T, R>>, labels: seq<Label<T, R>>, c: nat, req: Request<T, R>,
                                   reply: Reply<T, R>, n: nat) returns (at: nat, e: nat)
    requires ObjectRun(objs, labels) && n <= |labels| && Finished(objs, n, c, req, reply) && !req.CallMutRetUnit?
    requires forall d :: 0 <= d < |objs[0].calls| ==> objs[0].calls[d] == Free
    ensures at < e < n && InvokedAt(labels, c, req, at, n) && labels[e] == Effect(c, req)
    ensures e < |objs| && reply == Apply(req, objs[e].value).1
    ensures reply == Apply(req, Fold(objs[0].value, Effects(labels[..e]))).1
  {
    EveryCallExplained(objs, labels, c, n);
    at :| InvokedAt(labels, c, req, at, n)
      && EffectCount(labels, c, at + 1, n) == Repeats(req) && AnsweredBy(objs, labels, c, req, reply, at, n);
    e :| at < e < n && labels[e] == Effect(c, req) && reply == Apply(req, objs[e].value).1;
    ValueIsFold(objs, labels, e);
  }

  /** Two returns, of one client or of two, have different executions. */
  lemma ExecutionsDiffer<T, R>(labels: seq<Label<T, R>>, c: nat, req: Request<T, R>, e: nat, i: nat,
                               d: nat, req': Request<T, R>, at': nat, e': nat, j: nat)
    requires e < i < j < |labels| && labels[i].Return? && labels[i].c == c && labels[e] == Effect(c, req)
    requires at' < e' < j && InvokedAt(labels, d, req', at', j) && labels[e'] == Effect(d, req')
    ensures e != e'
  {
    if e == e' {
      assert c == d && Concerns(labels[i], d);
    }
  }

  lemma {:induction false} EffectsPrefix<T, R>(labels: seq<Label<T, R>>, n: nat)
    requires n <= |labels|
    ensures Effects(labels[..n]) <= Effects(labels)
    decreases |labels|
  {
    if n < |labels| {
      var last := |labels| - 1;
      EffectsPrefix(labels[..last], n);
      assert labels[..last][..n] == labels[..n];
    } else {
      assert labels[..n] == labels;
    }
  }

  /** Where an execution stands among all executions. */
  ghost function Place<T, R>(labels: seq<Label<T, R>>, e: nat): nat
    requires e <= |labels|
  {
    |Effects(labels[..e])|
  }

  lemma EffectPlace<T, R>(labels: seq<Label<T, R>>, e: nat)
    requires e < |labels| && labels[e].Effect?
    ensures Place(labels, e) < |Effects(labels)|
    ensures Effects(labels)[Place(labels, e)] == labels[e].req
    ensures Effects(labels)[..Place(labels, e)] == Effects(labels[..e])
  {
    EffectsPrefix(labels, e + 1);
    assert labels[..e + 1][..e] == labels[..e];
    var upTo := Effects(labels[..e + 1]);
    assert upTo == Effects(labels[..e]) + [labels[e].req];
    assert Effects(labels)[..Place(labels, e)] == upTo[..Place(labels, e)];
  }

  lemma PlacesGrow<T, R>(labels: seq<Label<T, R>>, e: nat, e': nat)
    requires e < e' <= |labels| && labels[e].Effect?
    ensures Place(labels, e) < Place(labels, e')
  {
    assert labels[..e'][..e] == labels[..e];
    EffectPlace(labels[..e'], e);
  }

  ghost predicate Justified<T, R>(v: T, labels: seq<Label<T, R>>, c: nat, req: Request<T, R>, reply: Reply<T, R>,
                                  at: nat, j: nat)
  {
    && InvokedAt(labels, c, req, at, j)
    && EffectCount(labels, c, at + 1, j) == Repeats(req)
    && (if req.CallMutRetUnit? then reply == Nothing
        else exists e: nat :: at < e < j && labels[e] == Effect(c, req)
               && reply == Apply(req, Fold(v, Effects(labels[..e]))).1)
  }
}
