/** Nested calls on the trustee thread (the shortcut of src/trust/remote.rs): a small-step
    machine that takes the code's three-way branch at every call, against direct
    depth-first evaluation. */
module Shortcut {
  import opened Operations

  /** How an operation behaves when it is called on a trustee thread. apply, apply_with and
      apply_batch_mut take the shortcut or refuse to block; `with` takes it or blocks;
      `launch` has neither the shortcut nor the refusal; into_inner only has the refusal. */
  datatype How = Mutating | Reading | Launching | Consuming

  /** The body of a closure: its own code on the value and on the results of the nested
      calls it has made so far, branches on them, calls to the same property, and its result. */
  datatype Code<!T, !R> =
    | Return(ret: (T, seq<R>) -> R)
    | Own(g: (T, seq<R>) -> T, next: Code<T, R>)
    | Call(how: How, callee: Code<T, R>, next: Code<T, R>)
    | Batch(f: T -> T, n: nat, next: Code<T, R>)
    | If(cond: (T, seq<R>) -> bool, thn: Code<T, R>, els: Code<T, R>)

  /** Direct depth-first evaluation. */
  function Eval<T, R>(code: Code<T, R>, v: T, env: seq<R>): (T, R)
    decreases code
  {
    match code
    case Return(ret) => (v, ret(v, env))
    case Own(g, next) => Eval(next, g(v, env), env)
    case Call(_, callee, next) => var (v1, r) := Eval(callee, v, []); Eval(next, v1, env + [r])
    case Batch(f, n, next) => Eval(next, Iterate(f, n, v), env)
    case If(cond, thn, els) => Eval(if cond(v, env) then thn else els, v, env)
  }

  /** What a call sees: the published trustee id and property pointer, its own thread id,
      and whether the thread is marked as a trustee's. */
  datatype Context = Context(trusteeId: nat, propertyKnown: bool, me: nat, onTrusteeThread: bool)
  {
    predicate TakesShortcut() {
      trusteeId != 0 && trusteeId == me && propertyKnown
    }
  }

  datatype Frame<!T, !R> = Frame(code: Code<T, R>, env: seq<R>) | Loop(f: T -> T, left: nat)

  datatype Machine<!T, !R> =
    | Running(stack: seq<Frame<T, R>>, v: T)
    | Finished(v: T, r: R)
    | Panicked              // "Blocking delegation is prohibited on trustee thread"
    | Blocked               // in the wait loop for a response

  /** A result for the frame below. */
  function Deliver<T, R>(rest: seq<Frame<T, R>>, v: T, r: R): Machine<T, R>
  {
    if rest == [] then Finished(v, r)
    else if rest[0].Frame? then Running([rest[0].(env := rest[0].env + [r])] + rest[1..], v)
    else Running(rest, v)
  }

  /** A nested call: run it here, refuse, or send it and wait. */
  function Enter<T, R>(ctx: Context, how: How, pushed: Frame<T, R>, below: seq<Frame<T, R>>, v: T): Machine<T, R>
  {
    match how
    case Mutating =>
      if ctx.TakesShortcut() then Running([pushed] + below, v)
      else if ctx.onTrusteeThread then Panicked
      else Blocked
    case Reading => if ctx.TakesShortcut() then Running([pushed] + below, v) else Blocked
    case Launching => Blocked
    case Consuming => if ctx.onTrusteeThread then Panicked else Blocked
  }

  function Step<T, R>(ctx: Context, m: Machine<T, R>): Machine<T, R>
  {
    if !m.Running? || m.stack == [] then m
    else
      var rest := m.stack[1..];
      match m.stack[0]
      case Frame(Return(ret), env) => Deliver(rest, m.v, ret(m.v, env))
      case Frame(Own(g, next), env) => Running([Frame(next, env)] + rest, g(m.v, env))
      case Frame(Call(how, callee, next), env) => Enter(ctx, how, Frame(callee, []), [Frame(next, env)] + rest, m.v)
      case Frame(If(cond, thn, els), env) => Running([Frame(if cond(m.v, env) then thn else els, env)] + rest, m.v)
      case Frame(Batch(f, n, next), env) => Enter(ctx, Mutating, Loop(f, n), [Frame(next, env)] + rest, m.v)
      case Loop(f, left) =>
        if left == 0 then Running(rest, m.v) else Running([Loop(f, left - 1)] + rest, f(m.v))
  }

  function Steps<T, R>(ctx: Context, m: Machine<T, R>, k: nat): Machine<T, R>
    decreases k
  {
    if k == 0 then m else Steps(ctx, Step(ctx, m), k - 1)
  }

  lemma {:induction false} StepsAdd<T, R>(ctx: Context, m: Machine<T, R>, j: nat, k: nat)
    ensures Steps(ctx, m, j + k) == Steps(ctx, Steps(ctx, m, j), k)
    decreases j
  {
    if j > 0 {
      StepsAdd(ctx, Step(ctx, m), j - 1, k);
    }
  }

  /** The loop runs f exactly `left` times; f(Iterate(f, n, v)) and Iterate(f, n, f(v)) agree. */
  lemma {:induction false} LoopRuns<T, R>(ctx: Context, f: T -> T, left: nat, v: T, rest: seq<Frame<T, R>>)
    ensures Steps(ctx, Running([Loop(f, left)] + rest, v), left + 1) == Running(rest, Iterate(f, left, v))
    decreases left
  {
    var m := Running([Loop(f, left)] + rest, v);
    assert m.stack[1..] == rest;
    if left == 0 {
      assert Steps(ctx, m, 1) == Steps(ctx, Step(ctx, m), 0);
    } else {
      assert Step(ctx, m) == Running([Loop(f, left - 1)] + rest, f(v));
      LoopRuns(ctx, f, left - 1, f(v), rest);
      IterateShift(f, left - 1, v);
    }
  }

  lemma {:induction false} IterateShift<T>(f: T -> T, n: nat, v: T)
    ensures Iterate(f, n, f(v)) == Iterate(f, n + 1, v)
    decreases n
  {
    if n > 0 {
      IterateShift(f, n - 1, v);
    }
  }

  /** What becomes of a code that runs with the shortcut. */
  datatype Fate = Finishes | Panics | Blocks

  /** The first nested `launch` or into_inner that direct evaluation makes decides. */
  function FateOf<T, R>(ctx: Context, code: Code<T, R>, v: T, env: seq<R>): Fate
    decreases code
  {
    match code
    case Return(_) => Finishes
    case Own(g, next) => FateOf(ctx, next, g(v, env), env)
    case Call(how, callee, next) =>
      if how.Launching? then Blocks
      else if how.Consuming? then (if ctx.onTrusteeThread then Panics else Blocks)
      else if FateOf(ctx, callee, v, []) != Finishes then FateOf(ctx, callee, v, [])
      else
        var (v1, r) := Eval(callee, v, []);
        FateOf(ctx, next, v1, env + [r])
    case Batch(f, n, next) => FateOf(ctx, next, Iterate(f, n, v), env)
    case If(cond, thn, els) => FateOf(ctx, if cond(v, env) then thn else els, v, env)
  }

  /** The machine a code ends in: its result for the frame below, or stuck. */
  function Ending<T, R>(ctx: Context, code: Code<T, R>, env: seq<R>, v: T, rest: seq<Frame<T, R>>): Machine<T, R>
  {
    match FateOf(ctx, code, v, env)
    case Finishes => Deliver(rest, Eval(code, v, env).0, Eval(code, v, env).1)
    case Panics => Panicked
    case Blocks => Blocked
  }

  /** With the shortcut, a code reaches its ending in finitely many steps; one that finishes
      delivers what direct evaluation gives. */
  lemma {:induction false} CodeRuns<T, R>(ctx: Context, code: Code<T, R>, env: seq<R>, v: T, rest: seq<Frame<T, R>>)
    returns (k: nat)
    requires ctx.TakesShortcut() && (rest != [] ==> rest[0].Frame?)
    ensures Steps(ctx, Running([Frame(code, env)] + rest, v), k) == Ending(ctx, code, env, v, rest)
    decreases code
  {
    var m := Running([Frame(code, env)] + rest, v);
    assert m.stack[1..] == rest;
    match code
    case Return(ret) =>
      k := 1;
      assert Steps(ctx, m, 1) == Steps(ctx, Step(ctx, m), 0);
    case Own(g, next) =>
      var k1 := CodeRuns(ctx, next, env, g(v, env), rest);
      k := 1 + k1;
    case Call(how, callee, next) =>
      k := CallRuns(ctx, how, callee, next, env, v, rest);
    case If(cond, thn, els) =>
      var k1 := CodeRuns(ctx, if cond(v, env) then thn else els, env, v, rest);
      k := 1 + k1;
    case Batch(f, n, next) =>
      var below := [Frame(next, env)] + rest;
      LoopRuns(ctx, f, n, v, below);
      var k2 := CodeRuns(ctx, next, env, Iterate(f, n, v), rest);
      StepsAdd(ctx, Step(ctx, m), n + 1, k2);
      k := 1 + (n + 1 + k2);
  }

  lemma {:induction false} CallRuns<T, R>(ctx: Context, how: How, callee: Code<T, R>, next: Code<T, R>, env: seq<R>, v: T,
                                          rest: seq<Frame<T, R>>)
    returns (k: nat)
    requires ctx.TakesShortcut() && (rest != [] ==> rest[0].Frame?)
    ensures Steps(ctx, Running([Frame(Call(how, callee, next), env)] + rest, v), k)
         == Ending(ctx, Call(how, callee, next), env, v, rest)
    decreases Call(how, callee, next), 0
  {
    var m := Running([Frame(Call(how, callee, next), env)] + rest, v);
    var below := [Frame(next, env)] + rest;
    assert m.stack[1..] == rest && below[1..] == rest;
    if how.Launching? || how.Consuming? {
      k := 1;
      assert Steps(ctx, m, 1) == Steps(ctx, Step(ctx, m), 0);
    } else {
      var k1 := CodeRuns(ctx, callee, [], v, below);
      if FateOf(ctx, callee, v, []) != Finishes {
        k := 1 + k1;
      } else {
        var (v1, r) := Eval(callee, v, []);
        assert Deliver(below, v1, r) == Running([Frame(next, env + [r])] + rest, v1);
        var k2 := CodeRuns(ctx, next, env + [r], v1, rest);
        StepsAdd(ctx, Step(ctx, m), k1, k2);
        k := 1 + (k1 + k2);
      }
    }
  }

  lemma {:induction false} StuckStays<T, R>(ctx: Context, m: Machine<T, R>, k: nat)
    requires !m.Running?
    ensures Steps(ctx, m, k) == m
    decreases k
  {
    if k > 0 {
      StuckStays(ctx, m, k - 1);
    }
  }

  /** The machine stops in one state only: wherever it has stopped, it is at its ending. */
  lemma StopsAtEnding<T, R>(ctx: Context, code: Code<T, R>, v: T, j: nat)
    requires ctx.TakesShortcut() && !Steps(ctx, Running([Frame(code, [])], v), j).Running?
    ensures Steps(ctx, Running([Frame(code, [])], v), j) == Ending(ctx, code, [], v, [])
  {
    var m := Running([Frame(code, [])], v);
    var k := CodeRuns(ctx, code, [], v, []);
    assert [Frame(code, [])] + [] == [Frame(code, [])];
    var mj := Steps(ctx, m, j);
    if j <= k {
      StepsAdd(ctx, m, j, k - j);
      StuckStays(ctx, mj, k - j);
    } else {
      StepsAdd(ctx, m, k, j - k);
      StuckStays(ctx, Steps(ctx, m, k), j - k);
    }
  }

  /** Direct evaluation makes a nested call of this kind, at any depth. */
  predicate Makes<T, R>(how: How, code: Code<T, R>, v: T, env: seq<R>)
    decreases code
  {
    match code
    case Return(_) => false
    case Own(g, next) => Makes(how, next, g(v, env), env)
    case Call(h, callee, next) =>
      var (v1, r) := Eval(callee, v, []);
      h == how || Makes(how, callee, v, []) || Makes(how, next, v1, env + [r])
    case Batch(f, n, next) => Makes(how, next, Iterate(f, n, v), env)
    case If(cond, thn, els) => Makes(how, if cond(v, env) then thn else els, v, env)
  }

  lemma {:induction false} FateByCalls<T, R>(ctx: Context, code: Code<T, R>, v: T, env: seq<R>)
    ensures FateOf(ctx, code, v, env) == Finishes <==> !Makes(Launching, code, v, env) && !Makes(Consuming, code, v, env)
    ensures FateOf(ctx, code, v, env) == Blocks ==> Makes(Launching, code, v, env) || !ctx.onTrusteeThread
    ensures FateOf(ctx, code, v, env) == Panics ==> Makes(Consuming, code, v, env) && ctx.onTrusteeThread
    decreases code
  {
    match code
    case Return(_) =>
    case Own(g, next) => FateByCalls(ctx, next, g(v, env), env);
    case Call(_, callee, next) =>
      var (v1, r) := Eval(callee, v, []);
      FateByCalls(ctx, callee, v, []);
      FateByCalls(ctx, next, v1, env + [r]);
    case Batch(f, n, next) => FateByCalls(ctx, next, Iterate(f, n, v), env);
    case If(cond, thn, els) => FateByCalls(ctx, if cond(v, env) then thn else els, v, env);
  }

  /** Shortcut refinement, exactly: a code of nested calls on the trustee thread finishes if
      and only if direct evaluation makes no `launch` and no into_inner, and then with the
      value and result of direct evaluation; otherwise it stops in the wait loop or in the
      refusal, and if it makes no into_inner it is always the wait loop. */
  lemma ShortcutIsDirect<T, R>(ctx: Context, code: Code<T, R>, v: T)
    requires ctx.trusteeId != 0 && ctx.trusteeId == ctx.me && ctx.propertyKnown
    requires ctx.onTrusteeThread
    ensures exists k: nat :: Steps(ctx, Running([Frame(code, [])], v), k) == Ending(ctx, code, [], v, [])
    ensures forall j: nat :: var m := Steps(ctx, Running([Frame(code, [])], v), j);
                             m.Running? || m == Ending(ctx, code, [], v, [])
    ensures Ending(ctx, code, [], v, []).Finished? ==>
      Ending(ctx, code, [], v, []) == Finished(Eval(code, v, []).0, Eval(code, v, []).1)
    ensures Ending(ctx, code, [], v, []).Finished? <==> !Makes(Launching, code, v, []) && !Makes(Consuming, code, v, [])
    ensures !Makes(Consuming, code, v, []) ==> (Ending(ctx, code, [], v, []).Blocked? <==> Makes(Launching, code, v, []))
  {
    var m := Running([Frame(code, [])], v);
    var k := CodeRuns(ctx, code, [], v, []);
    assert [Frame(code, [])] + [] == [Frame(code, [])];
    FateByCalls(ctx, code, v, []);
    forall j: nat
      ensures Steps(ctx, m, j).Running? || Steps(ctx, m, j) == Ending(ctx, code, [], v, [])
    {
      if !Steps(ctx, m, j).Running? {
        StopsAtEnding(ctx, code, v, j);
      }
    }
  }

  /** A closure that launches on its own trustee waits for the thread it runs on. */
  lemma SelfLaunchBlocks<T, R>(ctx: Context, callee: Code<T, R>, next: Code<T, R>, v: T, j: nat)
    requires ctx.trusteeId != 0 && ctx.trusteeId == ctx.me && ctx.propertyKnown && j > 0
    ensures Steps(ctx, Running([Frame(Call(Launching, callee, next), [])], v), j) == Blocked
  {
    StuckStays<T, R>(ctx, Blocked, j - 1);
  }

  /** What one nested call does in any context: it runs here if and only if this is the
      thread of a trustee that has published its property, and the call has a shortcut. */
  lemma NestedCallExactly<T, R>(ctx: Context, how: How, callee: Code<T, R>, next: Code<T, R>, env: seq<R>, v: T,
                                rest: seq<Frame<T, R>>)
    ensures var m := Step(ctx, Running([Frame(Call(how, callee, next), env)] + rest, v));
            var here := ctx.trusteeId != 0 && ctx.trusteeId == ctx.me && ctx.propertyKnown;
            && (m.Running? <==> here && (how.Mutating? || how.Reading?))
            && (m.Running? ==> m == Running([Frame(callee, []), Frame(next, env)] + rest, v))
            && (m.Panicked? <==> ctx.onTrusteeThread && (how.Consuming? || (how.Mutating? && !here)))
            && (m.Blocked? <==> || how.Launching?
                                || (how.Reading? && !here)
                                || (how.Mutating? && !here && !ctx.onTrusteeThread)
                                || (how.Consuming? && !ctx.onTrusteeThread))
  {
    var stack := [Frame(Call(how, callee, next), env)] + rest;
    assert stack[0] == Frame(Call(how, callee, next), env) && stack[1..] == rest;
    assert [Frame(callee, [])] + ([Frame(next, env)] + rest) == [Frame(callee, []), Frame(next, env)] + rest;
  }

  /** And one nested batch. */
  lemma NestedBatchExactly<T, R>(ctx: Context, f: T -> T, n: nat, next: Code<T, R>, env: seq<R>, v: T, rest: seq<Frame<T, R>>)
    ensures var m := Step(ctx, Running([Frame(Batch(f, n, next), env)] + rest, v));
            var here := ctx.trusteeId != 0 && ctx.trusteeId == ctx.me && ctx.propertyKnown;
            && (m.Running? <==> here)
            && (m.Running? ==> m == Running([Loop(f, n), Frame(next, env)] + rest, v))
            && (m.Panicked? <==> !here && ctx.onTrusteeThread)
            && (m.Blocked? <==> !here && !ctx.onTrusteeThread)
  {
    var stack := [Frame(Batch(f, n, next), env)] + rest;
    assert stack[0] == Frame(Batch(f, n, next), env) && stack[1..] == rest;
    assert [Loop(f, n)] + ([Frame(next, env)] + rest) == [Loop(f, n), Frame(next, env)] + rest;
  }

  /** The frames of a machine; none when it has stopped. */
  function Depth<T, R>(m: Machine<T, R>): nat
  {
    if m.Running? then |m.stack| else 0
  }

  /** A step that enters a callee or a batch is one on the trustee's own thread. */
  lemma EntersOnOwnThread<T, R>(ctx: Context, m: Machine<T, R>)
    requires Depth(Step(ctx, m)) > Depth(m)
    ensures ctx.me == ctx.trusteeId && ctx.trusteeId != 0 && ctx.propertyKnown
  {
    assert m.stack != [];
    match m.stack[0]
    case Frame(Return(_), _) =>
    case Frame(Own(_, _), _) =>
    case Frame(Call(_, _, _), _) =>
    case Frame(If(_, _, _), _) =>
    case Frame(Batch(_, _, _), _) =>
    case Loop(_, _) =>
  }

  /** So on any other thread no code ever runs a closure of its calls here. */
  lemma {:induction false} OtherThreadNeverEnters<T, R>(ctx: Context, m: Machine<T, R>, k: nat)
    requires ctx.me != ctx.trusteeId || ctx.trusteeId == 0 || !ctx.propertyKnown
    ensures Depth(Steps(ctx, m, k)) <= Depth(m)
    decreases k
  {
    if k > 0 {
      OtherThreadNeverEnters(ctx, Step(ctx, m), k - 1);
      if Depth(Step(ctx, m)) > Depth(m) {
        EntersOnOwnThread(ctx, m);
      }
    }
  }

  // ---- the recursive example ----------------------------------------------------

  /** `apply` of a closure that adds one. */
  function AddOne(next: Code<int, int>): Code<int, int>
  {
    Call(Mutating, Own((v: int, _: seq<int>) => v + 1, Return((_: int, _: seq<int>) => 0)), next)
  }

  /** A closure that adds one, calls `apply` to add another and returns the value, and what
      it returns on the trustee thread. */
  lemma RecursiveApply(ctx: Context, v: int) returns (k: nat)
    requires ctx.trusteeId != 0 && ctx.trusteeId == ctx.me && ctx.propertyKnown
    ensures var code := Own((v: int, _: seq<int>) => v + 1, AddOne(Return((v: int, _: seq<int>) => v)));
            Steps(ctx, Running([Frame(code, [])], v), k) == Finished(v + 2, v + 2)
  {
    var code := Own((v: int, _: seq<int>) => v + 1, AddOne(Return((v: int, _: seq<int>) => v)));
    assert [Frame(code, [])] + [] == [Frame(code, [])];
    k := CodeRuns(ctx, code, [], v, []);
  }

  /** The loop of the example: n nested calls one after the other. */
  function AddMany(n: nat): Code<int, int>
  {
    if n == 0 then Return((v: int, _: seq<int>) => v) else AddOne(AddMany(n - 1))
  }

  lemma {:induction false} AddManyAdds(ctx: Context, n: nat, v: int, env: seq<int>)
    ensures FateOf(ctx, AddMany(n), v, env) == Finishes && Eval(AddMany(n), v, env) == (v + n, v + n)
    decreases n
  {
    if n > 0 {
      AddManyAdds(ctx, n - 1, v + 1, env + [0]);
    }
  }

  lemma RecursiveApplyMany(ctx: Context, n: nat, v: int) returns (k: nat)
    requires ctx.trusteeId != 0 && ctx.trusteeId == ctx.me && ctx.propertyKnown
    ensures Steps(ctx, Running([Frame(AddMany(n), [])], v), k) == Finished(v + n, v + n)
  {
    assert [Frame(AddMany(n), [])] + [] == [Frame(AddMany(n), [])];
    AddManyAdds(ctx, n, v, []);
    k := CodeRuns(ctx, AddMany(n), [], v, []);
  }
}
