/** Handles, runtimes and the protocol together. The protocol of module Protocol drops the
    runtime under a guard; here the drop happens where the reference counts of module
    Handles make it happen, and the guard is derived. */
module Ownership {
  import opened Wrappers
  import opened Operations
  import opened Schedule
  import opened Protocol
  import opened Invariant
  import opened Refinement
  import opened Summary
  import Runs
  import H = Handles
  import ClientSteps
  import TrusteeSteps

  /** `chanOf` gives the channel of each handle value, `holder` the handle that holds a
      channel (the two handles of Remote::entrust share one channel, one after the other). */
  datatype Both<!T, !R> = Both(w: H.World, s: State<T, R>, chanOf: seq<nat>, holder: seq<nat>)

  datatype Act<!T, !R> = Own(op: H.Op) | Go(step: Step<T, R>)

  function StartSpawned<T, R>(v: T): Both<T, R>
  {
    Both(H.Spawn(), InitState(false, v), [0], [0])
  }

  function StartEntrusted<T, R>(v: T): Both<T, R>
  {
    Both(H.RemoteEntrust(), InitState(true, v), [0, 0], [1])
  }

  /** A step of the protocol that makes or drops no handle and no runtime. */
  predicate Plain<T, R>(step: Step<T, R>)
  {
    !Registers(step) && !step.DropHandle?
  }

  /** Runtime::drop in the protocol, if the operation has made somebody take the worker. */
  function Terminated<T, R>(w: H.World, w': H.World, s: State<T, R>): State<T, R>
  {
    if w'.sent > w.sent then Register(s, Terminator).(dropped := Some(|s.chans|)) else s
  }

  /** The handle's owner is not in the middle of a call on it. */
  predicate Free<T, R>(b: Both<T, R>, h: nat)
  {
    && h < |b.chanOf| && b.chanOf[h] < |b.s.chans|
    && b.s.chans[b.chanOf[h]].pc in {Idle, Consumed}
  }

  function Left<T, R>(b: Both<T, R>, h: nat): State<T, R>
    requires Free(b, h)
  {
    Put(b.s, b.chanOf[h], b.s.chans[b.chanOf[h]].(alive := false))
  }

  /** Nothing is said here about who is still alive when the runtime is dropped. */
  ghost predicate BothNext<T, R>(b: Both<T, R>, act: Act<T, R>, b': Both<T, R>)
  {
    match act
    case Go(step) => Plain(step) && Next(b.s, step, b'.s) && b' == b.(s := b'.s)
    case Own(op) =>
      && H.Enabled(b.w, op) && b'.w == H.After(b.w, op)
      && match op
         case CloneHandle(h) =>
           && Free(b, h) && b.s.chans[b.chanOf[h]].pc == Idle
           && b'.s == Register(b.s, Handle) && b'.chanOf == b.chanOf + [|b.s.chans|]
           && b'.holder == b.holder + [|b.chanOf|]
         case DropHandle(h) =>
           && Free(b, h) && b'.s == Terminated(b.w, b'.w, Left(b, h)) && b'.chanOf == b.chanOf
           && b'.holder == if b'.w.sent > b.w.sent then b.holder + [0] else b.holder
         case CloneRuntime(_) => b' == b.(w := b'.w)
         case DropRuntime(_) =>
           && b'.s == Terminated(b.w, b'.w, b.s) && b'.chanOf == b.chanOf
           && b'.holder == if b'.w.sent > b.w.sent then b.holder + [0] else b.holder
         case Entrust(_) =>
           && b'.s == Register(b.s, Handle) && b'.chanOf == b.chanOf + [|b.s.chans|]
           && b'.holder == b.holder + [|b.chanOf|]
  }

  // ---- what links the two ------------------------------------------------------------

  /** A living handle value and the living channel it holds. */
  ghost predicate HandleLinked<T, R>(b: Both<T, R>, h: nat)
    requires h < |b.w.handles| == |b.chanOf|
  {
    b.w.handles[h].alive ==>
      && b.chanOf[h] < |b.s.chans| == |b.holder| && b.holder[b.chanOf[h]] == h
      && b.s.chans[b.chanOf[h]].kind == Handle && b.s.chans[b.chanOf[h]].alive
  }

  ghost predicate ChanLinked<T, R>(b: Both<T, R>, c: nat)
    requires c < |b.s.chans| == |b.holder|
  {
    b.s.chans[c].kind == Handle && b.s.chans[c].alive ==>
      && b.holder[c] < |b.w.handles| == |b.chanOf|
      && b.w.handles[b.holder[c]].alive && b.chanOf[b.holder[c]] == c
  }

  ghost predicate Matched<T, R>(b: Both<T, R>)
  {
    && |b.w.handles| == |b.chanOf| && |b.s.chans| == |b.holder|
    && (forall h :: 0 <= h < |b.chanOf| ==> HandleLinked(b, h))
    && (forall c :: 0 <= c < |b.holder| ==> ChanLinked(b, c))
  }

  ghost predicate Linked<T, R>(b: Both<T, R>)
  {
    && H.Counted(b.w) && (b.s.owned ==> H.AllOwn(b.w))
    && (b.s.dropped.Some? <==> b.w.sent == 1)
    && Matched(b)
  }

  lemma SpawnLinked<T, R>(v: T)
    ensures Linked<T, R>(StartSpawned(v))
  {
    H.SpawnCounted();
    var b: Both<T, R> := StartSpawned(v);
    assert HandleLinked(b, 0) && ChanLinked(b, 0);
  }

  lemma EntrustLinked<T, R>(v: T)
    ensures Linked<T, R>(StartEntrusted(v))
  {
    H.EntrustCounted();
    hide H.Counted, H.AllOwn;
    var b: Both<T, R> := StartEntrusted(v);
    assert HandleLinked(b, 0) && HandleLinked(b, 1) && ChanLinked(b, 0);
  }

  // ---- the guard ----------------------------------------------------------------------

  /** If an operation makes somebody take the worker, nobody had taken it before, and when
      the handles own the runtime, no handle is left. */
  lemma TakerIsLast(w: H.World, op: H.Op)
    requires H.Counted(w) && H.Enabled(w, op) && H.After(w, op).sent > w.sent
    ensures w.sent == 0 && H.After(w, op).sent == 1
    ensures H.AllOwn(w) ==> !H.SomeAlive(H.After(w, op))
  {
    H.AfterCounted(w, op);
    hide H.Count, H.Enabled, H.After;
    if H.AllOwn(w) {
      H.AfterOwns(w, op);
      H.SentIffNoneAlive(H.After(w, op));
    }
  }

  /** No living handle value, no living handle channel. */
  lemma NoneAliveIsNoHandles<T, R>(b: Both<T, R>)
    requires Matched(b) && !H.SomeAlive(b.w)
    ensures NoHandles(b.s)
  {
    forall c | 0 <= c < |b.s.chans| && b.s.chans[c].kind == Handle
      ensures !b.s.chans[c].alive
    {
      assert ChanLinked(b, c);
    }
  }

  // ---- every operation is a sequence of protocol steps ------------------------------------

  ghost predicate Path<T, R>(path: seq<State<T, R>>, steps: seq<Step<T, R>>, s: State<T, R>, s': State<T, R>)
  {
    && |path| == |steps| + 1 && path[0] == s && path[|steps|] == s'
    && forall i :: 0 <= i < |steps| ==> Next(path[i], steps[i], path[i + 1])
  }

  /** The channels, as handles see them, and the fate of the runtime. */
  ghost predicate SameOwners<T, R>(s: State<T, R>, s': State<T, R>)
  {
    && |s'.chans| == |s.chans| && s'.owned == s.owned && s'.dropped == s.dropped
    && forall c :: 0 <= c < |s.chans| ==> s'.chans[c].kind == s.chans[c].kind && s'.chans[c].alive == s.chans[c].alive
  }

  lemma PlainClient<T, R>(s: State<T, R>, step: Step<T, R>, s': State<T, R>)
    requires Next(s, step, s') && Plain(step) && ClientSteps.ClientStep(step)
    ensures SameOwners(s, s')
  {
    hide MaySend, NoHandles;
  }

  lemma PlainPlanning<T, R>(s: State<T, R>, step: Step<T, R>, s': State<T, R>)
    requires Next(s, step, s') && Planning(step)
    ensures s'.owned == s.owned && s'.dropped == s.dropped
  {
    hide VisitIndex, MaySend, NoHandles;
  }

  predicate Closing<T, R>(step: Step<T, R>)
  {
    step.StoreResponse? || step.StoreMoved? || step.SendJob? || step.SpawnFiber?
  }

  lemma PlainClosing<T, R>(s: State<T, R>, step: Step<T, R>, s': State<T, R>)
    requires Next(s, step, s') && (step.StoreResponse? || step.StoreMoved?)
    ensures s'.owned == s.owned && s'.dropped == s.dropped
  {
    hide NextStart, MaySend, NoHandles;
  }

  lemma PlainDispatch<T, R>(s: State<T, R>, step: Step<T, R>, s': State<T, R>)
    requires Next(s, step, s') && (step.SendJob? || step.SpawnFiber?)
    ensures s'.owned == s.owned && s'.dropped == s.dropped
  {
    hide NextStart, MaySend, NoHandles;
  }

  lemma PlainService<T, R>(s: State<T, R>, step: Step<T, R>, s': State<T, R>)
    requires Next(s, step, s') && TrusteeSteps.ServiceStep(step) && !Planning(step) && !Closing(step)
    ensures s'.owned == s.owned && s'.dropped == s.dropped
  {
    hide Apply, Classify, MaySend, NoHandles;
  }

  lemma PlainOther<T, R>(s: State<T, R>, step: Step<T, R>, s': State<T, R>)
    requires Next(s, step, s') && !ClientSteps.ClientStep(step) && !TrusteeSteps.ServiceStep(step)
    ensures s'.owned == s.owned && s'.dropped == s.dropped
  {
    hide Apply, MaySend, NoHandles;
  }

  lemma ServiceAlive<T, R>(s: State<T, R>, step: Step<T, R>, s': State<T, R>)
    requires Next(s, step, s') && TrusteeSteps.ServiceStep(step) && !Planning(step)
    ensures |s'.chans| == |s.chans|
    ensures forall c :: 0 <= c < |s.chans| ==> s'.chans[c].kind == s.chans[c].kind && s'.chans[c].alive == s.chans[c].alive
  {
    hide Next;
    ServiceSummary(s, step, s');
  }

  lemma PlainSame<T, R>(s: State<T, R>, step: Step<T, R>, s': State<T, R>)
    requires Next(s, step, s') && Plain(step)
    ensures SameOwners(s, s')
  {
    hide Next;
    if ClientSteps.ClientStep(step) {
      PlainClient(s, step, s');
    } else if TrusteeSteps.ServiceStep(step) {
      if Planning(step) {
        PlainPlanning(s, step, s');
        PlanningSame(s, step, s');
      } else {
        ServiceAlive(s, step, s');
        if step.SendJob? || step.SpawnFiber? {
          PlainDispatch(s, step, s');
        } else if Closing(step) {
          PlainClosing(s, step, s');
        } else {
          PlainService(s, step, s');
        }
      }
    } else {
      PlainOther(s, step, s');
      OtherSummary(s, step, s');
    }
  }

  lemma GoLinked<T, R>(b: Both<T, R>, b': Both<T, R>)
    requires Linked(b) && SameOwners(b.s, b'.s) && b' == b.(s := b'.s)
    ensures Linked(b')
  {
    hide H.Counted, H.AllOwn;
    forall h | 0 <= h < |b'.chanOf| ensures HandleLinked(b', h) { assert HandleLinked(b, h); }
    forall c | 0 <= c < |b'.holder| ensures ChanLinked(b', c) { assert ChanLinked(b, c); }
  }

  /** A new handle on a new channel. */
  lemma JoinMatched<T, R>(b: Both<T, R>, b': Both<T, R>)
    requires Matched(b) && b'.s.chans == b.s.chans + [NewChannel(Handle)]
    requires |b'.w.handles| == |b.w.handles| + 1 && b'.w.handles[..|b.w.handles|] == b.w.handles
    requires b'.w.handles[|b.w.handles|].alive
    requires b'.chanOf == b.chanOf + [|b.s.chans|] && b'.holder == b.holder + [|b.chanOf|]
    ensures Matched(b')
  {
    forall h | 0 <= h < |b'.chanOf|
      ensures HandleLinked(b', h)
    {
      if h < |b.chanOf| {
        assert HandleLinked(b, h) && b'.w.handles[h] == b'.w.handles[..|b.w.handles|][h];
      }
    }
    forall c | 0 <= c < |b'.holder|
      ensures ChanLinked(b', c)
    {
      if c < |b.holder| {
        assert ChanLinked(b, c);
        if b.s.chans[c].kind == Handle && b.s.chans[c].alive {
          assert b'.w.handles[b.holder[c]] == b'.w.handles[..|b.w.handles|][b.holder[c]];
        }
      }
    }
  }

  /** A handle leaves its channel. */
  lemma LeaveMatched<T, R>(b: Both<T, R>, h: nat, b1: Both<T, R>)
    requires Matched(b) && h < |b.w.handles| && b.w.handles[h].alive && Free(b, h)
    requires b1.w.handles == b.w.handles[h := b.w.handles[h].(alive := false)]
    requires b1.s == Left(b, h) && b1.chanOf == b.chanOf && b1.holder == b.holder
    ensures Matched(b1)
  {
    assert HandleLinked(b, h);
    forall g | 0 <= g < |b1.chanOf| ensures HandleLinked(b1, g) { assert HandleLinked(b, g); }
    forall c | 0 <= c < |b1.holder| ensures ChanLinked(b1, c) { assert ChanLinked(b, c); }
  }

  /** The channel that Runtime::drop registers belongs to no handle. */
  lemma TerminatorMatched<T, R>(b: Both<T, R>, b': Both<T, R>)
    requires Matched(b) && b'.s.chans == b.s.chans + [NewChannel(Terminator)]
    requires b'.w.handles == b.w.handles && b'.chanOf == b.chanOf && b'.holder == b.holder + [0]
    ensures Matched(b')
  {
    forall h | 0 <= h < |b'.chanOf| ensures HandleLinked(b', h) { assert HandleLinked(b, h); }
    forall c | 0 <= c < |b'.holder| ensures ChanLinked(b', c) {
      if c < |b.holder| {
        assert ChanLinked(b, c);
      }
    }
  }

  lemma ClonedHandles(w: H.World, h: nat)
    requires H.Usable(w, h)
    ensures H.Cloned(w, h).handles == w.handles + [H.Handle(w.handles[h].owner, true)] && H.Cloned(w, h).sent == w.sent
  {
  }

  lemma CloneProjects<T, R>(b: Both<T, R>, h: nat, b': Both<T, R>)
    requires Linked(b) && BothNext(b, Own(H.CloneHandle(h)), b')
    ensures Linked(b') && DoClone(b.s, b.chanOf[h], b'.s)
  {
    H.AfterCounted(b.w, H.CloneHandle(h));
    if b.s.owned {
      H.AfterOwns(b.w, H.CloneHandle(h));
    }
    ClonedHandles(b.w, h);
    assert HandleLinked(b, h);
    hide H.Counted, H.AllOwn, H.Cloned;
    JoinMatched(b, b');
  }

  lemma EntrustProjects<T, R>(b: Both<T, R>, r: nat, b': Both<T, R>)
    requires Linked(b) && BothNext(b, Own(H.Entrust(r)), b')
    ensures Linked(b') && DoEntrust(b.s, b'.s)
  {
    H.AfterCounted(b.w, H.Entrust(r));
    hide H.Counted;
    JoinMatched(b, b');
  }

  /** The second half of a drop that takes the worker: the guard of the protocol's step
      holds. */
  lemma TerminateProjects<T, R>(b: Both<T, R>, op: H.Op, b1: Both<T, R>, b': Both<T, R>)
    requires Linked(b) && H.Enabled(b.w, op) && H.After(b.w, op).sent > b.w.sent
    requires Matched(b1) && b1.w == H.After(b.w, op) && b1.s.owned == b.s.owned && b1.s.dropped == b.s.dropped
    requires b' == b1.(s := Register(b1.s, Terminator).(dropped := Some(|b1.s.chans|)), holder := b1.holder + [0])
    ensures Linked(b') && DoDropRuntime(b1.s, b'.s)
  {
    TakerIsLast(b.w, op);
    H.AfterCounted(b.w, op);
    if b.s.owned {
      H.AfterOwns(b.w, op);
      NoneAliveIsNoHandles(b1);
    }
    hide H.Counted, H.AllOwn, H.After, H.Enabled, NoHandles;
    TerminatorMatched(b1, b');
  }

  lemma DiscardedHandles(w: H.World, h: nat)
    requires H.Usable(w, h)
    ensures H.Discard(w, h).handles == w.handles[h := w.handles[h].(alive := false)]
  {
  }

  lemma DropProjects<T, R>(b: Both<T, R>, h: nat, b': Both<T, R>) returns (path: seq<State<T, R>>, steps: seq<Step<T, R>>)
    requires Linked(b) && BothNext(b, Own(H.DropHandle(h)), b')
    ensures Linked(b') && Path(path, steps, b.s, b'.s)
  {
    var op := H.DropHandle(h);
    var s1 := Left(b, h);
    var b1 := Both(b'.w, s1, b.chanOf, b.holder);
    DiscardedHandles(b.w, h);
    assert HandleLinked(b, h);
    assert Next(b.s, DropHandle(b.chanOf[h]), s1);
    hide Next, H.Counted, H.AllOwn;
    LeaveMatched(b, h, b1);
    if b'.w.sent > b.w.sent {
      hide H.After, H.Enabled;
      TerminateProjects(b, op, b1, b');
      path, steps := [b.s, s1, b'.s], [DropHandle(b.chanOf[h]), DropRuntime];
      assert DoDropRuntime(s1, b'.s);
      DropRuntimeNext(s1, b'.s);
    } else {
      hide Matched;
      SentStays(b, op);
      path, steps := [b.s, s1], [DropHandle(b.chanOf[h])];
    }
  }

  lemma DropRuntimeNext<T, R>(s: State<T, R>, s': State<T, R>)
    requires DoDropRuntime(s, s')
    ensures Next<T, R>(s, DropRuntime, s')
  {
  }

  /** An operation after which nobody has newly taken the worker. */
  lemma SentStays<T, R>(b: Both<T, R>, op: H.Op)
    requires Linked(b) && H.Enabled(b.w, op) && H.After(b.w, op).sent <= b.w.sent
    ensures H.Counted(H.After(b.w, op)) && (b.s.owned ==> H.AllOwn(H.After(b.w, op)))
    ensures H.After(b.w, op).sent == b.w.sent
  {
    H.AfterCounted(b.w, op);
    if b.s.owned {
      H.AfterOwns(b.w, op);
    }
    SentGrows(b.w, op);
  }

  lemma SentGrows(w: H.World, op: H.Op)
    requires H.Enabled(w, op)
    ensures H.After(w, op).sent >= w.sent
  {
  }

  lemma DropRuntimeProjects<T, R>(b: Both<T, R>, r: nat, b': Both<T, R>) returns (path: seq<State<T, R>>, steps: seq<Step<T, R>>)
    requires Linked(b) && BothNext(b, Own(H.DropRuntime(r)), b')
    ensures Linked(b') && Path(path, steps, b.s, b'.s)
  {
    var op := H.DropRuntime(r);
    var b1 := b.(w := b'.w);
    assert b1.w.handles == b.w.handles;
    hide Next, H.Counted, H.AllOwn;
    WorldMatched(b, b1);
    if b'.w.sent > b.w.sent {
      hide H.After, H.Enabled;
      TerminateProjects(b, op, b1, b');
      path, steps := [b.s, b'.s], [DropRuntime];
      DropRuntimeNext(b.s, b'.s);
    } else {
      SentStays(b, op);
      path, steps := [b.s], [];
    }
  }

  lemma WorldMatched<T, R>(b: Both<T, R>, b1: Both<T, R>)
    requires Matched(b) && b1 == b.(w := b1.w) && b1.w.handles == b.w.handles
    ensures Matched(b1)
  {
    forall h | 0 <= h < |b1.chanOf| ensures HandleLinked(b1, h) { assert HandleLinked(b, h); }
    forall c | 0 <= c < |b1.holder| ensures ChanLinked(b1, c) { assert ChanLinked(b, c); }
  }

  lemma CloneRuntimeProjects<T, R>(b: Both<T, R>, r: nat, b': Both<T, R>)
    requires Linked(b) && BothNext(b, Own(H.CloneRuntime(r)), b')
    ensures Linked(b')
  {
    hide H.Counted, H.AllOwn;
    SentStays(b, H.CloneRuntime(r));
    WorldMatched(b, b');
  }

  /** Every step of handles, runtimes and protocol together is a path of the protocol: its
      guards hold by themselves. */
  lemma StepProjects<T, R>(b: Both<T, R>, act: Act<T, R>, b': Both<T, R>) returns (path: seq<State<T, R>>, steps: seq<Step<T, R>>)
    requires Linked(b) && BothNext(b, act, b')
    ensures Linked(b') && Path(path, steps, b.s, b'.s)
  {
    match act {
      case Go(step) =>
        hide Next, Linked;
        PlainSame(b.s, step, b'.s);
        GoLinked(b, b');
        path, steps := [b.s, b'.s], [step];
      case Own(op) =>
        hide Linked;
        match op {
          case CloneHandle(h) =>
            CloneProjects(b, h, b');
            path, steps := [b.s, b'.s], [CloneHandle(b.chanOf[h])];
          case DropHandle(h) =>
            path, steps := DropProjects(b, h, b');
          case CloneRuntime(r) =>
            CloneRuntimeProjects(b, r, b');
            path, steps := [b.s], [];
          case DropRuntime(r) =>
            path, steps := DropRuntimeProjects(b, r, b');
          case Entrust(r) =>
            EntrustProjects(b, r, b');
            path, steps := [b.s, b'.s], [Entrust];
        }
    }
  }

  // ---- whole runs ------------------------------------------------------------------------

  ghost predicate BothRun<T, R>(v: T, bs: seq<Both<T, R>>, acts: seq<Act<T, R>>)
  {
    && |bs| == |acts| + 1
    && (bs[0] == StartSpawned(v) || bs[0] == StartEntrusted(v))
    && forall i :: 0 <= i < |acts| ==> BothNext(bs[i], acts[i], bs[i + 1])
  }

  /** A run followed by a path. */
  lemma {:induction false} RunExtends<T, R>(v: T, states: seq<State<T, R>>, steps: seq<Step<T, R>>,
                                            path: seq<State<T, R>>, more: seq<Step<T, R>>)
    returns (states': seq<State<T, R>>, steps': seq<Step<T, R>>)
    requires Run(v, states, steps) && |states| == |steps| + 1
    requires |path| == |more| + 1 && Path(path, more, states[|steps|], path[|more|])
    ensures Run(v, states', steps') && |states'| == |steps'| + 1 && states'[|steps'|] == path[|more|]
    decreases |more|
  {
    hide Run, Next;
    if more == [] {
      states', steps' := states, steps;
    } else {
      var n := |more| - 1;
      states', steps' := RunExtends(v, states, steps, path[..|more|], more[..n]);
      RunSnoc(v, states', steps', more[n], path[|more|]);
      states', steps' := states' + [path[|more|]], steps' + [more[n]];
    }
  }

  /** Every run of handles, runtimes and protocol together is a run of the protocol. */
  lemma {:induction false} RunProjects<T, R>(v: T, bs: seq<Both<T, R>>, acts: seq<Act<T, R>>, n: nat)
    returns (states: seq<State<T, R>>, steps: seq<Step<T, R>>)
    requires BothRun(v, bs, acts) && n < |bs|
    ensures Run(v, states, steps) && |states| == |steps| + 1 && states[|steps|] == bs[n].s
    ensures Linked(bs[n])
    decreases n
  {
    if n == 0 {
      SpawnLinked<T, R>(v);
      EntrustLinked<T, R>(v);
      states, steps := [bs[0].s], [];
    } else {
      hide Next, Linked, Run;
      states, steps := RunProjects(v, bs, acts, n - 1);
      assert BothNext(bs[n - 1], acts[n - 1], bs[n]);
      hide BothNext;
      var path, more := StepProjects(bs[n - 1], acts[n - 1], bs[n]);
      states, steps := RunExtends(v, states, steps, path, more);
    }
  }

  lemma {:induction false} OwnedStays<T, R>(v: T, bs: seq<Both<T, R>>, acts: seq<Act<T, R>>, n: nat)
    requires BothRun(v, bs, acts) && n < |bs|
    ensures bs[n].s.owned == bs[0].s.owned
    decreases n
  {
    if n > 0 {
      OwnedStays(v, bs, acts, n - 1);
      assert BothNext(bs[n - 1], acts[n - 1], bs[n]);
      hide Next, H.After, H.Enabled;
      match acts[n - 1]
      case Go(step) => PlainSame(bs[n - 1].s, step, bs[n].s);
      case Own(_) =>
    }
  }

  /** Handles made by Remote::entrust, over any clones, drops and calls: the runtime has
      been dropped, and so Terminate registered, if and only if the last handle is gone; and
      then no handle has a call or a launch outstanding. */
  lemma TerminateOnlyWhenIdle<T, R>(v: T, bs: seq<Both<T, R>>, acts: seq<Act<T, R>>, n: nat)
    requires BothRun(v, bs, acts) && bs[0] == StartEntrusted(v) && n < |bs|
    ensures bs[n].s.dropped.Some? <==> !H.SomeAlive(bs[n].w)
    ensures bs[n].s.dropped.Some? ==>
      forall c :: 0 <= c < |bs[n].s.chans| && bs[n].s.chans[c].kind == Handle ==> Runs.Idled(bs[n].s.chans[c])
  {
    var states, steps := RunProjects(v, bs, acts, n);
    OwnedStays(v, bs, acts, n);
    var b := bs[n];
    H.SentIffNoneAlive(b.w);
    ReachableInv(v, states, steps, |steps|);
    hide BothRun, Linked, Run, Inv, Runs.Idled;
    if b.s.dropped.Some? {
      forall c | 0 <= c < |b.s.chans| && b.s.chans[c].kind == Handle
        ensures Runs.Idled(b.s.chans[c])
      {
        Runs.DroppedMeansIdle(b.s, c);
      }
    }
  }

  /** However the runtime is owned: at most one Runtime value is ever dropped with the
      worker, so there is at most one channel for Terminate, and it stores one request. */
  lemma TerminateOnce<T, R>(v: T, bs: seq<Both<T, R>>, acts: seq<Act<T, R>>, n: nat, c: nat, d: nat)
    requires BothRun(v, bs, acts) && n < |bs| && c < |bs[n].s.chans| && d < |bs[n].s.chans|
    requires bs[n].s.chans[c].kind == Terminator && bs[n].s.chans[d].kind == Terminator
    ensures c == d && bs[n].s.chans[c].sent <= 1 && bs[n].w.sent == 1
  {
    var states, steps := RunProjects(v, bs, acts, n);
    ReachableInv(v, states, steps, |steps|);
    hide BothRun, Run, Matched, H.Counted, H.AllOwn;
    assert ChanOk(bs[n].s.chans[c]);
  }
}
