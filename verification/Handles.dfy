/** Who owns the worker: Runtime values, the Arcs that share them, and the Remote handles
    that hold those Arcs (src/runtime/runtime.rs, src/trust/remote.rs). */
module Handles {
  import opened Wrappers

  datatype Place = ByCaller | InArc(a: nat) | Dropped

  /** `worker` is the `_worker` field: the right to terminate the worker thread. */
  datatype Runtime = Runtime(worker: bool, place: Place)

  datatype Arc = Arc(rt: nat, count: nat)

  /** A Remote; `owner` is its `_owner` field. */
  datatype Handle = Handle(owner: Option<nat>, alive: bool)

  /** `sent` counts the Terminate requests sent so far. */
  datatype World = World(runtimes: seq<Runtime>, arcs: seq<Arc>, handles: seq<Handle>, sent: nat)

  datatype Op =
    | CloneHandle(h: nat) | DropHandle(h: nat)
    | CloneRuntime(r: nat) | DropRuntime(r: nat) | Entrust(r: nat)

  // ---- operations ------------------------------------------------------------------

  /** Drop of a Runtime value: whoever takes the worker handle sends Terminate. */
  function DropValue(w: World, r: nat): World
    requires r < |w.runtimes|
  {
    w.(runtimes := w.runtimes[r := Runtime(false, Dropped)],
       sent := w.sent + (if w.runtimes[r].worker then 1 else 0))
  }

  /** Drop of one reference to an Arc; the last one drops what it holds. */
  function Release(w: World, a: nat): World
    requires a < |w.arcs| && w.arcs[a].count > 0 && w.arcs[a].rt < |w.runtimes|
  {
    var w' := w.(arcs := w.arcs[a := w.arcs[a].(count := w.arcs[a].count - 1)]);
    if w'.arcs[a].count == 0 then DropValue(w', w.arcs[a].rt) else w'
  }

  /** The handle is alive, and the Arc it shares, if any, is there. */
  predicate Usable(w: World, h: nat)
  {
    && h < |w.handles| && w.handles[h].alive
    && match w.handles[h].owner
       case Some(a) => a < |w.arcs| && w.arcs[a].count > 0 && w.arcs[a].rt < |w.runtimes|
       case None => true
  }

  function Discard(w: World, h: nat): World
    requires Usable(w, h)
  {
    var w' := w.(handles := w.handles[h := w.handles[h].(alive := false)]);
    match w.handles[h].owner
    case Some(a) => Release(w', a)
    case None => w'
  }

  /** A clone shares the Arc, if there is one. */
  function Cloned(w: World, h: nat): World
    requires Usable(w, h)
  {
    var w' := w.(handles := w.handles + [Handle(w.handles[h].owner, true)]);
    match w.handles[h].owner
    case Some(a) => w'.(arcs := w.arcs[a := w.arcs[a].(count := w.arcs[a].count + 1)])
    case None => w'
  }

  /** A clone of a Runtime never has the worker. */
  function WithRuntime(w: World, place: Place): World
  {
    w.(runtimes := w.runtimes + [Runtime(false, place)])
  }

  /** Move runtime `r` into a new Arc, held by a new handle. */
  function Share(w: World, r: nat): World
    requires r < |w.runtimes|
  {
    World(w.runtimes[r := w.runtimes[r].(place := InArc(|w.arcs|))], w.arcs + [Arc(r, 1)],
          w.handles + [Handle(Some(|w.arcs|), true)], w.sent)
  }

  /** Runtime::spawn: the caller gets the runtime with the worker, and a handle that owns
      a clone without it. */
  function Spawn(): World
  {
    var w := World([Runtime(true, ByCaller)], [], [], 0);
    Share(WithRuntime(w, ByCaller), 1)
  }

  /** Remote::entrust: spawn, put the runtime in an Arc of the result, drop the handle
      that spawn made. */
  function RemoteEntrust(): World
  {
    Discard(Share(Spawn(), 0), 0)
  }

  predicate Enabled(w: World, op: Op)
  {
    match op
    case CloneHandle(h) => Usable(w, h)
    case DropHandle(h) => Usable(w, h)
    case CloneRuntime(r) => r < |w.runtimes| && w.runtimes[r].place == ByCaller
    case DropRuntime(r) => r < |w.runtimes| && w.runtimes[r].place == ByCaller
    case Entrust(r) => r < |w.runtimes| && w.runtimes[r].place == ByCaller
  }

  function After(w: World, op: Op): World
    requires Enabled(w, op)
  {
    match op
    case CloneHandle(h) => Cloned(w, h)
    case DropHandle(h) => Discard(w, h)
    case CloneRuntime(_) => WithRuntime(w, ByCaller)
    case DropRuntime(r) => DropValue(w, r)
    case Entrust(_) => w.(handles := w.handles + [Handle(None, true)])
  }

  // ---- reference counts --------------------------------------------------------------

  function Count(handles: seq<Handle>, a: nat): nat
  {
    if handles == [] then 0
    else
      var last := |handles| - 1;
      Count(handles[..last], a) + (if handles[last] == Handle(Some(a), true) then 1 else 0)
  }

  lemma {:induction false} CountUpdate(handles: seq<Handle>, h: nat, new': Handle, a: nat)
    requires h < |handles|
    ensures Count(handles[h := new'], a) + (if handles[h] == Handle(Some(a), true) then 1 else 0)
         == Count(handles, a) + (if new' == Handle(Some(a), true) then 1 else 0)
    decreases |handles|
  {
    var last := |handles| - 1;
    if h < last {
      CountUpdate(handles[..last], h, new', a);
      assert handles[h := new'][..last] == handles[..last][h := new'];
    } else {
      assert handles[h := new'][..last] == handles[..last];
    }
  }

  lemma CountAppend(handles: seq<Handle>, new': Handle, a: nat)
    ensures Count(handles + [new'], a) == Count(handles, a) + (if new' == Handle(Some(a), true) then 1 else 0)
  {
    assert (handles + [new'])[..|handles|] == handles;
  }

  lemma {:induction false} CountPositive(handles: seq<Handle>, a: nat)
    ensures Count(handles, a) > 0 <==> Handle(Some(a), true) in handles
    decreases |handles|
  {
    if handles != [] {
      var last := |handles| - 1;
      CountPositive(handles[..last], a);
      assert handles == handles[..last] + [handles[last]];
    }
  }

  /** Every count is the number of living handles, an Arc's runtime lives exactly as long
      as the count is positive, and only runtime 0 ever has the worker: it has it until it
      is dropped, and then Terminate has been sent. */
  ghost predicate Counted(w: World)
  {
    && |w.runtimes| > 0
    && (forall h :: 0 <= h < |w.handles| && w.handles[h].owner.Some? ==> w.handles[h].owner.value < |w.arcs|)
    && (forall a :: 0 <= a < |w.arcs| ==> w.arcs[a].rt < |w.runtimes| && w.arcs[a].count == Count(w.handles, a))
    && (forall a :: 0 <= a < |w.arcs| ==> w.runtimes[w.arcs[a].rt].place == if w.arcs[a].count > 0 then InArc(a) else Dropped)
    && (forall r :: 0 <= r < |w.runtimes| && w.runtimes[r].place.InArc? ==>
          w.runtimes[r].place.a < |w.arcs| && w.arcs[w.runtimes[r].place.a].rt == r)
    && (forall r :: 0 <= r < |w.runtimes| ==> (w.runtimes[r].worker <==> r == 0 && w.runtimes[0].place != Dropped))
    && w.sent == if w.runtimes[0].worker then 0 else 1
  }

  /** No living handle has lost its Arc. */
  lemma AliveIsUsable(w: World, h: nat)
    requires Counted(w) && h < |w.handles| && w.handles[h].alive
    ensures Usable(w, h)
  {
    if w.handles[h].owner.Some? {
      CountPositive(w.handles, w.handles[h].owner.value);
    }
  }

  lemma SpawnCounted()
    ensures Counted(Spawn())
  {
    CountAppend([], Handle(Some(0), true), 0);
  }

  lemma CloneCounted(w: World, h: nat)
    requires Counted(w) && Usable(w, h)
    ensures Counted(Cloned(w, h))
  {
    hide Count;
    forall a | 0 <= a < |w.arcs|
      ensures Count(Cloned(w, h).handles, a) == Cloned(w, h).arcs[a].count
    {
      CountAppend(w.handles, Handle(w.handles[h].owner, true), a);
    }
  }

  lemma DiscardCounted(w: World, h: nat)
    requires Counted(w) && Usable(w, h)
    ensures Counted(Discard(w, h))
  {
    hide Count;
    forall a | 0 <= a < |w.arcs|
      ensures Count(Discard(w, h).handles, a) == Discard(w, h).arcs[a].count
    {
      CountUpdate(w.handles, h, w.handles[h].(alive := false), a);
    }
  }

  lemma ShareCounted(w: World, r: nat)
    requires Counted(w) && r < |w.runtimes| && w.runtimes[r].place == ByCaller
    ensures Counted(Share(w, r))
  {
    var a' := |w.arcs|;
    forall a | 0 <= a <= |w.arcs|
      ensures Count(Share(w, r).handles, a) == Share(w, r).arcs[a].count
    {
      CountAppend(w.handles, Handle(Some(a'), true), a);
      CountPositive(w.handles, a);
    }
  }

  lemma AfterCounted(w: World, op: Op)
    requires Counted(w) && Enabled(w, op)
    ensures Counted(After(w, op))
  {
    match op
    case CloneHandle(h) => CloneCounted(w, h);
    case DropHandle(h) => DiscardCounted(w, h);
    case CloneRuntime(_) =>
    case DropRuntime(_) =>
    case Entrust(_) =>
      forall a | 0 <= a < |w.arcs|
        ensures Count(w.handles + [Handle(None, true)], a) == Count(w.handles, a)
      {
        CountAppend(w.handles, Handle(None, true), a);
      }
  }

  // ---- any sequence of operations ------------------------------------------------------

  ghost predicate History(worlds: seq<World>, ops: seq<Op>)
  {
    && |worlds| == |ops| + 1
    && (worlds[0] == Spawn() || worlds[0] == RemoteEntrust())
    && forall i :: 0 <= i < |ops| ==>
         Enabled(worlds[i], ops[i]) && worlds[i + 1] == After(worlds[i], ops[i])
  }

  lemma EntrustCounted()
    ensures Counted(RemoteEntrust()) && AllOwn(RemoteEntrust())
  {
    SpawnCounted();
    ShareCounted(Spawn(), 0);
    DiscardCounted(Share(Spawn(), 0), 0);
  }

  /** Whatever is cloned and dropped, exactly one Runtime value holds the worker until it
      is dropped, and Terminate is sent at that moment and never again. */
  lemma {:induction false} OneWorker(worlds: seq<World>, ops: seq<Op>, n: nat)
    requires History(worlds, ops) && n < |worlds|
    ensures Counted(worlds[n])
    ensures worlds[n].sent == 0 <==> exists r :: 0 <= r < |worlds[n].runtimes| && worlds[n].runtimes[r].worker
    ensures worlds[n].sent <= 1
    ensures forall r :: 0 < r < |worlds[n].runtimes| ==> !worlds[n].runtimes[r].worker
    decreases n
  {
    if n == 0 {
      SpawnCounted();
      EntrustCounted();
    } else {
      OneWorker(worlds, ops, n - 1);
      AfterCounted(worlds[n - 1], ops[n - 1]);
    }
    assert worlds[n].runtimes[0].worker <==> worlds[n].sent == 0;
  }

  /** After Remote::entrust: no Runtime is with a caller, and every living handle shares
      the Arc that holds the worker. */
  ghost predicate AllOwn(w: World)
  {
    && |w.arcs| == 2 && w.arcs[1].rt == 0
    && (forall r :: 0 <= r < |w.runtimes| ==> w.runtimes[r].place != ByCaller)
    && (forall h :: 0 <= h < |w.handles| && w.handles[h].alive ==> w.handles[h].owner == Some(1))
  }

  lemma AfterOwns(w: World, op: Op)
    requires Counted(w) && AllOwn(w) && Enabled(w, op)
    ensures AllOwn(After(w, op))
  {
    hide Count;
  }

  lemma {:induction false} HandlesOwn(worlds: seq<World>, ops: seq<Op>, n: nat)
    requires History(worlds, ops) && n < |worlds| && worlds[0] == RemoteEntrust()
    ensures Counted(worlds[n]) && AllOwn(worlds[n])
    decreases n
  {
    OneWorker(worlds, ops, n);
    if n == 0 {
      EntrustCounted();
    } else {
      HandlesOwn(worlds, ops, n - 1);
      hide Counted, AllOwn;
      AfterOwns(worlds[n - 1], ops[n - 1]);
    }
  }

  ghost predicate SomeAlive(w: World)
  {
    exists h :: 0 <= h < |w.handles| && w.handles[h].alive
  }

  /** With all handles sharing the worker's Arc, Terminate has been sent if and only if
      none is left. */
  lemma SentIffNoneAlive(w: World)
    requires Counted(w) && AllOwn(w)
    ensures w.sent == if SomeAlive(w) then 0 else 1
  {
    CountPositive(w.handles, 1);
    assert w.sent == 0 <==> w.arcs[1].count > 0;
  }

  /** Over any clones and drops of a handle made by Remote::entrust, Terminate has been
      sent, once, if and only if the last handle is gone. */
  lemma TerminateIffLastHandleGone(worlds: seq<World>, ops: seq<Op>, n: nat)
    requires History(worlds, ops) && n < |worlds| && worlds[0] == RemoteEntrust()
    ensures worlds[n].sent == if SomeAlive(worlds[n]) then 0 else 1
  {
    HandlesOwn(worlds, ops, n);
    SentIffNoneAlive(worlds[n]);
  }

  /** The caller of Runtime::spawn can send Terminate while a handle is still in use. */
  lemma SpawnedHandleMayOutlive()
    ensures Counted(Spawn()) && Enabled(Spawn(), DropRuntime(0))
    ensures var w := After(Spawn(), DropRuntime(0)); w.sent == 1 && w.handles[0].alive
  {
    SpawnCounted();
  }

  lemma AfterKeepsSpawner(w: World, op: Op)
    requires Counted(w) && Enabled(w, op) && w.runtimes[0].place in {ByCaller, Dropped}
    ensures var w' := After(w, op);
            && |w'.runtimes| > 0 && w'.runtimes[0].place in {ByCaller, Dropped}
            && w'.sent == if op == DropRuntime(0) then 1 else w.sent
  {
    hide Count;
  }

  /** After Runtime::spawn, handles do not matter: Terminate is sent exactly when the
      Runtime with the worker is dropped by its caller. */
  lemma {:induction false} SpawnTerminatesWithRuntime(worlds: seq<World>, ops: seq<Op>, n: nat)
    requires History(worlds, ops) && n < |worlds| && worlds[0] == Spawn()
    ensures |worlds[n].runtimes| > 0 && worlds[n].runtimes[0].place in {ByCaller, Dropped}
    ensures worlds[n].sent == if DropRuntime(0) in ops[..n] then 1 else 0
    decreases n
  {
    OneWorker(worlds, ops, n);
    if n > 0 {
      SpawnTerminatesWithRuntime(worlds, ops, n - 1);
      OneWorker(worlds, ops, n - 1);
      assert ops[..n] == ops[..n - 1] + [ops[n - 1]];
      hide History, Count;
      AfterKeepsSpawner(worlds[n - 1], ops[n - 1]);
    }
  }
}
