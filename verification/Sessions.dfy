/** Every operation has runs in which it completes: one call on a fresh handle, from the
    first write to the read of its reply. */
module Sessions {
  import opened Wrappers
  import opened Operations
  import opened Protocol
  import opened Schedule
  import opened Refinement
  import E = Exits

  /** The run ends in s. */
  ghost predicate EndsIn<T, R>(v: T, states: seq<State<T, R>>, steps: seq<Step<T, R>>, s: State<T, R>)
  {
    Run(v, states, steps) && |states| == |steps| + 1 && states[|steps|] == s
  }

  lemma Then<T, R>(v: T, states: seq<State<T, R>>, steps: seq<Step<T, R>>, s: State<T, R>, step: Step<T, R>, s': State<T, R>)
    returns (states': seq<State<T, R>>, steps': seq<Step<T, R>>)
    requires EndsIn(v, states, steps, s) && Next(s, step, s')
    ensures EndsIn(v, states', steps', s') && steps' == steps + [step] && states' == states + [s']
  {
    hide Run, Next;
    states', steps' := E.Append(v, states, steps, step, s');
  }

  const W: Word := Word(true, 1)

  /** The call has been sent and its channel registered; the worker is in its first round, with
      channel 0 in the state given. */
  function During<T, R>(ch: Channel<T, R>, v: T, t: Trustee, fibers: seq<Fiber<T, R>>): State<T, R>
  {
    InitState(true, v).(chans := [ch], queue := [], clients := [0], counter := 1, trustee := t, fibers := fibers)
  }

  /** The visit is over. */
  function After<T, R>(ch: Channel<T, R>, v: T, t: Trustee, fibers: seq<Fiber<T, R>>): State<T, R>
  {
    During(ch, v, t, fibers).(progressed := true)
  }

  function Opened<T, R>(req: Request<T, R>, v: T): State<T, R>
  {
    InitState(true, v).(chans := [E.Sent(req)])
  }

  lemma SentRun<T, R>(req: Request<T, R>, v: T) returns (states: seq<State<T, R>>, steps: seq<Step<T, R>>)
    requires !req.Terminate? && (req.CallMutRetUnit? ==> req.repeat < 256)
    ensures EndsIn(v, states, steps, Opened(req, v))
  {
    var s: State<T, R> := InitState(true, v);
    assert Put(s, 0, E.Sent(req)) == Opened(req, v);
    states, steps := E.SendRun(v, [s], [], 0, req);
  }

  lemma DrainSteps<T, R>(req: Request<T, R>, v: T)
    ensures var s, t: State<T, R> := Opened(req, v), During(E.Sent(req), v, Draining(1), []);
            && Next(s, BeginRound, s.(counter := 1, trustee := Draining(0)))
            && Next(s.(counter := 1, trustee := Draining(0)), DrainPop, t)
            && Next(t, DrainEnd, During(E.Sent(req), v, Visiting(0), []))
  {
    hide E.Sent;
  }

  lemma LoadSteps<T, R>(ch: Channel<T, R>, v: T)
    requires ch.req == W && ch.resp == Word(false, 0)
    ensures Next(During(ch, v, Visiting(0), []), LoadReq, During(ch, v, LoadedReq(0, 0, W), []))
    ensures Next(During(ch, v, LoadedReq(0, 0, W), []), LoadResp, During(ch, v, LoadedBoth(0, 0, W, Word(false, 0)), []))
  {
  }

  lemma DecideStep<T, R>(ch: Channel<T, R>, v: T)
    requires !ch.pending
    ensures Next(During(ch, v, LoadedBoth(0, 0, W, Word(false, 0)), []), Decide, During(ch, v, Serving(0, 0, W, 0), []))
  {
    assert ch.(pending := false) == ch;
    var s: State<T, R> := During(ch, v, LoadedBoth(0, 0, W, Word(false, 0)), []);
    assert s.chans[0 := ch] == s.chans;
  }

  /** Up to the trustee's decision to serve the call. */
  lemma ServingRun<T, R>(req: Request<T, R>, v: T) returns (states: seq<State<T, R>>, steps: seq<Step<T, R>>)
    requires !req.Terminate? && (req.CallMutRetUnit? ==> req.repeat < 256)
    ensures EndsIn(v, states, steps, During(E.Sent(req), v, Serving(0, 0, W, 0), []))
  {
    assert E.Sent(req).req == W && E.Sent(req).resp == Word(false, 0) && !E.Sent(req).pending;
    hide *;
    DrainSteps(req, v);
    LoadSteps(E.Sent(req), v);
    DecideStep(E.Sent(req), v);
    var ch: Channel<T, R>, s: State<T, R> := E.Sent(req), Opened(req, v);
    states, steps := SentRun(req, v);
    states, steps := Then(v, states, steps, s, BeginRound, s.(counter := 1, trustee := Draining(0)));
    states, steps := Then(v, states, steps, s.(counter := 1, trustee := Draining(0)), DrainPop, During(ch, v, Draining(1), []));
    states, steps := Then(v, states, steps, During(ch, v, Draining(1), []), DrainEnd, During(ch, v, Visiting(0), []));
    states, steps := Then(v, states, steps, During(ch, v, Visiting(0), []), LoadReq, During(ch, v, LoadedReq(0, 0, W), []));
    var loaded: State<T, R> := During(ch, v, LoadedBoth(0, 0, W, Word(false, 0)), []);
    states, steps := Then(v, states, steps, During(ch, v, LoadedReq(0, 0, W), []), LoadResp, loaded);
    states, steps := Then(v, states, steps, loaded, Decide, During(ch, v, Serving(0, 0, W, 0), []));
  }

  // ---- the read ---------------------------------------------------------------------------

  /** Answered, and the client still waiting. */
  ghost predicate Answered<T, R>(s: State<T, R>, req: Request<T, R>)
  {
    && |s.chans| == 1 && s.chans[0].kind == Handle && s.chans[0].record == Some(req)
    && s.chans[0].pc == Waiting(true) && s.chans[0].resp.ready
  }

  function Polled<T, R>(s: State<T, R>): State<T, R>
    requires |s.chans| == 1
  {
    Put(s, 0, s.chans[0].(pc := Ready))
  }

  function Returned<T, R>(s: State<T, R>, req: Request<T, R>): State<T, R>
    requires |s.chans| == 1
  {
    Put(s, 0, s.chans[0].(pc := if req.IntoInner? then Consumed else Idle))
  }

  lemma ReadSteps<T, R>(s: State<T, R>, req: Request<T, R>)
    requires Answered(s, req)
    ensures Next(s, Poll(0), Polled(s)) && Next(Polled(s), ReadBack(0), Returned(s, req))
    ensures RecordOf(Polled(s), 0) == req && ReplyAt(Polled(s), 0) == ReplyOf(req, s.chans[0].data)
  {
  }

  /** The last step of the run is the read of the reply to `req`: `reply`, with the property at v'. */
  ghost predicate Completes<T, R>(v: T, states: seq<State<T, R>>, steps: seq<Step<T, R>>, req: Request<T, R>,
                                  v': T, reply: Reply<T, R>)
  {
    && Run(v, states, steps) && |states| == |steps| + 1 && |steps| > 0
    && var last := |steps| - 1;
       && steps[last] == ReadBack(0) && RecordOf(states[last], 0) == req && ReplyAt(states[last], 0) == reply
       && states[last].value == v'
  }

  lemma ReadRun<T, R>(v: T, states: seq<State<T, R>>, steps: seq<Step<T, R>>, s: State<T, R>, req: Request<T, R>)
    returns (states': seq<State<T, R>>, steps': seq<Step<T, R>>)
    requires EndsIn(v, states, steps, s) && Answered(s, req)
    ensures Completes(v, states', steps', req, s.value, ReplyOf(req, s.chans[0].data))
  {
    hide Run, Next, RecordOf, ReplyAt, ReplyOf;
    ReadSteps(s, req);
    states', steps' := Then(v, states, steps, s, Poll(0), Polled(s));
    states', steps' := Then(v, states', steps', Polled(s), ReadBack(0), Returned(s, req));
  }

  // ---- the answer of the trustee ------------------------------------------------------------

  lemma StoreSteps<T, R>(ch: Channel<T, R>, v: T)
    ensures Next(During(ch, v, Served(0, 0, W), []), StoreResponse,
                 After(ch.(resp := W, answered := ch.answered + 1), v, Visiting(1), []))
  {
  }

  lemma StoredRun<T, R>(v: T, states: seq<State<T, R>>, steps: seq<Step<T, R>>, ch: Channel<T, R>, v': T, req: Request<T, R>)
    returns (states': seq<State<T, R>>, steps': seq<Step<T, R>>)
    requires EndsIn(v, states, steps, During(ch, v', Served(0, 0, W), []))
    requires ch.kind == Handle && ch.record == Some(req) && ch.pc == Waiting(true)
    ensures Completes(v, states', steps', req, v', ReplyOf(req, ch.data))
  {
    hide Run, Next, ReplyOf, Completes, EndsIn;
    StoreSteps(ch, v');
    var s := After(ch.(resp := W, answered := ch.answered + 1), v', Visiting(1), []);
    states', steps' := Then(v, states, steps, During(ch, v', Served(0, 0, W), []), StoreResponse, s);
    states', steps' := ReadRun(v, states', steps', s, req);
  }

  /** After k executions of a batch. */
  function InBatch<T, R>(f: T -> T, n: nat, v: T, k: nat): State<T, R>
    requires k <= n
  {
    During(E.Sent(CallMutRetUnit(f, n)).(left := n - k), Iterate(f, k, v), Serving(0, 0, W, k), [])
  }

  lemma BatchBegins<T, R>(f: T -> T, n: nat, v: T)
    ensures InBatch<T, R>(f, n, v, 0) == During(E.Sent(CallMutRetUnit(f, n)), v, Serving(0, 0, W, 0), [])
  {
    var req: Request<T, R> := CallMutRetUnit(f, n);
    assert E.Sent(req).(left := n) == E.Sent(req);
  }

  lemma BatchStep<T, R>(f: T -> T, n: nat, v: T, k: nat)
    requires k < n
    ensures Next(InBatch<T, R>(f, n, v, k), ExecRepeat, InBatch<T, R>(f, n, v, k + 1))
  {
  }

  lemma BatchEnds<T, R>(f: T -> T, n: nat, v: T)
    ensures Next(InBatch<T, R>(f, n, v, n), EndBatch,
                 During(E.Sent(CallMutRetUnit(f, n)).(left := 0), Iterate(f, n, v), Served(0, 0, W), []))
  {
  }

  lemma {:induction false} RepeatRun<T, R>(f: T -> T, n: nat, v: T, k: nat)
    returns (states: seq<State<T, R>>, steps: seq<Step<T, R>>)
    requires k <= n < 256
    ensures EndsIn(v, states, steps, InBatch<T, R>(f, n, v, k))
    decreases k
  {
    if k == 0 {
      hide Run, Next;
      BatchBegins<T, R>(f, n, v);
      states, steps := ServingRun(CallMutRetUnit(f, n), v);
    } else {
      hide *;
      states, steps := RepeatRun(f, n, v, k - 1);
      BatchStep<T, R>(f, n, v, k - 1);
      states, steps := Then(v, states, steps, InBatch(f, n, v, k - 1), ExecRepeat, InBatch(f, n, v, k));
    }
  }

  /** A whole batch of any size a handle can send, on any closure. */
  lemma BatchCompletes<T, R>(f: T -> T, n: nat, v: T) returns (states: seq<State<T, R>>, steps: seq<Step<T, R>>)
    requires n < 256
    ensures Completes(v, states, steps, CallMutRetUnit(f, n), Iterate(f, n, v), Nothing)
  {
    var req: Request<T, R> := CallMutRetUnit(f, n);
    var ch: Channel<T, R> := E.Sent(req).(left := 0);
    assert ch.kind == Handle && ch.record == Some(req) && ch.pc == Waiting(true) && ReplyOf(req, ch.data) == Nothing;
    hide *;
    BatchEnds<T, R>(f, n, v);
    states, steps := RepeatRun(f, n, v, n);
    states, steps := Then(v, states, steps, InBatch(f, n, v, n), EndBatch, During(ch, Iterate(f, n, v), Served(0, 0, W), []));
    states, steps := StoredRun(v, states, steps, ch, Iterate(f, n, v), req);
  }

  lemma CallSteps<T, R>(req: Request<T, R>, v: T)
    requires req.CallMutOutPtr? || req.CallMutArgsOutPtr?
    ensures Next(During(E.Sent(req), v, Serving(0, 0, W, 0), []), ExecCall,
                 During(E.Sent(req).(data := Apply(req, v).1, left := 0), Apply(req, v).0, Served(0, 0, W), []))
  {
  }

  lemma CallRun<T, R>(req: Request<T, R>, v: T) returns (states: seq<State<T, R>>, steps: seq<Step<T, R>>)
    requires req.CallMutOutPtr? || req.CallMutArgsOutPtr?
    ensures Completes(v, states, steps, req, Apply(req, v).0, Apply(req, v).1)
  {
    var ch: Channel<T, R> := E.Sent(req).(data := Apply(req, v).1, left := 0);
    assert ch.kind == Handle && ch.record == Some(req) && ch.pc == Waiting(true) && ReplyOf(req, ch.data) == Apply(req, v).1;
    hide *;
    CallSteps(req, v);
    states, steps := ServingRun(req, v);
    states, steps := Then(v, states, steps, During(E.Sent(req), v, Serving(0, 0, W, 0), []), ExecCall,
                          During(ch, Apply(req, v).0, Served(0, 0, W), []));
    states, steps := StoredRun(v, states, steps, ch, Apply(req, v).0, req);
  }

  lemma MoveSteps<T, R>(v: T)
    ensures var ch: Channel<T, R> := E.Sent(IntoInner).(data := Inner(v), left := 0);
            && Next(During(E.Sent(IntoInner), v, Serving(0, 0, W, 0), []), MoveOut, During(ch, v, MovedOut(0, W), []))
            && Next(During(ch, v, MovedOut(0, W), []), StoreMoved, During(ch.(resp := W, answered := 1), v, Exited, []))
  {
  }

  lemma MoveRun<T, R>(v: T) returns (states: seq<State<T, R>>, steps: seq<Step<T, R>>)
    ensures Completes<T, R>(v, states, steps, IntoInner, v, Inner(v))
  {
    var ch: Channel<T, R> := E.Sent(IntoInner).(data := Inner(v), left := 0);
    var s := During(ch.(resp := W, answered := 1), v, Exited, []);
    assert Answered(s, IntoInner) && ReplyOf(IntoInner, s.chans[0].data) == Inner(v) && s.value == v;
    MoveSteps<T, R>(v);
    hide *;
    states, steps := ServingRun<T, R>(IntoInner, v);
    states, steps := Then(v, states, steps, During(E.Sent(IntoInner), v, Serving(0, 0, W, 0), []), MoveOut,
                          During(ch, v, MovedOut(0, W), []));
    states, steps := Then(v, states, steps, During(ch, v, MovedOut(0, W), []), StoreMoved, s);
    states, steps := ReadRun(v, states, steps, s, IntoInner);
  }

  // ---- the answer of a fiber ----------------------------------------------------------------

  /** The launch is marked, handed to a new fiber, received, run and answered. */
  function Marked<T, R>(g: T -> (T, R)): Channel<T, R>
  {
    E.Sent(Launch(g)).(pending := true, launchReady := true)
  }

  function Handed<T, R>(g: T -> (T, R)): Channel<T, R>
  {
    Marked(g).(fiber := Some(0))
  }

  function Ran<T, R>(g: T -> (T, R), v: T): Channel<T, R>
  {
    Handed(g).(data := Result(g(v).1), left := 0)
  }

  lemma MarkStep<T, R>(g: T -> (T, R), v: T)
    ensures Next(During(E.Sent(Launch(g)), v, Serving(0, 0, W, 0), []), BeginLaunch,
                 During(Marked(g), v, Dispatching(0, 0, W), []))
  {
  }

  lemma SpawnStep<T, R>(g: T -> (T, R), v: T)
    ensures Next(During(Marked(g), v, Dispatching(0, 0, W), []), SpawnFiber,
                 After(Handed(g), v, Visiting(1), [Fiber([Execute(0, Launch(g), true)], Receiving)]))
  {
  }

  lemma ReceiveStep<T, R>(ch: Channel<T, R>, v: T, job: Job<T, R>)
    requires job.Execute?
    ensures Next(After(ch, v, Visiting(1), [Fiber([job], Receiving)]), Receive(0),
                 After(ch, v, Visiting(1), [Fiber([], Running(job))]))
  {
    assert [job][1..] == [];
    var fb: Fiber<T, R>, fb' := Fiber([job], Receiving), Fiber([], Running(job));
    assert [fb][0 := fb'] == [fb'];
  }

  lemma EffectStep<T, R>(g: T -> (T, R), v: T)
    ensures var job: Job<T, R> := Execute(0, Launch(g), true);
            Next(After(Handed(g), v, Visiting(1), [Fiber([], Running(job))]), FiberEffect(0),
                 After(Ran(g, v), g(v).0, Visiting(1), [Fiber([], Effected(job))]))
  {
  }

  lemma CompleteStep<T, R>(ch: Channel<T, R>, v: T, hdr: Request<T, R>)
    ensures var job: Job<T, R> := Execute(0, hdr, true);
            Next(After(ch, v, Visiting(1), [Fiber([], Effected(job))]), FiberComplete(0),
                 After(ch.(resp := W, answered := ch.answered + 1, fiber := None), v, Visiting(1), [Fiber([], Finishing)]))
  {
  }

  lemma HandedRun<T, R>(g: T -> (T, R), v: T) returns (states: seq<State<T, R>>, steps: seq<Step<T, R>>)
    ensures EndsIn(v, states, steps, After(Handed(g), v, Visiting(1), [Fiber([Execute(0, Launch(g), true)], Receiving)]))
  {
    var s1, s2 := During(Marked(g), v, Dispatching(0, 0, W), []),
                  After(Handed(g), v, Visiting(1), [Fiber([Execute(0, Launch(g), true)], Receiving)]);
    hide *;
    MarkStep(g, v);
    SpawnStep(g, v);
    states, steps := ServingRun(Launch(g), v);
    states, steps := Then(v, states, steps, During(E.Sent(Launch(g)), v, Serving(0, 0, W, 0), []), BeginLaunch, s1);
    states, steps := Then(v, states, steps, s1, SpawnFiber, s2);
  }

  lemma LaunchRun<T, R>(g: T -> (T, R), v: T) returns (states: seq<State<T, R>>, steps: seq<Step<T, R>>)
    ensures Completes(v, states, steps, Launch(g), g(v).0, Result(g(v).1))
  {
    var job: Job<T, R> := Execute(0, Launch(g), true);
    var s := After(Ran(g, v).(resp := W, answered := 1, fiber := None), g(v).0, Visiting(1), [Fiber([], Finishing)]);
    assert Ran(g, v).answered == 0;
    assert Answered(s, Launch(g)) && ReplyOf(Launch(g), s.chans[0].data) == Result(g(v).1) && s.value == g(v).0;
    hide *;
    ReceiveStep(Handed(g), v, job);
    EffectStep(g, v);
    CompleteStep(Ran(g, v), g(v).0, Launch(g));
    var s3 := After(Handed(g), v, Visiting(1), [Fiber([], Running(job))]);
    var s4 := After(Ran(g, v), g(v).0, Visiting(1), [Fiber([], Effected(job))]);
    states, steps := HandedRun(g, v);
    states, steps := Then(v, states, steps, After(Handed(g), v, Visiting(1), [Fiber([job], Receiving)]), Receive(0), s3);
    states, steps := Then(v, states, steps, s3, FiberEffect(0), s4);
    states, steps := Then(v, states, steps, s4, FiberComplete(0), s);
    states, steps := ReadRun(v, states, steps, s, Launch(g));
  }

  /** For every request a handle can send there is a run in which the call is made, executed and
      answered, and its client reads the reply the request's own closure gives. */
  lemma EveryCallCompletes<T, R>(req: Request<T, R>, v: T)
    returns (states: seq<State<T, R>>, steps: seq<Step<T, R>>, v': T, reply: Reply<T, R>)
    requires !req.Terminate? && (req.CallMutRetUnit? ==> req.repeat < 256)
    ensures Completes(v, states, steps, req, v', reply)
    ensures req.CallMutRetUnit? ==> v' == Iterate(req.f, req.repeat, v) && reply == Nothing
    ensures !req.CallMutRetUnit? ==> Executes(req, v, v', reply)
  {
    hide Completes;
    match req
    case CallMutRetUnit(f, n) =>
      v', reply := Iterate(f, n, v), Nothing;
      states, steps := BatchCompletes(f, n, v);
    case IntoInner =>
      v', reply := v, Inner(v);
      states, steps := MoveRun<T, R>(v);
    case Launch(g) =>
      v', reply := g(v).0, Result(g(v).1);
      states, steps := LaunchRun(g, v);
    case _ =>
      v', reply := Apply(req, v).0, Apply(req, v).1;
      states, steps := CallRun(req, v);
  }
}
