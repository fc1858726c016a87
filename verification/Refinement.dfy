/** The protocol refines the atomic object: forward simulation, step by step and over
    whole runs. */
module Refinement {
  import opened Operations
  import opened Protocol
  import opened Invariant
  import opened FiberSteps
  import Summary
  import A = Atomic
  import ClientSteps
  import TrusteeSteps

  /** Batches return nothing; every other reply is read from the response slot. */
  function ReplyOf<T, R>(req: Request<T, R>, data: Reply<T, R>): Reply<T, R>
  {
    if req.CallMutRetUnit? then Nothing else data
  }

  /** A call is open from the store of its flag to the read of its reply. */
  function AbsCall<T, R>(ch: Channel<T, R>): A.Call<T, R>
  {
    if (ch.pc.Waiting? || ch.pc.Ready?) && ch.record.Some? then
      if ch.left > 0 then A.Pending(ch.record.value, ch.left)
      else A.Done(ch.record.value, ReplyOf(ch.record.value, ch.data))
    else A.Free
  }

  function AbsCalls<T, R>(chans: seq<Channel<T, R>>): (calls: seq<A.Call<T, R>>)
    ensures |calls| == |chans|
    ensures forall c :: 0 <= c < |chans| ==> calls[c] == AbsCall(chans[c])
  {
    if chans == [] then [] else AbsCalls(chans[..|chans| - 1]) + [AbsCall(chans[|chans| - 1])]
  }

  function Abs<T, R>(s: State<T, R>): A.Object<T, R>
  {
    A.Object(s.value, AbsCalls(s.chans))
  }

  function RecordOf<T, R>(s: State<T, R>, c: nat): Request<T, R>
  {
    if c < |s.chans| && s.chans[c].record.Some? then s.chans[c].record.value else Terminate
  }

  /** What the client of channel `c` gets if it reads now. */
  function ReplyAt<T, R>(s: State<T, R>, c: nat): Reply<T, R>
  {
    if c < |s.chans| then ReplyOf(RecordOf(s, c), s.chans[c].data) else Nothing
  }

  function JobOf<T, R>(s: State<T, R>, f: nat): A.Label<T, R>
  {
    if f < |s.fibers| && s.fibers[f].pc.Running? && s.fibers[f].pc.job.Execute? then
      A.Effect(s.fibers[f].pc.job.chan, s.fibers[f].pc.job.hdr)
    else A.Tau
  }

  function ServedLabel<T, R>(s: State<T, R>): A.Label<T, R>
  {
    if s.trustee.Serving? then A.Effect(s.trustee.c, RecordOf(s, s.trustee.c)) else A.Tau
  }

  /** What a step means for the object: the store of the flag invokes, the closure's run
      is the effect, the read of the reply returns, and all else is silent. */
  function LabelOf<T, R>(s: State<T, R>, step: Step<T, R>): A.Label<T, R>
  {
    match step
    case StoreRequest(c) => A.Invoke(c, RecordOf(s, c))
    case ReadBack(c) => A.Return(c, ReplyAt(s, c))
    case ExecRepeat => ServedLabel(s)
    case ExecCall => ServedLabel(s)
    case MoveOut => ServedLabel(s)
    case FiberEffect(f) => JobOf(s, f)
    case CloneHandle(_) => A.Join
    case Entrust => A.Join
    case DropRuntime => A.Join
    case _ => A.Tau
  }

  lemma AbsPut<T, R>(s: State<T, R>, c: nat, chans': seq<Channel<T, R>>)
    requires c < |s.chans| == |chans'|
    requires forall d :: 0 <= d < |s.chans| && d != c ==> chans'[d] == s.chans[d]
    ensures AbsCalls(chans') == AbsCalls(s.chans)[c := AbsCall(chans'[c])]
  {
  }

  /** A step at channel `c` that does not change how its call looks. */
  lemma AbsSilent<T, R>(s: State<T, R>, c: nat, s': State<T, R>)
    requires c < |s.chans| == |s'.chans| && s'.value == s.value
    requires forall d :: 0 <= d < |s.chans| && d != c ==> s'.chans[d] == s.chans[d]
    requires AbsCall(s'.chans[c]) == AbsCall(s.chans[c])
    ensures Abs(s') == Abs(s)
  {
    AbsPut(s, c, s'.chans);
    AbsPut(s, c, s.chans);
  }

  lemma RegisterRefines<T, R>(s: State<T, R>, kind: Kind, s': State<T, R>)
    requires s'.chans == s.chans + [NewChannel(kind)] && s'.value == s.value
    ensures A.AtomicNext(Abs(s), A.Join, Abs(s'))
  {
    assert Abs(s') == Abs(s).(calls := Abs(s).calls + [A.Free]);
  }

  // ---- clients --------------------------------------------------------------

  lemma WriteRefines<T, R>(s: State<T, R>, c: nat, req: Request<T, R>, s': State<T, R>)
    requires DoWrite(s, c, req, s')
    ensures Abs(s') == Abs(s)
  {
    AbsSilent(s, c, s');
  }

  lemma LoadToggleRefines<T, R>(s: State<T, R>, c: nat, s': State<T, R>)
    requires DoLoadToggle(s, c, s')
    ensures Abs(s') == Abs(s)
  {
    AbsSilent(s, c, s');
  }

  lemma StoreRequestRefines<T, R>(s: State<T, R>, c: nat, s': State<T, R>)
    requires DoStoreRequest(s, c, s')
    ensures A.AtomicNext(Abs(s), A.Invoke(c, RecordOf(s, c)), Abs(s'))
  {
    AbsPut(s, c, s'.chans);
  }

  lemma PollRefines<T, R>(s: State<T, R>, c: nat, s': State<T, R>)
    requires DoPoll(s, c, s')
    ensures Abs(s') == Abs(s)
  {
    AbsSilent(s, c, s');
  }

  /** A client reads only once its bit is back, so the answer to its own request is there. */
  lemma ReadBackRefines<T, R>(s: State<T, R>, c: nat, s': State<T, R>)
    requires ChansOk(s) && DoReadBack(s, c, s')
    ensures A.AtomicNext(Abs(s), A.Return(c, ReplyAt(s, c)), Abs(s'))
  {
    assert ChanOk(s.chans[c]);
    AbsPut(s, c, s'.chans);
  }

  lemma DropHandleRefines<T, R>(s: State<T, R>, c: nat, s': State<T, R>)
    requires DoDropHandle(s, c, s')
    ensures Abs(s') == Abs(s)
  {
    AbsSilent(s, c, s');
  }

  // ---- executions -------------------------------------------------------------

  /** A channel in service or in flight is a pending call that is owed executions. */
  lemma ExecRepeatRefines<T, R>(s: State<T, R>, s': State<T, R>)
    requires ChansOk(s) && TrusteeOk(s) && DoExecRepeat(s, s')
    ensures A.AtomicNext(Abs(s), ServedLabel(s), Abs(s'))
  {
    assert ChanOk(s.chans[s.trustee.c]);
    AbsPut(s, s.trustee.c, s'.chans);
  }

  lemma ExecCallRefines<T, R>(s: State<T, R>, s': State<T, R>)
    requires ChansOk(s) && TrusteeOk(s) && DoExecCall(s, s')
    ensures A.AtomicNext(Abs(s), ServedLabel(s), Abs(s'))
  {
    assert ChanOk(s.chans[s.trustee.c]);
    AbsPut(s, s.trustee.c, s'.chans);
  }

  lemma MoveOutRefines<T, R>(s: State<T, R>, s': State<T, R>)
    requires ChansOk(s) && TrusteeOk(s) && DoMoveOut(s, s')
    ensures A.AtomicNext(Abs(s), ServedLabel(s), Abs(s'))
  {
    assert ChanOk(s.chans[s.trustee.c]);
    AbsPut(s, s.trustee.c, s'.chans);
  }

  lemma FiberEffectRefines<T, R>(s: State<T, R>, f: nat, s': State<T, R>)
    requires ChansOk(s) && FibersOk(s) && DoFiberEffect(s, f, s')
    ensures A.AtomicNext(Abs(s), JobOf(s, f), Abs(s'))
  {
    var c := s.fibers[f].pc.job.chan;
    assert FiberOk(s, f) && ChanOk(s.chans[c]);
    AbsPut(s, c, s'.chans);
  }

  /** The remaining trustee and fiber steps at a channel change only flags. */
  lemma FlagsRefine<T, R>(s: State<T, R>, c: nat, s': State<T, R>)
    requires c < |s.chans| == |s'.chans| && s'.value == s.value
    requires forall d :: 0 <= d < |s.chans| && d != c ==> s'.chans[d] == s.chans[d]
    requires var ch, ch' := s.chans[c], s'.chans[c];
             ch'.pc == ch.pc && ch'.record == ch.record && ch'.left == ch.left && ch'.data == ch.data
    ensures Abs(s') == Abs(s)
  {
    AbsSilent(s, c, s');
  }

  predicate Visible<T, R>(step: Step<T, R>)
  {
    || step.StoreRequest? || step.ReadBack? || step.ExecRepeat? || step.ExecCall? || step.MoveOut?
    || step.FiberEffect? || step.CloneHandle? || step.Entrust? || step.DropRuntime?
  }

  lemma ClientSilent<T, R>(s: State<T, R>, step: Step<T, R>, s': State<T, R>)
    requires Next(s, step, s') && !Visible(step) && ClientSteps.ClientStep(step)
    ensures Abs(s') == Abs(s)
  {
    match step
    case Write(c, req) => WriteRefines(s, c, req, s');
    case LoadToggle(c) => LoadToggleRefines(s, c, s');
    case Poll(c) => PollRefines(s, c, s');
    case DropHandle(c) => DropHandleRefines(s, c, s');
  }

  /** Silent trustee steps that store a flag, a response word or a fiber. */
  predicate FlagStep<T, R>(step: Step<T, R>)
  {
    step.Decide? || step.StoreResponse? || step.StoreMoved? || step.BeginLaunch? || step.SendJob? || step.SpawnFiber?
  }

  lemma DecideRefines<T, R>(s: State<T, R>, s': State<T, R>)
    requires DoDecide(s, s')
    ensures Abs(s') == Abs(s)
  {
    FlagsRefine(s, s.trustee.c, s');
  }

  lemma StoreResponseRefines<T, R>(s: State<T, R>, s': State<T, R>)
    requires DoStoreResponse(s, s')
    ensures Abs(s') == Abs(s)
  {
    FlagsRefine(s, s.trustee.c, s');
  }

  lemma StoreMovedRefines<T, R>(s: State<T, R>, s': State<T, R>)
    requires DoStoreMoved(s, s')
    ensures Abs(s') == Abs(s)
  {
    FlagsRefine(s, s.trustee.c, s');
  }

  lemma BeginLaunchRefines<T, R>(s: State<T, R>, s': State<T, R>)
    requires DoBeginLaunch(s, s')
    ensures Abs(s') == Abs(s)
  {
    FlagsRefine(s, s.trustee.c, s');
  }

  lemma SendJobRefines<T, R>(s: State<T, R>, s': State<T, R>)
    requires DoSendJob(s, s')
    ensures Abs(s') == Abs(s)
  {
    FlagsRefine(s, s.trustee.c, s');
  }

  lemma SpawnFiberRefines<T, R>(s: State<T, R>, s': State<T, R>)
    requires DoSpawnFiber(s, s')
    ensures Abs(s') == Abs(s)
  {
    FlagsRefine(s, s.trustee.c, s');
  }

  lemma FlagStepSilent<T, R>(s: State<T, R>, step: Step<T, R>, s': State<T, R>)
    requires Next(s, step, s') && FlagStep(step)
    ensures Abs(s') == Abs(s)
  {
    hide Abs, AbsCalls;
    match step
    case Decide => DecideRefines(s, s');
    case StoreResponse => StoreResponseRefines(s, s');
    case StoreMoved => StoreMovedRefines(s, s');
    case BeginLaunch => BeginLaunchRefines(s, s');
    case SendJob => SendJobRefines(s, s');
    case SpawnFiber => SpawnFiberRefines(s, s');
  }

  lemma ServiceSilent<T, R>(s: State<T, R>, step: Step<T, R>, s': State<T, R>)
    requires Next(s, step, s') && !Visible(step) && TrusteeSteps.ServiceStep(step) && !FlagStep(step)
    ensures Abs(s') == Abs(s)
  {
    hide Next;
    Summary.PlanningSame(s, step, s');
  }

  lemma OtherSilent<T, R>(s: State<T, R>, step: Step<T, R>, s': State<T, R>)
    requires Next(s, step, s') && !Visible(step) && !ClientSteps.ClientStep(step) && !TrusteeSteps.ServiceStep(step)
    ensures Abs(s') == Abs(s)
  {
    hide AbsCalls;
    match step
    case FiberComplete(f) => FlagsRefine(s, s.fibers[f].pc.job.chan, s');
    case _ =>
  }

  lemma VisibleRefines<T, R>(s: State<T, R>, step: Step<T, R>, s': State<T, R>)
    requires Inv(s) && Next(s, step, s') && Visible(step)
    ensures A.AtomicNext(Abs(s), LabelOf(s, step), Abs(s'))
  {
    hide ChansOk, FibersOk, TrusteeOk, ShutdownOk, OwnersOk, RegistryOk, Abs, AbsCalls, A.AtomicNext;
    match step
    case StoreRequest(c) => StoreRequestRefines(s, c, s');
    case ReadBack(c) => ReadBackRefines(s, c, s');
    case ExecRepeat => ExecRepeatRefines(s, s');
    case ExecCall => ExecCallRefines(s, s');
    case MoveOut => MoveOutRefines(s, s');
    case FiberEffect(f) => FiberEffectRefines(s, f, s');
    case CloneHandle(c) => RegisterRefines(s, Handle, s');
    case Entrust => RegisterRefines(s, Handle, s');
    case DropRuntime => RegisterRefines(s, Terminator, s');
  }

  /** Every step of the protocol is a step of the object, or none. */
  lemma NextRefines<T, R>(s: State<T, R>, step: Step<T, R>, s': State<T, R>)
    requires Inv(s) && Next(s, step, s')
    ensures A.AtomicNext(Abs(s), LabelOf(s, step), Abs(s'))
  {
    hide Inv, Next;
    if Visible(step) {
      VisibleRefines(s, step, s');
    } else if ClientSteps.ClientStep(step) {
      ClientSilent(s, step, s');
    } else if FlagStep(step) {
      FlagStepSilent(s, step, s');
    } else if TrusteeSteps.ServiceStep(step) {
      ServiceSilent(s, step, s');
    } else {
      OtherSilent(s, step, s');
    }
  }

  // ---- whole runs -------------------------------------------------------------

  /** Any interleaving of any number of steps, from a fresh runtime. */
  ghost predicate Run<T, R>(v: T, states: seq<State<T, R>>, steps: seq<Step<T, R>>)
  {
    && |states| == |steps| + 1
    && (states[0] == InitState(true, v) || states[0] == InitState(false, v))
    && forall i :: 0 <= i < |steps| ==> Next(states[i], steps[i], states[i + 1])
  }

  lemma RunStep<T, R>(v: T, states: seq<State<T, R>>, steps: seq<Step<T, R>>, i: nat)
    requires Run(v, states, steps) && i + 1 < |states|
    ensures |states| == |steps| + 1 && Next(states[i], steps[i], states[i + 1])
  {
  }

  lemma RunLength<T, R>(v: T, states: seq<State<T, R>>, steps: seq<Step<T, R>>)
    requires Run(v, states, steps)
    ensures |states| == |steps| + 1
  {
  }

  lemma RunSnoc<T, R>(v: T, states: seq<State<T, R>>, steps: seq<Step<T, R>>, step: Step<T, R>, s': State<T, R>)
    requires Run(v, states, steps) && |states| == |steps| + 1 && Next(states[|steps|], step, s')
    ensures Run(v, states + [s'], steps + [step])
  {
    hide Next;
  }

  lemma {:induction false} ReachableInv<T, R>(v: T, states: seq<State<T, R>>, steps: seq<Step<T, R>>, n: nat)
    requires Run(v, states, steps) && n < |states|
    ensures Inv(states[n])
    decreases n
  {
    if n == 0 {
      InitInv<T, R>(true, v);
      InitInv<T, R>(false, v);
    } else {
      ReachableInv(v, states, steps, n - 1);
      NextKeepsInv(states[n - 1], steps[n - 1], states[n]);
    }
  }

  ghost function Objects<T, R>(states: seq<State<T, R>>): (objs: seq<A.Object<T, R>>)
    ensures |objs| == |states|
    ensures forall i :: 0 <= i < |states| ==> objs[i] == Abs(states[i])
  {
    if states == [] then [] else Objects(states[..|states| - 1]) + [Abs(states[|states| - 1])]
  }

  function Trace<T, R>(states: seq<State<T, R>>, steps: seq<Step<T, R>>): (labels: seq<A.Label<T, R>>)
    requires |states| == |steps| + 1
    ensures |labels| == |steps|
    ensures forall i :: 0 <= i < |steps| ==> labels[i] == LabelOf(states[i], steps[i])
    decreases |steps|
  {
    if steps == [] then []
    else
      var n := |steps| - 1;
      Trace(states[..n + 1], steps[..n]) + [LabelOf(states[n], steps[n])]
  }

  /** Linearizability: the labels of any run are a run of the atomic object. */
  lemma RunRefines<T, R>(v: T, states: seq<State<T, R>>, steps: seq<Step<T, R>>)
    requires Run(v, states, steps)
    ensures A.ObjectRun(Objects(states), Trace(states, steps))
    ensures Objects(states)[0] == A.Object(v, [A.Free])
  {
    var objs, labels := Objects(states), Trace(states, steps);
    forall i | 0 <= i < |labels| ensures A.AtomicNext(objs[i], labels[i], objs[i + 1]) {
      ReachableInv(v, states, steps, i);
      NextRefines(states[i], steps[i], states[i + 1]);
    }
    assert Objects(states)[0] == Abs(states[0]);
  }

  /** In every reachable state the property is the fold of the executions so far. */
  lemma ValueIsFoldOfExecutions<T, R>(v: T, states: seq<State<T, R>>, steps: seq<Step<T, R>>, n: nat)
    requires Run(v, states, steps) && n <= |steps|
    ensures states[n].value == Fold(v, A.Effects(Trace(states, steps)[..n]))
  {
    RunRefines(v, states, steps);
    A.ValueIsFold(Objects(states), Trace(states, steps), n);
  }

  /** Every reply any client reads is justified by the history: executed exactly as often
      as requested between its own flag store and the read, with the closure's result on
      the fold of all earlier executions. */
  lemma EveryReplyIsJustified<T, R>(v: T, states: seq<State<T, R>>, steps: seq<Step<T, R>>, j: nat)
    requires Run(v, states, steps) && j < |steps| && steps[j].ReadBack?
    ensures exists req, at: nat ::
      A.Justified(v, Trace(states, steps), steps[j].c, req, ReplyAt(states[j], steps[j].c), at, j)
  {
    hide Run;
    RunRefines(v, states, steps);
    A.ReturnIsJustified(Objects(states), Trace(states, steps), j);
  }
}
