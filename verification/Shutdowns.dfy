/** The Terminate sequence: the worker joins its fibers while the terminator hands out
    Shutdown messages. It terminates, is never stuck, and loses no job. */
module Shutdowns {
  import opened Wrappers
  import opened Operations
  import opened Protocol
  import opened Invariant
  import opened Refinement
  import opened Summary
  import ClientSteps
  import TrusteeSteps
  import FiberSteps

  // ---- the measure --------------------------------------------------------------

  /** How far a fiber is from being gone. */
  function Weight<T, R>(fb: Fiber<T, R>): nat
  {
    match fb.pc
    case Receiving => if fb.inbox == [] then 2 else if fb.inbox[0].Shutdown? then 1 else 7
    case Running(_) => 6
    case Effected(_) => 5
    case Finishing => 4
    case Gone => 0
  }

  function Weights<T, R>(fibers: seq<Fiber<T, R>>): nat
  {
    if fibers == [] then 0 else Weights(fibers[..|fibers| - 1]) + Weight(fibers[|fibers| - 1])
  }

  function TerminatorLeft(t: TerminatorPc): nat
  {
    match t
    case Unspawned => 3
    case Polling => 2
    case Holding(_, last) => if last then 1 else 2
    case Sweeping => 1
    case Ended => 0
  }

  function JoinsLeft<T, R>(s: State<T, R>): nat
  {
    match s.trustee
    case Joining(joined) => if joined <= |s.fibers| then |s.fibers| - joined + 2 else 2
    case JoiningTerminator => 1
    case _ => 0
  }

  function Measure<T, R>(s: State<T, R>): nat
  {
    Weights(s.fibers) + |s.pool| + TerminatorLeft(s.terminator) + JoinsLeft(s)
  }

  lemma {:induction false} WeightsUpdate<T, R>(fibers: seq<Fiber<T, R>>, f: nat, fb: Fiber<T, R>)
    requires f < |fibers|
    ensures Weights(fibers[f := fb]) + Weight(fibers[f]) == Weights(fibers) + Weight(fb)
    decreases |fibers|
  {
    var n := |fibers| - 1;
    if f == n {
      assert fibers[f := fb][..n] == fibers[..n];
    } else {
      assert fibers[f := fb][..n] == fibers[..n][f := fb];
      WeightsUpdate(fibers[..n], f, fb);
    }
  }

  lemma {:induction false} WeightsBound<T, R>(fibers: seq<Fiber<T, R>>)
    ensures Weights(fibers) <= 7 * |fibers|
    decreases |fibers|
  {
    if fibers != [] {
      WeightsBound(fibers[..|fibers| - 1]);
    }
  }

  lemma MeasureBound<T, R>(s: State<T, R>)
    requires s.terminator != Unspawned
    ensures Measure(s) <= 8 * |s.fibers| + |s.pool| + 4
  {
    WeightsBound(s.fibers);
  }

  // ---- every step of the shutdown makes progress ----------------------------------

  /** Steps of fibers, of the terminator, and joins. */
  predicate WindsDown<T, R>(step: Step<T, R>)
  {
    || step.Receive? || step.FiberEffect? || step.FiberComplete? || step.FiberPush?
    || step.TermPop? || step.TermSend? || step.TermSeeDone? || step.TermEnd?
    || step.JoinFiber? || step.SetDone? || step.JoinTerminator?
  }

  /** One fiber moves on; the pool grows by at most one when it returns to it. */
  lemma FiberDown<T, R>(s: State<T, R>, f: nat, s': State<T, R>)
    requires f < |s.fibers| && |s'.fibers| == |s.fibers| && s'.fibers == s.fibers[f := s'.fibers[f]]
    requires s'.terminator == s.terminator && s'.trustee == s.trustee
    requires Weight(s'.fibers[f]) + |s'.pool| < Weight(s.fibers[f]) + |s.pool|
    ensures Measure(s') < Measure(s)
  {
    WeightsUpdate(s.fibers, f, s'.fibers[f]);
  }

  /** A message in the inbox is the only one, and the fiber is receiving. */
  lemma InboxIsSingle<T, R>(s: State<T, R>, f: nat)
    requires FibersOk(s) && f < |s.fibers| && s.fibers[f].inbox != []
    ensures |s.fibers[f].inbox| == 1 && s.fibers[f].pc == Receiving
  {
    assert FiberOk(s, f);
  }

  lemma FiberWindsDown<T, R>(s: State<T, R>, step: Step<T, R>, s': State<T, R>)
    requires FibersOk(s) && Next(s, step, s')
    requires step.Receive? || step.FiberEffect? || step.FiberComplete? || step.FiberPush?
    ensures Measure(s') < Measure(s)
  {
    hide Measure, Apply;
    match step
    case Receive(f) =>
      InboxIsSingle(s, f);
      FiberDown(s, f, s');
    case FiberEffect(f) => FiberDown(s, f, s');
    case FiberComplete(f) => FiberDown(s, f, s');
    case FiberPush(f) =>
      FinishingIsEmpty(s, f);
      FiberDown(s, f, s');
  }

  lemma FinishingIsEmpty<T, R>(s: State<T, R>, f: nat)
    requires FibersOk(s) && f < |s.fibers| && s.fibers[f].pc == Finishing
    ensures s.fibers[f].inbox == []
  {
    assert FiberOk(s, f);
  }

  lemma OthersWindDown<T, R>(s: State<T, R>, step: Step<T, R>, s': State<T, R>)
    requires Inv(s) && Next(s, step, s')
    requires WindsDown(step) && !(step.Receive? || step.FiberEffect? || step.FiberComplete? || step.FiberPush?)
    ensures Measure(s') < Measure(s)
  {
    hide Inv;
    if step.TermSend? {
      TermSendDown(s, s');
    } else {
      hide Weights;
    }
  }

  lemma TermSendDown<T, R>(s: State<T, R>, s': State<T, R>)
    requires Inv(s) && DoTermSend(s, s')
    ensures Measure(s') < Measure(s)
  {
    var f := s.terminator.f;
    FiberSteps.HeldIsIdle(s);
    WeightsUpdate(s.fibers, f, s'.fibers[f]);
    hide Inv, Weights;
  }

  /** Once the terminator runs, the trustee serves nobody, and clients change nothing that counts. */
  lemma ShutdownStep<T, R>(s: State<T, R>, step: Step<T, R>, s': State<T, R>)
    requires Inv(s) && Next(s, step, s') && s.terminator != Unspawned
    ensures s'.terminator != Unspawned
    ensures ClientSteps.ClientStep(step) || WindsDown(step)
    ensures Measure(s') <= Measure(s)
    ensures WindsDown(step) ==> Measure(s') < Measure(s)
  {
    hide ChansOk, FibersOk, RegistryOk, OwnersOk, TrusteeOk;
    OnlyWindsDown(s, step, s');
    if ClientSteps.ClientStep(step) {
      ClientsDoNotCount(s, step, s');
    } else if step.Receive? || step.FiberEffect? || step.FiberComplete? || step.FiberPush? {
      hide Next, Measure;
      FiberWindsDown(s, step, s');
    } else {
      hide Next, Measure;
      OthersWindDown(s, step, s');
    }
  }

  lemma OnlyWindsDown<T, R>(s: State<T, R>, step: Step<T, R>, s': State<T, R>)
    requires Next(s, step, s') && s.terminator != Unspawned && (Terminating(s.trustee) || s.trustee == Exited)
    ensures ClientSteps.ClientStep(step) || WindsDown(step)
    ensures s'.terminator != Unspawned
  {
    hide Next;
    if TrusteeSteps.ServiceStep(step) {
      ServiceNeedsScan(s, step, s');
    } else if ClientSteps.ClientStep(step) {
      ClientKeepsTerminator(s, step, s');
    } else {
      OtherWindsDown(s, step, s');
    }
  }

  lemma ClientKeepsTerminator<T, R>(s: State<T, R>, step: Step<T, R>, s': State<T, R>)
    requires Next(s, step, s') && ClientSteps.ClientStep(step)
    ensures s'.terminator == s.terminator
  {
    hide NoHandles, MaySend;
  }

  lemma OtherWindsDown<T, R>(s: State<T, R>, step: Step<T, R>, s': State<T, R>)
    requires Next(s, step, s') && s.terminator != Unspawned && (Terminating(s.trustee) || s.trustee == Exited)
    requires !ClientSteps.ClientStep(step) && !TrusteeSteps.ServiceStep(step)
    ensures WindsDown(step) && s'.terminator != Unspawned
  {
    hide Apply, NoHandles, MaySend;
  }

  lemma PlanningInLoop<T, R>(s: State<T, R>, step: Step<T, R>, s': State<T, R>)
    requires Next(s, step, s') && Planning(step)
    ensures s.trustee == RoundTop || s.trustee.Draining? || Offset(s.trustee).Some?
  {
    hide Apply, NoHandles, MaySend;
  }

  /** The trustee's scan and service steps belong to the worker loop proper. */
  lemma ServiceNeedsScan<T, R>(s: State<T, R>, step: Step<T, R>, s': State<T, R>)
    requires Next(s, step, s') && TrusteeSteps.ServiceStep(step)
    ensures !Terminating(s.trustee) && s.trustee != Exited
  {
    hide Next;
    if Planning(step) {
      PlanningInLoop(s, step, s');
    } else {
      ServiceSummary(s, step, s');
    }
  }

  lemma ClientsDoNotCount<T, R>(s: State<T, R>, step: Step<T, R>, s': State<T, R>)
    requires Next(s, step, s') && ClientSteps.ClientStep(step)
    ensures Measure(s') == Measure(s)
  {
    hide Weights;
  }

  ghost function WindDownCount<T, R>(steps: seq<Step<T, R>>, i: nat, j: nat): nat
    requires i <= j <= |steps|
  {
    if i == j then 0 else WindDownCount(steps, i, j - 1) + (if WindsDown(steps[j - 1]) then 1 else 0)
  }

  // ---- it is never stuck -----------------------------------------------------------

  ghost predicate CanWindDown<T(!new), R(!new)>(s: State<T, R>)
  {
    exists step: Step<T, R>, s' :: WindsDown(step) && Next(s, step, s')
  }

  lemma CanStep<T(!new), R(!new)>(s: State<T, R>, step: Step<T, R>, s': State<T, R>)
    requires WindsDown(step) && Next(s, step, s')
    ensures CanWindDown(s)
  {
  }

  /** A terminator that has not ended can move, or its pool is empty and it polls. */
  lemma TerminatorMoves<T(!new), R(!new)>(s: State<T, R>)
    requires Inv(s) && s.terminator !in {Unspawned, Ended}
    requires s.pool != [] || s.done || s.terminator.Holding?
    ensures CanWindDown(s)
  {
    if s.terminator.Holding? {
      var f := s.terminator.f;
      FiberSteps.HeldIsIdle(s);
      var fb := s.fibers[f];
      var back := if s.terminator.last then Sweeping else Polling;
      CanStep(s, TermSend, s.(terminator := back, fibers := s.fibers[f := fb.(inbox := fb.inbox + [Shutdown])]));
    } else if s.pool != [] {
      CanStep(s, TermPop, s.(pool := s.pool[1..], terminator := Holding(s.pool[0], s.terminator == Sweeping)));
    } else if s.terminator == Polling {
      CanStep(s, TermSeeDone, s.(terminator := Sweeping));
    } else {
      CanStep(s, TermEnd, s.(terminator := Ended));
    }
  }

  /** A fiber with a job can go on with it. */
  lemma BusyFiberMoves<T(!new), R(!new)>(s: State<T, R>, f: nat)
    requires FibersOk(s) && f < |s.fibers| && (s.fibers[f].pc.Running? || s.fibers[f].pc.Effected?)
    ensures CanWindDown(s)
  {
    var fb := s.fibers[f];
    assert FiberOk(s, f);
    var job := fb.pc.job;
    var ch := s.chans[job.chan];
    if fb.pc.Running? {
      CanStep(s, FiberEffect(f), Put(s, job.chan, ch.(data := Apply(job.hdr, s.value).1, left := 0))
        .(value := Apply(job.hdr, s.value).0, fibers := s.fibers[f := fb.(pc := Effected(job))]));
    } else {
      CanStep(s, FiberComplete(f),
        Put(s, job.chan, ch.(resp := Word(job.ready, 1), answered := ch.answered + 1, fiber := None))
        .(fibers := s.fibers[f := fb.(pc := Finishing)]));
    }
  }

  /** A fiber that is not gone can move, or its sender is where the terminator finds it. */
  lemma FiberMoves<T(!new), R(!new)>(s: State<T, R>, f: nat)
    requires Inv(s) && s.trustee.Joining? && f < |s.fibers| && s.fibers[f].pc != Gone
    ensures CanWindDown(s)
  {
    var fb := s.fibers[f];
    if fb.pc.Running? || fb.pc.Effected? {
      BusyFiberMoves(s, f);
    } else if fb.pc == Finishing {
      CanStep(s, FiberPush(f), s.(pool := s.pool + [f], fibers := s.fibers[f := fb.(pc := Receiving)]));
    } else if fb.inbox != [] {
      var job := fb.inbox[0];
      CanStep(s, Receive(f), s.(fibers := s.fibers[f := Fiber(fb.inbox[1..], if job.Shutdown? then Gone else Running(job))]));
    } else {
      hide ChansOk, RegistryOk, OwnersOk, CanWindDown;
      assert FiberOk(s, f);
      TerminatorMoves(s);
    }
  }

  /** Until the worker has exited, somebody can make progress. */
  lemma ShutdownNotStuck<T(!new), R(!new)>(s: State<T, R>)
    requires Inv(s) && Terminating(s.trustee)
    ensures CanWindDown(s)
  {
    match s.trustee
    case Joining(joined) =>
      if joined >= |s.fibers| {
        CanStep(s, SetDone, s.(trustee := JoiningTerminator, done := true));
      } else if s.fibers[joined].pc == Gone {
        CanStep(s, JoinFiber, s.(trustee := Joining(joined + 1)));
      } else {
        FiberMoves(s, joined);
      }
    case JoiningTerminator =>
      if s.terminator == Ended {
        CanStep(s, JoinTerminator, s.(trustee := Exited));
      } else {
        TerminatorMoves(s);
      }
  }

  // ---- and it loses nothing ---------------------------------------------------------

  /** When the worker has exited after a Terminate, every fiber is gone, the pool is empty,
      the terminator has ended, and no channel is waiting for a fiber. */
  lemma ShutdownIsClean<T(!new), R(!new)>(s: State<T, R>)
    requires Inv(s) && s.trustee == Exited && s.terminator != Unspawned
    ensures s.terminator == Ended && s.pool == []
    ensures forall f :: 0 <= f < |s.fibers| ==> s.fibers[f] == Fiber([], Gone)
    ensures forall c :: 0 <= c < |s.chans| ==> s.chans[c].fiber.None?
  {
    hide ChansOk, RegistryOk, OwnersOk;
    forall f | 0 <= f < |s.fibers| ensures s.fibers[f] == Fiber([], Gone) && f !in s.pool {
      assert FiberOk(s, f);
    }
    FirstIsIn(s.pool);
    forall c | 0 <= c < |s.chans| ensures s.chans[c].fiber.None? {
      assert LinkOk(s, c);
    }
  }

  lemma FirstIsIn(pool: seq<nat>)
    ensures pool == [] || pool[0] in pool
  {
  }

  /** A Shutdown is only sent to a fiber with nothing to do, so no job is behind one. */
  lemma ShutdownOnlyToIdle<T(!new), R(!new)>(s: State<T, R>, s': State<T, R>)
    requires Inv(s) && DoTermSend(s, s')
    ensures s.fibers[s.terminator.f] == Fiber([], Receiving)
    ensures s'.fibers[s.terminator.f] == Fiber([Shutdown], Receiving)
  {
    FiberSteps.HeldIsIdle(s);
  }

  lemma {:induction false} WindDownBound<T(!new), R(!new)>(v: T, states: seq<State<T, R>>, steps: seq<Step<T, R>>, i: nat, j: nat)
    requires Run(v, states, steps) && i <= j < |states| && states[i].terminator != Unspawned
    ensures states[j].terminator != Unspawned
    ensures Measure(states[j]) + WindDownCount(steps, i, j) <= Measure(states[i])
    decreases j - i
  {
    hide Next, Inv, Measure;
    if i < j {
      WindDownBound(v, states, steps, i, j - 1);
      ReachableInv(v, states, steps, j - 1);
      RunStep(v, states, steps, j - 1);
      hide Run;
      ShutdownStep(states[j - 1], steps[j - 1], states[j]);
    }
  }

  /** Shutdown terminates and is clean: once the terminator runs, at most Measure steps of
      fibers, terminator and joins remain in any run; until the worker has exited one of
      them is possible; and then every fiber is gone, every launch answered, the pool empty. */
  lemma ShutdownCompletes<T(!new), R(!new)>(v: T, states: seq<State<T, R>>, steps: seq<Step<T, R>>, i: nat, j: nat)
    requires Run(v, states, steps) && i <= j < |states| && states[i].terminator != Unspawned
    ensures WindDownCount(steps, i, j) <= Measure(states[i]) <= 8 * |states[i].fibers| + |states[i].pool| + 4
    ensures WindDownCount(steps, i, j) == Measure(states[i]) ==> states[j].trustee == Exited
    ensures if states[j].trustee == Exited then
              && states[j].terminator == Ended && states[j].pool == []
              && (forall f :: 0 <= f < |states[j].fibers| ==> states[j].fibers[f] == Fiber([], Gone))
              && (forall c :: 0 <= c < |states[j].chans| ==> states[j].chans[c].fiber.None?)
            else CanWindDown(states[j])
  {
    hide Next, WindDownCount, CanWindDown;
    WindDownBound(v, states, steps, i, j);
    MeasureBound(states[i]);
    ReachableInv(v, states, steps, j);
    hide Run;
    if states[j].trustee == Exited {
      ShutdownIsClean(states[j]);
    } else {
      assert Terminating(states[j].trustee);
      ShutdownNotStuck(states[j]);
    }
  }
}
