/** The two ways the worker exits, and what is left behind: fibers, calls that come too late,
    and launches still in flight when into_inner moves the value out. */
module Exits {
  import opened Wrappers
  import opened Operations
  import opened Protocol
  import opened Invariant
  import opened Refinement
  import opened Summary
  import Shutdowns
  import Visits
  import Runs
  import Liveness
  import ClientSteps
  import TrusteeSteps

  // ---- fibers --------------------------------------------------------------------------

  /** After any exit, all fibers are gone if and only if it was a completed Terminate, or no
      fiber was ever spawned: into_inner leaves the pooled fibers waiting. */
  lemma FibersGoneExactly<T, R>(s: State<T, R>)
    requires Inv(s) && s.trustee == Exited
    ensures (forall f :: 0 <= f < |s.fibers| ==> s.fibers[f].pc == Gone) <==> s.terminator == Ended || s.fibers == []
  {
    hide ChansOk, RegistryOk, OwnersOk;
    if s.terminator != Ended && s.fibers != [] {
      assert FiberOk(s, 0);
    }
  }

  // ---- continuing a run --------------------------------------------------------------------

  ghost predicate Continues<T, R>(v: T, states: seq<State<T, R>>, steps: seq<Step<T, R>>,
                                  states': seq<State<T, R>>, steps': seq<Step<T, R>>)
  {
    Run(v, states', steps') && |states'| == |steps'| + 1 && states <= states' && steps <= steps'
  }

  /** Append one step to a run. */
  lemma Append<T, R>(v: T, states: seq<State<T, R>>, steps: seq<Step<T, R>>, step: Step<T, R>, s': State<T, R>)
    returns (states': seq<State<T, R>>, steps': seq<Step<T, R>>)
    requires Run(v, states, steps) && |states| == |steps| + 1 && Next(states[|steps|], step, s')
    ensures Continues(v, states, steps, states', steps') && states'[|steps'|] == s'
    ensures steps' == steps + [step] && states' == states + [s']
  {
    hide Run, Next;
    RunSnoc(v, states, steps, step, s');
    states', steps' := states + [s'], steps + [step];
  }

  /** Fiber f has the job of channel c: to be received, to be run, or to be completed. */
  ghost predicate Has<T, R>(s: State<T, R>, f: nat, c: nat)
  {
    f < |s.fibers| && c < |s.chans| && s.chans[c].fiber == Some(f) && HoldsJob(s.fibers[f], c)
  }

  lemma FiberHasJob<T, R>(s: State<T, R>, c: nat)
    requires Inv(s) && c < |s.chans| && s.chans[c].fiber.Some?
    ensures Has(s, s.chans[c].fiber.value, c)
    ensures var fb := s.fibers[s.chans[c].fiber.value];
            fb.inbox != [] ==> fb.pc == Receiving && fb.inbox[0].Execute? && fb.inbox[0].chan == c
  {
    assert LinkOk(s, c) && FiberOk(s, s.chans[c].fiber.value);
    hide ChansOk, TrusteeOk, ShutdownOk, OwnersOk, RegistryOk;
  }

  /** What of channel c no fiber changes, but for the number of answers. */
  ghost predicate SameCall<T, R>(s: State<T, R>, s': State<T, R>, c: nat)
  {
    && c < |s.chans| && c < |s'.chans|
    && ClientSideSame(s.chans[c], s'.chans[c])
  }

  /** The fiber receives its job, if it has not yet. */
  lemma ReceiveRun<T, R>(v: T, states: seq<State<T, R>>, steps: seq<Step<T, R>>, c: nat)
    returns (states': seq<State<T, R>>, steps': seq<Step<T, R>>, f: nat)
    requires Run(v, states, steps) && |states| == |steps| + 1
    requires c < |states[|steps|].chans| && states[|steps|].chans[c].fiber.Some?
    ensures Continues(v, states, steps, states', steps') && states'[|steps'|].chans == states[|steps|].chans
    ensures f < |states'[|steps'|].fibers| && Busy(states'[|steps'|].fibers[f], c)
  {
    var s := states[|steps|];
    ReachableInv(v, states, steps, |steps|);
    FiberHasJob(s, c);
    hide Run, Inv;
    f := s.chans[c].fiber.value;
    var fb := s.fibers[f];
    if fb.inbox != [] {
      var s1 := s.(fibers := s.fibers[f := Fiber(fb.inbox[1..], Running(fb.inbox[0]))]);
      assert Next(s, Receive(f), s1);
      states', steps' := Append(v, states, steps, Receive(f), s1);
    } else {
      states', steps' := states, steps;
    }
  }

  /** Past its receive, with the job of channel c. */
  predicate Busy<T, R>(fb: Fiber<T, R>, c: nat)
  {
    (fb.pc.Running? || fb.pc.Effected?) && fb.pc.job.Execute? && fb.pc.job.chan == c
  }

  /** It runs the closure. */
  lemma EffectRun<T, R>(v: T, states: seq<State<T, R>>, steps: seq<Step<T, R>>, c: nat, f: nat)
    returns (states': seq<State<T, R>>, steps': seq<Step<T, R>>)
    requires Run(v, states, steps) && |states| == |steps| + 1 && c < |states[|steps|].chans|
    requires f < |states[|steps|].fibers| && Busy(states[|steps|].fibers[f], c) && states[|steps|].fibers[f].pc.Running?
    ensures Continues(v, states, steps, states', steps') && steps < steps' && SameCall(states[|steps|], states'[|steps'|], c)
    ensures f < |states'[|steps'|].fibers| && states'[|steps'|].fibers[f].pc.Effected? && Busy(states'[|steps'|].fibers[f], c)
    ensures Trace(states', steps')[|steps'| - 1].Effect?
  {
    hide Run, Apply;
    var s := states[|steps|];
    var job := s.fibers[f].pc.job;
    var s' := Put(s, c, s.chans[c].(data := Apply(job.hdr, s.value).1, left := 0))
              .(value := Apply(job.hdr, s.value).0, fibers := s.fibers[f := s.fibers[f].(pc := Effected(job))]);
    assert Next(s, FiberEffect(f), s');
    states', steps' := Append(v, states, steps, FiberEffect(f), s');
    assert states'[|steps|] == s;
  }

  /** It stores the answer. */
  lemma CompleteRun<T, R>(v: T, states: seq<State<T, R>>, steps: seq<Step<T, R>>, c: nat, f: nat)
    returns (states': seq<State<T, R>>, steps': seq<Step<T, R>>)
    requires Run(v, states, steps) && |states| == |steps| + 1 && c < |states[|steps|].chans|
    requires f < |states[|steps|].fibers| && Busy(states[|steps|].fibers[f], c) && states[|steps|].fibers[f].pc.Effected?
    ensures Continues(v, states, steps, states', steps') && SameCall(states[|steps|], states'[|steps'|], c)
    ensures states'[|steps'|].chans[c].answered == states[|steps|].chans[c].answered + 1
  {
    hide Run;
    var s := states[|steps|];
    var job := s.fibers[f].pc.job;
    var s' := Put(s, c, s.chans[c].(resp := Word(job.ready, 1), answered := s.chans[c].answered + 1, fiber := None))
              .(fibers := s.fibers[f := s.fibers[f].(pc := Finishing)]);
    assert Next(s, FiberComplete(f), s');
    states', steps' := Append(v, states, steps, FiberComplete(f), s');
  }

  // ---- which calls can still return -----------------------------------------------------------

  /** The call of channel c can still be answered: its launch is with a fiber, or it is the
      into_inner that the trustee is about to answer. */
  predicate Answerable<T, R>(s: State<T, R>, c: nat)
  {
    c < |s.chans| && (s.chans[c].fiber.Some? || (s.trustee.MovedOut? && s.trustee.c == c))
  }

  /** Stored and not answered, after the trustee has begun to leave, and nobody will. */
  ghost predicate Doomed<T, R>(s: State<T, R>, c: nat)
  {
    Runs.Retired(s.trustee) && c < |s.chans| && Open(s.chans[c]) && !Answerable(s, c)
  }

  lemma ReadsWhenReady<T, R>(s: State<T, R>, step: Step<T, R>, s': State<T, R>, c: nat)
    requires Next(s, step, s') && c < |s.chans|
    ensures step == ReadBack(c) ==> s.chans[c].pc == Ready
  {
    if step == ReadBack(c) {
      assert DoReadBack(s, c, s');
    }
  }

  lemma WaitsWhileOpen<T, R>(ch: Channel<T, R>)
    requires ChanOk(ch) && Open(ch)
    ensures ch.pc.Waiting?
  {
  }

  lemma StoreMovedOnly<T, R>(s: State<T, R>, s': State<T, R>, c: nat)
    requires DoStoreMoved(s, s') && c < |s.chans| && s.trustee.c != c
    ensures c < |s'.chans| && s'.chans[c] == s.chans[c] && s'.trustee == Exited
  {
  }

  lemma DoomedStep<T, R>(s: State<T, R>, step: Step<T, R>, s': State<T, R>, c: nat)
    requires Inv(s) && Next(s, step, s') && Doomed(s, c)
    ensures Doomed(s', c) && step != ReadBack(c)
  {
    InvHasChans(s);
    assert ChanOk(s.chans[c]);
    assert step.StoreMoved? ==> DoStoreMoved(s, s');
    hide Inv, Next, ChansOk, FibersOk, ChanOk;
    WaitsWhileOpen(s.chans[c]);
    ReadsWhenReady(s, step, s', c);
    if TrusteeSteps.ServiceStep(step) {
      RetiredOnlyStores(s, step, s');
      StoreMovedOnly(s, s', c);
    } else {
      Runs.RetiredStep(s, step, s');
      Liveness.OthersKeepTrustee(s, step, s');
      Visits.OpenStaysOpen(s, step, s', c);
    }
  }

  lemma {:induction false} DoomedForever<T, R>(v: T, states: seq<State<T, R>>, steps: seq<Step<T, R>>, c: nat, i: nat, j: nat)
    requires Run(v, states, steps) && |states| == |steps| + 1 && i <= j < |states| && Doomed(states[i], c)
    ensures Doomed(states[j], c) && forall k :: i <= k < j ==> steps[k] != ReadBack(c)
    decreases j - i
  {
    hide Run, Next, Inv, Doomed;
    if i < j {
      DoomedForever(v, states, steps, c, i, j - 1);
      RunStep(v, states, steps, j - 1);
      ReachableInv(v, states, steps, j - 1);
      DoomedStep(states[j - 1], steps[j - 1], states[j], c);
    }
  }

  /** An answered handle takes a turn of its wait loop and reads. */
  lemma AnsweredReturns<T, R>(v: T, states: seq<State<T, R>>, steps: seq<Step<T, R>>, c: nat)
    returns (states': seq<State<T, R>>, steps': seq<Step<T, R>>)
    requires Run(v, states, steps) && |states| == |steps| + 1 && c < |states[|steps|].chans|
    requires var ch := states[|steps|].chans[c]; ch.kind == Handle && ch.pc.Waiting? && ch.sent == ch.answered
    ensures Continues(v, states, steps, states', steps') && steps < steps' && steps'[|steps'| - 1] == ReadBack(c)
  {
    var s := states[|steps|];
    var ch := s.chans[c];
    ReachableInv(v, states, steps, |steps|);
    assert ChanOk(ch);
    hide Run, Inv, ChanOk;
    var s1 := Put(s, c, ch.(pc := Ready));
    states', steps' := Append(v, states, steps, Poll(c), s1);
    var s2 := Put(s1, c, s1.chans[c].(pc := if ch.record.value.IntoInner? then Consumed else Idle));
    states', steps' := Append(v, states', steps', ReadBack(c), s2);
  }

  lemma MovedReturns<T, R>(v: T, states: seq<State<T, R>>, steps: seq<Step<T, R>>, c: nat)
    returns (states': seq<State<T, R>>, steps': seq<Step<T, R>>)
    requires Run(v, states, steps) && |states| == |steps| + 1 && c < |states[|steps|].chans|
    requires states[|steps|].trustee.MovedOut? && states[|steps|].trustee.c == c && states[|steps|].chans[c].kind == Handle
    ensures Continues(v, states, steps, states', steps') && steps < steps' && steps'[|steps'| - 1] == ReadBack(c)
  {
    var s := states[|steps|];
    var ch := s.chans[c];
    ReachableInv(v, states, steps, |steps|);
    assert ChanOk(ch) && Open(ch) && ch.pc.Waiting?;
    var s1 := Put(s, c, ch.(resp := Word(ch.req.ready, 1), answered := ch.answered + 1)).(trustee := Exited);
    assert Next(s, StoreMoved, s1);
    hide Run, Inv, Next, ChanOk;
    states', steps' := Append(v, states, steps, StoreMoved, s1);
    states', steps' := AnsweredReturns(v, states', steps', c);
  }

  lemma InFlightIsOpen<T, R>(v: T, states: seq<State<T, R>>, steps: seq<Step<T, R>>, c: nat)
    requires Run(v, states, steps) && |states| == |steps| + 1 && c < |states[|steps|].chans|
    requires states[|steps|].chans[c].fiber.Some?
    ensures var ch := states[|steps|].chans[c]; ch.sent == ch.answered + 1 && ch.pc.Waiting?
  {
    ReachableInv(v, states, steps, |steps|);
    hide Run;
    assert ChanOk(states[|steps|].chans[c]);
  }

  lemma InFlightReturns<T, R>(v: T, states: seq<State<T, R>>, steps: seq<Step<T, R>>, c: nat)
    returns (states': seq<State<T, R>>, steps': seq<Step<T, R>>)
    requires Run(v, states, steps) && |states| == |steps| + 1 && c < |states[|steps|].chans|
    requires states[|steps|].chans[c].fiber.Some? && states[|steps|].chans[c].kind == Handle
    ensures Continues(v, states, steps, states', steps') && steps < steps' && steps'[|steps'| - 1] == ReadBack(c)
  {
    hide Run, Inv;
    InFlightIsOpen(v, states, steps, c);
    var f;
    states', steps', f := ReceiveRun(v, states, steps, c);
    var s1 := states'[|steps'|];
    if s1.fibers[f].pc.Running? {
      states', steps' := EffectRun(v, states', steps', c, f);
    }
    var s2 := states'[|steps'|];
    AnswersKept(v, states', steps', s1, c, f);
    states', steps' := CompleteRun(v, states', steps', c, f);
    states', steps' := AnsweredReturns(v, states', steps', c);
  }

  /** A job that has run and not been completed is not answered. */
  lemma AnswersKept<T, R>(v: T, states: seq<State<T, R>>, steps: seq<Step<T, R>>, s1: State<T, R>, c: nat, f: nat)
    requires Run(v, states, steps) && |states| == |steps| + 1
    requires f < |states[|steps|].fibers| && Busy(states[|steps|].fibers[f], c)
    ensures c < |states[|steps|].chans| && states[|steps|].chans[c].sent == states[|steps|].chans[c].answered + 1
  {
    var s := states[|steps|];
    ReachableInv(v, states, steps, |steps|);
    assert FiberOk(s, f) && ChanOk(s.chans[c]);
  }

  /** Some continuation of the run has the client of channel c read its reply. */
  ghost predicate MayReturn<T(!new), R(!new)>(v: T, states: seq<State<T, R>>, steps: seq<Step<T, R>>, c: nat)
  {
    exists states', steps', k: nat ::
      Continues(v, states, steps, states', steps') && |steps| <= k < |steps'| && steps'[k] == ReadBack(c)
  }

  /** Once the trustee has begun to leave, by Terminate or into_inner, a call whose flag has been
      stored and not answered can still return if and only if it is a launch that has been
      handed to a fiber, or the into_inner itself. */
  lemma CallReturnsExactly<T(!new), R(!new)>(v: T, states: seq<State<T, R>>, steps: seq<Step<T, R>>, c: nat)
    requires Run(v, states, steps) && |states| == |steps| + 1 && Runs.Retired(states[|steps|].trustee)
    requires c < |states[|steps|].chans| && states[|steps|].chans[c].kind == Handle
    requires states[|steps|].chans[c].sent > states[|steps|].chans[c].answered
    ensures MayReturn(v, states, steps, c) <==> Answerable(states[|steps|], c)
  {
    var s := states[|steps|];
    ReachableInv(v, states, steps, |steps|);
    assert ChanOk(s.chans[c]);
    hide Run, Inv, ChanOk;
    if Answerable(s, c) {
      var states', steps';
      if s.chans[c].fiber.Some? {
        states', steps' := InFlightReturns(v, states, steps, c);
      } else {
        states', steps' := MovedReturns(v, states, steps, c);
      }
      assert Continues(v, states, steps, states', steps') && |steps| <= |steps'| - 1 < |steps'|;
    } else if MayReturn(v, states, steps, c) {
      var states', steps', k: nat :|
        Continues(v, states, steps, states', steps') && |steps| <= k < |steps'| && steps'[k] == ReadBack(c);
      assert states'[|steps|] == s;
      DoomedForever(v, states', steps', c, |steps|, |steps'|);
    }
  }

  /** One that cannot is unanswered in every later state, and is never read. */
  lemma OpenAtExitNeverReturns<T, R>(v: T, states: seq<State<T, R>>, steps: seq<Step<T, R>>, c: nat, i: nat, j: nat)
    requires Run(v, states, steps) && |states| == |steps| + 1 && i <= j < |states| && Runs.Retired(states[i].trustee)
    requires c < |states[i].chans| && states[i].chans[c].sent > states[i].chans[c].answered && !Answerable(states[i], c)
    ensures c < |states[j].chans| && states[j].chans[c].sent == states[j].chans[c].answered + 1
    ensures forall k :: i <= k < j ==> steps[k] != ReadBack(c)
  {
    ReachableInv(v, states, steps, i);
    assert ChanOk(states[i].chans[c]);
    hide Run, Inv;
    DoomedForever(v, states, steps, c, i, j);
  }

  /** So a call whose flag is stored after that moment never returns, in any run. */
  lemma LateCallNeverReturns<T, R>(v: T, states: seq<State<T, R>>, steps: seq<Step<T, R>>, c: nat, i: nat, j: nat)
    requires Run(v, states, steps) && |states| == |steps| + 1 && i < j < |states|
    requires Runs.Retired(states[i].trustee) && steps[i] == StoreRequest(c)
    ensures c < |states[j].chans| && Open(states[j].chans[c])
    ensures forall k :: i < k < j ==> steps[k] != ReadBack(c)
  {
    RunStep(v, states, steps, i);
    ReachableInv(v, states, steps, i);
    assert DoStoreRequest(states[i], c, states[i + 1]);
    hide Run, Next, Inv;
    StoredIsDoomed(states[i], c, states[i + 1]);
    DoomedForever(v, states, steps, c, i + 1, j);
  }

  lemma StoredIsDoomed<T, R>(s: State<T, R>, c: nat, s': State<T, R>)
    requires Inv(s) && Runs.Retired(s.trustee) && DoStoreRequest(s, c, s')
    ensures Doomed(s', c)
  {
    assert ChanOk(s.chans[c]);
  }

  // ---- launches in flight when the value is moved out ----------------------------------------

  /** The launch has been handed to a fiber that has not run it yet. */
  predicate Unrun<T, R>(ch: Channel<T, R>)
  {
    ch.fiber.Some? && ch.left > 0
  }

  ghost predicate NoneUnrun<T, R>(s: State<T, R>)
  {
    forall c :: 0 <= c < |s.chans| ==> !Unrun(s.chans[c])
  }

  lemma RetiredQuietClient<T, R>(s: State<T, R>, step: Step<T, R>, s': State<T, R>)
    requires ChansOk(s) && Next(s, step, s') && ClientSteps.ClientStep(step) && NoneUnrun(s)
    ensures NoneUnrun(s')
  {
    hide Next;
    ClientSummary(s, step, s');
    forall c | 0 <= c < |s'.chans|
      ensures !Unrun(s'.chans[c])
    {
      if c < |s.chans| {
        assert ChanOk(s.chans[c]);
        if Registers(step) {
          assert s'.chans[c] == s'.chans[..|s.chans|][c] == s.chans[c];
        }
      }
    }
  }

  lemma EffectIsUnrun<T, R>(s: State<T, R>, f: nat, s': State<T, R>)
    requires FibersOk(s) && DoFiberEffect(s, f, s')
    ensures Unrun(s.chans[s.fibers[f].pc.job.chan])
  {
    assert FiberOk(s, f);
  }

  lemma RetiredQuietOther<T, R>(s: State<T, R>, step: Step<T, R>, s': State<T, R>)
    requires FibersOk(s) && Next(s, step, s') && NoneUnrun(s)
    requires !ClientSteps.ClientStep(step) && !TrusteeSteps.ServiceStep(step)
    ensures NoneUnrun(s') && !step.FiberEffect?
  {
    if step.FiberEffect? {
      EffectIsUnrun(s, step.f, s');
    }
    hide Next, FibersOk;
    OtherSummary(s, step, s');
  }

  /** Once the trustee executes nothing any more, no launch is handed over. */
  lemma RetiredQuiet<T, R>(s: State<T, R>, step: Step<T, R>, s': State<T, R>)
    requires Inv(s) && Next(s, step, s') && Runs.Retired(s.trustee) && NoneUnrun(s)
    ensures NoneUnrun(s') && !LabelOf(s, step).Effect?
  {
    Runs.RetiredStep(s, step, s');
    InvHasChans(s);
    hide Inv, Next, ChansOk, FibersOk, NoneUnrun;
    if ClientSteps.ClientStep(step) {
      RetiredQuietClient(s, step, s');
    } else if TrusteeSteps.ServiceStep(step) {
      RetiredQuietService(s, step, s');
    } else {
      RetiredQuietOther(s, step, s');
    }
  }

  lemma RetiredQuietService<T, R>(s: State<T, R>, step: Step<T, R>, s': State<T, R>)
    requires Next(s, step, s') && TrusteeSteps.ServiceStep(step) && Runs.Retired(s.trustee) && NoneUnrun(s)
    ensures NoneUnrun(s')
  {
    hide Next;
    RetiredOnlyStores(s, step, s');
    ServiceSummary(s, step, s');
  }

  lemma RetiredOnlyStores<T, R>(s: State<T, R>, step: Step<T, R>, s': State<T, R>)
    requires Next(s, step, s') && TrusteeSteps.ServiceStep(step) && Runs.Retired(s.trustee)
    ensures step.StoreMoved?
  {
    if Planning(step) {
      hide Next;
      Shutdowns.PlanningInLoop(s, step, s');
    } else {
      hide Apply, MaySend, NoHandles;
    }
  }

  lemma MoveKeepsUnrun<T, R>(s: State<T, R>, s': State<T, R>)
    requires Inv(s) && DoMoveOut(s, s')
    ensures NoneUnrun(s') <==> NoneUnrun(s)
    ensures Runs.Retired(s'.trustee)
  {
    var c := s.trustee.c;
    assert !Unrun(s.chans[c]) && !Unrun(s'.chans[c]);
    hide Inv;
    assert forall d :: 0 <= d < |s.chans| && d != c ==> s'.chans[d] == s.chans[d];
    if NoneUnrun(s') {
      forall d | 0 <= d < |s.chans| ensures !Unrun(s.chans[d]) {
        assert d != c ==> s'.chans[d] == s.chans[d];
      }
    }
  }

  lemma {:induction false} QuietForever<T, R>(v: T, states: seq<State<T, R>>, steps: seq<Step<T, R>>, i: nat, j: nat)
    requires Run(v, states, steps) && |states| == |steps| + 1 && i <= j < |states|
    requires Runs.Retired(states[i].trustee) && NoneUnrun(states[i])
    ensures Runs.Retired(states[j].trustee) && NoneUnrun(states[j])
    ensures forall k :: i <= k < j ==> !Trace(states, steps)[k].Effect?
    decreases j - i
  {
    hide Run, Next, Inv, NoneUnrun, Runs.Retired;
    if i < j {
      QuietForever(v, states, steps, i, j - 1);
      RunStep(v, states, steps, j - 1);
      ReachableInv(v, states, steps, j - 1);
      Runs.RetiredStep(states[j - 1], steps[j - 1], states[j]);
      RetiredQuiet(states[j - 1], steps[j - 1], states[j]);
    }
  }

  /** If every launch handed over has run when into_inner moves the value out, nothing at all
      is executed any more, and what into_inner returns is the final value. */
  lemma NothingAfterMove<T, R>(v: T, states: seq<State<T, R>>, steps: seq<Step<T, R>>, e: nat)
    requires Run(v, states, steps) && |states| == |steps| + 1 && e < |steps| && steps[e].MoveOut? && NoneUnrun(states[e])
    ensures forall k :: e < k < |steps| ==> !Trace(states, steps)[k].Effect?
  {
    RunStep(v, states, steps, e);
    ReachableInv(v, states, steps, e);
    assert DoMoveOut(states[e], states[e + 1]);
    hide Run, Next, Inv, NoneUnrun;
    MoveKeepsUnrun(states[e], states[e + 1]);
    QuietForever(v, states, steps, e + 1, |steps|);
  }

  /** Otherwise the launch can still run: one more step of its fiber, or two. */
  lemma UnrunCanRun<T, R>(v: T, states: seq<State<T, R>>, steps: seq<Step<T, R>>, c: nat)
    returns (states': seq<State<T, R>>, steps': seq<Step<T, R>>)
    requires Run(v, states, steps) && |states| == |steps| + 1
    requires c < |states[|steps|].chans| && Unrun(states[|steps|].chans[c])
    ensures Continues(v, states, steps, states', steps') && steps < steps'
    ensures Trace(states', steps')[|steps'| - 1].Effect?
  {
    hide Run;
    var f;
    states', steps', f := ReceiveRun(v, states, steps, c);
    UnrunIsRunning(v, states', steps', c, f);
    states', steps' := EffectRun(v, states', steps', c, f);
  }

  lemma UnrunIsRunning<T, R>(v: T, states: seq<State<T, R>>, steps: seq<Step<T, R>>, c: nat, f: nat)
    requires Run(v, states, steps) && |states| == |steps| + 1
    requires c < |states[|steps|].chans| && Unrun(states[|steps|].chans[c])
    requires f < |states[|steps|].fibers| && Busy(states[|steps|].fibers[f], c)
    ensures states[|steps|].fibers[f].pc.Running?
  {
    ReachableInv(v, states, steps, |steps|);
    assert FiberOk(states[|steps|], f);
  }

  /** Something can still be executed in some continuation of the run. */
  ghost predicate MayExecute<T(!new), R(!new)>(v: T, states: seq<State<T, R>>, steps: seq<Step<T, R>>)
  {
    exists states', steps', k: nat :: Continues(v, states, steps, states', steps')
      && |steps| <= k < |steps'| && Trace(states', steps')[k].Effect?
  }

  /** After into_inner has moved the value out, something can still be executed if and only
      if a launch that was handed over had not run by then. */
  lemma EffectAfterMoveExactly<T(!new), R(!new)>(v: T, states: seq<State<T, R>>, steps: seq<Step<T, R>>)
    requires Run(v, states, steps) && |states| == |steps| + 1 && |steps| > 0 && steps[|steps| - 1].MoveOut?
    ensures MayExecute(v, states, steps) <==> !NoneUnrun(states[|steps| - 1])
  {
    var e := |steps| - 1;
    RunStep(v, states, steps, e);
    ReachableInv(v, states, steps, e);
    assert DoMoveOut(states[e], states[e + 1]);
    hide Run, Next, Inv;
    MoveKeepsUnrun(states[e], states[e + 1]);
    if !NoneUnrun(states[e]) {
      var c :| 0 <= c < |states[e + 1].chans| && Unrun(states[e + 1].chans[c]);
      var states', steps' := UnrunCanRun(v, states, steps, c);
      assert Continues(v, states, steps, states', steps');
    } else if MayExecute(v, states, steps) {
      var states', steps', k: nat :| Continues(v, states, steps, states', steps')
        && |steps| <= k < |steps'| && Trace(states', steps')[k].Effect?;
      assert states'[e] == states[e] && steps'[e] == steps[e];
      NothingAfterMove(v, states', steps', e);
    }
  }

  // ---- such a run exists ---------------------------------------------------------------------

  /** Two clones of the first handle. */
  function Three<T, R>(v: T): State<T, R>
  {
    InitState(true, v).(chans := [NewChannel(Handle), NewChannel(Handle), NewChannel(Handle)], queue := [0, 1, 2])
  }

  lemma ClonesRun<T, R>(v: T) returns (states: seq<State<T, R>>, steps: seq<Step<T, R>>)
    ensures Run(v, states, steps) && |states| == |steps| + 1 && states[|steps|] == Three(v)
  {
    var s0: State<T, R> := InitState(true, v);
    var s1 := Register(s0, Handle);
    states, steps := [s0], [];
    states, steps := Append(v, states, steps, CloneHandle(0), s1);
    assert Register(s1, Handle) == Three<T, R>(v);
    states, steps := Append(v, states, steps, CloneHandle(0), Three(v));
  }

  function Sent<T, R>(req: Request<T, R>): Channel<T, R>
  {
    NewChannel(Handle).(record := Some(req), req := Word(true, 1), pc := Waiting(true), sent := 1, left := Repeats(req))
  }

  /** A call's client steps up to its flag store, on a channel never used before. */
  lemma SendRun<T, R>(v: T, states: seq<State<T, R>>, steps: seq<Step<T, R>>, c: nat, req: Request<T, R>)
    returns (states': seq<State<T, R>>, steps': seq<Step<T, R>>)
    requires Run(v, states, steps) && |states| == |steps| + 1 && !req.Terminate?
    requires req.CallMutRetUnit? ==> req.repeat < 256
    requires c < |states[|steps|].chans| && states[|steps|].chans[c] == NewChannel(Handle)
    ensures Run(v, states', steps') && |states'| == |steps'| + 1 && states'[|steps'|] == Put(states[|steps|], c, Sent(req))
  {
    hide Run;
    var s := states[|steps|];
    var ch: Channel<T, R> := NewChannel(Handle);
    var s1 := Put(s, c, ch.(record := Some(req), pc := Written));
    states', steps' := Append(v, states, steps, Write(c, req), s1);
    var s2 := Put(s1, c, s1.chans[c].(pc := Toggled(true)));
    states', steps' := Append(v, states', steps', LoadToggle(c), s2);
    assert Put(s, c, Sent(req)) == Put(s2, c, s2.chans[c].(req := Word(true, 1), pc := Waiting(true), sent := 1, left := Repeats(req)));
    states', steps' := Append(v, states', steps', StoreRequest(c), Put(s, c, Sent(req)));
  }

  /** The first round takes the three registrations and begins a scan. */
  function ScanBegun<T, R>(s: State<T, R>): State<T, R>
  {
    s.(queue := [], clients := [0, 1, 2], counter := 1, trustee := Visiting(0))
  }

  /** Three fresh registrations, and the worker at its very first round. */
  ghost predicate Fresh<T, R>(s: State<T, R>)
  {
    s.trustee == RoundTop && s.queue == [0, 1, 2] && s.clients == [] && s.counter == 0 && !s.progressed
  }

  function Drained<T, R>(s: State<T, R>, k: nat): State<T, R>
    requires k <= 3
  {
    s.(counter := 1, clients := [0, 1, 2][..k], queue := [0, 1, 2][k..], trustee := Draining(k))
  }

  lemma DrainOne<T, R>(s: State<T, R>, k: nat)
    requires k < 3
    ensures Next(Drained(s, k), DrainPop, Drained(s, k + 1))
  {
    var s0: State<T, R> := Drained(s, k);
    assert s0.queue[0] == k && s0.queue[1..] == [0, 1, 2][k + 1..];
    assert [0, 1, 2][..k] + [k] == [0, 1, 2][..k + 1];
  }

  lemma DrainEnds<T, R>(s: State<T, R>)
    requires Fresh(s)
    ensures Next(s, BeginRound, Drained(s, 0)) && Next(Drained(s, 3), DrainEnd, ScanBegun(s))
  {
    assert [0, 1, 2][..0] == [] && [0, 1, 2][0..] == [0, 1, 2] && [0, 1, 2][..3] == [0, 1, 2];
  }

  lemma DrainRun<T, R>(v: T, states: seq<State<T, R>>, steps: seq<Step<T, R>>)
    returns (states': seq<State<T, R>>, steps': seq<Step<T, R>>)
    requires Run(v, states, steps) && |states| == |steps| + 1 && Fresh(states[|steps|])
    ensures Continues(v, states, steps, states', steps') && states'[|steps'|] == ScanBegun(states[|steps|])
  {
    hide Run, Next, Drained, ScanBegun;
    var s := states[|steps|];
    DrainEnds(s);
    DrainOne(s, 0);
    DrainOne(s, 1);
    DrainOne(s, 2);
    states', steps' := Append(v, states, steps, BeginRound, Drained(s, 0));
    states', steps' := Append(v, states', steps', DrainPop, Drained(s, 1));
    states', steps' := Append(v, states', steps', DrainPop, Drained(s, 2));
    states', steps' := Append(v, states', steps', DrainPop, Drained(s, 3));
    states', steps' := Append(v, states', steps', DrainEnd, ScanBegun(s));
  }

  /** The launch on channel 0 and into_inner on channel 2 have been sent, and all three
      channels registered; a scan begins. */
  function Begun<T, R>(v: T, g: T -> (T, R)): State<T, R>
  {
    ScanBegun(Three(v).(chans := [Sent(Launch(g)), NewChannel(Handle), Sent(IntoInner)]))
  }

  /** The first visit hands the launch to a new fiber. */
  function HandedOver<T, R>(v: T, g: T -> (T, R)): State<T, R>
  {
    var s: State<T, R> := Begun(v, g);
    s.(chans := s.chans[0 := s.chans[0].(pending := true, launchReady := true, fiber := Some(0))],
       fibers := [Fiber([Execute(0, Launch(g), true)], Receiving)],
       progressed := true, start := 1, trustee := Visiting(1))
  }

  /** The states between: both words loaded, serving, dispatching. */
  function Between<T, R>(v: T, g: T -> (T, R), t: Trustee): State<T, R>
  {
    Begun(v, g).(trustee := t)
  }

  function Deciding<T, R>(v: T, g: T -> (T, R)): State<T, R>
  {
    var s: State<T, R> := Begun(v, g);
    s.(chans := s.chans[0 := s.chans[0].(pending := true, launchReady := true)], trustee := Dispatching(0, 0, Word(true, 1)))
  }

  lemma LaunchLoads<T, R>(v: T, g: T -> (T, R))
    ensures var w, r := Word(true, 1), Word(false, 0);
            && Next(Begun<T, R>(v, g), LoadReq, Between<T, R>(v, g, LoadedReq(0, 0, w)))
            && Next(Between<T, R>(v, g, LoadedReq(0, 0, w)), LoadResp, Between<T, R>(v, g, LoadedBoth(0, 0, w, r)))
  {
  }

  lemma LaunchDecides<T, R>(v: T, g: T -> (T, R))
    ensures var w, r := Word(true, 1), Word(false, 0);
            && Next(Between<T, R>(v, g, LoadedBoth(0, 0, w, r)), Decide, Between<T, R>(v, g, Serving(0, 0, w, 0)))
            && Next(Between<T, R>(v, g, Serving(0, 0, w, 0)), BeginLaunch, Deciding(v, g))
            && Next(Deciding(v, g), SpawnFiber, HandedOver(v, g))
  {
    var s: State<T, R> := Begun(v, g);
    assert s.chans[0 := s.chans[0].(pending := false)] == s.chans;
    var d: State<T, R> := Deciding(v, g);
    assert d.chans[0 := d.chans[0].(fiber := Some(0))] == HandedOver(v, g).chans;
  }

  lemma LaunchRun<T, R>(v: T, states: seq<State<T, R>>, steps: seq<Step<T, R>>, g: T -> (T, R))
    returns (states': seq<State<T, R>>, steps': seq<Step<T, R>>)
    requires Run(v, states, steps) && |states| == |steps| + 1 && states[|steps|] == Begun(v, g)
    ensures Run(v, states', steps') && |states'| == |steps'| + 1 && states'[|steps'|] == HandedOver(v, g)
  {
    hide Run, Next, Begun, Between, Deciding, HandedOver;
    LaunchLoads<T, R>(v, g);
    LaunchDecides<T, R>(v, g);
    var w, r := Word(true, 1), Word(false, 0);
    states', steps' := Append(v, states, steps, LoadReq, Between(v, g, LoadedReq(0, 0, w)));
    states', steps' := Append(v, states', steps', LoadResp, Between(v, g, LoadedBoth(0, 0, w, r)));
    states', steps' := Append(v, states', steps', Decide, Between(v, g, Serving(0, 0, w, 0)));
    states', steps' := Append(v, states', steps', BeginLaunch, Deciding(v, g));
    states', steps' := Append(v, states', steps', SpawnFiber, HandedOver(v, g));
  }

  /** The next visit of the same scan is to channel 2, and moves the value out. */
  lemma MoveRun<T, R>(v: T, states: seq<State<T, R>>, steps: seq<Step<T, R>>, g: T -> (T, R))
    returns (states': seq<State<T, R>>, steps': seq<Step<T, R>>)
    requires Run(v, states, steps) && |states| == |steps| + 1 && states[|steps|] == HandedOver(v, g)
    ensures Run(v, states', steps') && |states'| == |steps'| + 1 && |steps'| > 0 && steps'[|steps'| - 1].MoveOut?
    ensures states'[|steps'| - 1].chans == HandedOver(v, g).chans
  {
    hide Run;
    var s: State<T, R> := HandedOver(v, g);
    var w, r := Word(true, 1), Word(false, 0);
    var s1 := s.(trustee := LoadedReq(1, 2, w));
    states', steps' := Append(v, states, steps, LoadReq, s1);
    var s2 := s.(trustee := LoadedBoth(1, 2, w, r));
    states', steps' := Append(v, states', steps', LoadResp, s2);
    var s3 := Put(s, 2, s.chans[2].(pending := false)).(trustee := Serving(1, 2, w, 0));
    states', steps' := Append(v, states', steps', Decide, s3);
    var s4 := Put(s3, 2, s3.chans[2].(data := Inner(s.value), left := 0)).(trustee := MovedOut(2, w));
    states', steps' := Append(v, states', steps', MoveOut, s4);
    assert s3.chans == s.chans;
  }

  /** The repository does not exclude it: with one launch and one into_inner on two clones
      of a handle, the launch may run after the value has been moved out. */
  lemma LaunchMayRunAfterMove<T(!new), R(!new)>(v: T, g: T -> (T, R)) returns (states: seq<State<T, R>>, steps: seq<Step<T, R>>)
    ensures Run(v, states, steps) && |states| == |steps| + 1 && |steps| > 0 && steps[|steps| - 1].MoveOut?
    ensures MayExecute(v, states, steps)
  {
    hide Run, MayExecute;
    states, steps := ClonesRun<T, R>(v);
    states, steps := SendRun(v, states, steps, 0, Launch(g));
    states, steps := SendRun(v, states, steps, 2, IntoInner);
    states, steps := DrainRun(v, states, steps);
    states, steps := LaunchRun(v, states, steps, g);
    states, steps := MoveRun(v, states, steps, g);
    assert Unrun(HandedOver(v, g).chans[0]);
    EffectAfterMoveExactly(v, states, steps);
  }
}
