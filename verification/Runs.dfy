/** Further facts about whole runs: invariants carried through concurrency, what
    into_inner returns, and when Terminate is sent. */
module Runs {
  import opened Wrappers
  import opened Operations
  import opened Protocol
  import opened Invariant
  import opened Refinement
  import opened Summary
  import ClientSteps
  import TrusteeSteps
  import A = Atomic
  import S = Schedule

  // ---- what gets executed ---------------------------------------------------------

  /** A record a step leaves behind was there before, or was just written. */
  lemma RecordsPersist<T, R>(s: State<T, R>, step: Step<T, R>, s': State<T, R>, c: nat)
    requires Next(s, step, s') && c < |s'.chans| && s'.chans[c].record.Some?
    ensures (c < |s.chans| && s'.chans[c].record == s.chans[c].record)
         || (step.Write? && s'.chans[c].record == Some(step.req))
  {
    assert step.Write? ==> DoWrite(s, step.c, step.req, s');
    hide Next;
    if step.Write? {
    } else if ClientSteps.ClientStep(step) {
      ClientSummary(s, step, s');
      if Registers(step) && c < |s.chans| {
        assert s'.chans[c] == s'.chans[..|s.chans|][c] == s.chans[c];
      }
    } else if Planning(step) {
      PlanningSame(s, step, s');
    } else if TrusteeSteps.ServiceStep(step) {
      ServiceSummary(s, step, s');
    } else {
      OtherSummary(s, step, s');
    }
  }

  ghost predicate AllRecords<T(!new), R(!new)>(Q: Request<T, R> -> bool, s: State<T, R>)
  {
    forall c :: 0 <= c < |s.chans| && s.chans[c].record.Some? ==> Q(s.chans[c].record.value)
  }

  lemma {:induction false} RecordsAreWritten<T(!new), R(!new)>(Q: Request<T, R> -> bool, v: T, states: seq<State<T, R>>,
                                                               steps: seq<Step<T, R>>, n: nat)
    requires Run(v, states, steps) && n < |states|
    requires forall k :: 0 <= k < n && steps[k].Write? ==> Q(steps[k].req)
    ensures AllRecords(Q, states[n])
    decreases n
  {
    if n > 0 {
      hide Next;
      RecordsAreWritten(Q, v, states, steps, n - 1);
      RunStep(v, states, steps, n - 1);
      forall c | 0 <= c < |states[n].chans| && states[n].chans[c].record.Some?
        ensures Q(states[n].chans[c].record.value)
      {
        RecordsPersist(states[n - 1], steps[n - 1], states[n], c);
      }
    }
  }

  lemma EffectIsRecord<T, R>(s: State<T, R>, step: Step<T, R>, s': State<T, R>)
    requires Inv(s) && Next(s, step, s') && LabelOf(s, step).Effect?
    ensures var lab := LabelOf(s, step);
            lab.c < |s.chans| && s.chans[lab.c].record == Some(lab.req)
  {
    hide Inv, ChansOk, TrusteeOk, ShutdownOk, OwnersOk, RegistryOk;
    InvHasChans(s);
    if step.FiberEffect? {
      assert FiberOk(s, step.f);
    }
  }

  /** All executions among the first n labels satisfy Q. */
  ghost predicate AllExecuted<T(!new), R(!new)>(Q: Request<T, R> -> bool, labels: seq<A.Label<T, R>>, n: nat)
    requires n <= |labels|
  {
    forall i :: 0 <= i < |A.Effects(labels[..n])| ==> Q(A.Effects(labels[..n])[i])
  }

  lemma OneMoreExecuted<T(!new), R(!new)>(Q: Request<T, R> -> bool, labels: seq<A.Label<T, R>>, n: nat)
    requires n < |labels| && AllExecuted(Q, labels, n) && (labels[n].Effect? ==> Q(labels[n].req))
    ensures AllExecuted(Q, labels, n + 1)
  {
    assert labels[..n + 1][..n] == labels[..n];
    var before, after := A.Effects(labels[..n]), A.Effects(labels[..n + 1]);
    assert after == before + (if labels[n].Effect? then [labels[n].req] else []);
    forall i | 0 <= i < |after|
      ensures Q(after[i])
    {
      assert i < |before| ==> after[i] == before[i] && Q(before[i]);
    }
  }

  lemma {:induction false} ExecutionsAreWritten<T(!new), R(!new)>(Q: Request<T, R> -> bool, v: T, states: seq<State<T, R>>,
                                                                  steps: seq<Step<T, R>>, n: nat)
    requires Run(v, states, steps) && n <= |steps|
    requires forall k :: 0 <= k < n && steps[k].Write? ==> Q(steps[k].req)
    ensures AllExecuted(Q, Trace(states, steps), n)
    decreases n
  {
    if n > 0 {
      hide Inv, Next, Run, AllExecuted;
      ExecutionsAreWritten(Q, v, states, steps, n - 1);
      RunStep(v, states, steps, n - 1);
      if Trace(states, steps)[n - 1].Effect? {
        ReachableInv(v, states, steps, n - 1);
        RecordsAreWritten(Q, v, states, steps, n - 1);
        EffectIsRecord(states[n - 1], steps[n - 1], states[n]);
      }
      OneMoreExecuted(Q, Trace(states, steps), n - 1);
    }
  }

  lemma ExecutedAll<T(!new), R(!new)>(Q: Request<T, R> -> bool, labels: seq<A.Label<T, R>>, n: nat)
    requires n <= |labels| && AllExecuted(Q, labels, n)
    ensures forall i :: 0 <= i < |A.Effects(labels[..n])| ==> Q(A.Effects(labels[..n])[i])
  {
  }

  /** Nothing is executed that no client wrote. */
  lemma EffectsAreWritten<T(!new), R(!new)>(Q: Request<T, R> -> bool, v: T, states: seq<State<T, R>>,
                                            steps: seq<Step<T, R>>, n: nat)
    requires Run(v, states, steps) && n <= |steps|
    requires forall k :: 0 <= k < n && steps[k].Write? ==> Q(steps[k].req)
    ensures forall i :: 0 <= i < |A.Effects(Trace(states, steps)[..n])| ==> Q(A.Effects(Trace(states, steps)[..n])[i])
  {
    hide Run;
    RunLength(v, states, steps);
    ExecutionsAreWritten(Q, v, states, steps, n);
    ExecutedAll(Q, Trace(states, steps), n);
  }

  // ---- replies and executions -------------------------------------------------------

  /** A client that reads has a finished call on its own last record. */
  lemma ReaderIsDone<T, R>(s: State<T, R>, c: nat, s': State<T, R>)
    requires Inv(s) && DoReadBack(s, c, s')
    ensures c < |s.chans| && AbsCall(s.chans[c]) == A.Done(RecordOf(s, c), ReplyAt(s, c))
  {
    assert ChanOk(s.chans[c]);
    hide ChansOk, FibersOk, TrusteeOk, ShutdownOk, OwnersOk, RegistryOk;
  }

  /** In the history of the run, a client that reads has a finished call on its own last
      record, and reads its reply. */
  lemma ReadInHistory<T, R>(v: T, states: seq<State<T, R>>, steps: seq<Step<T, R>>, j: nat)
    requires Run(v, states, steps) && |states| == |steps| + 1 && j < |steps| && steps[j].ReadBack?
    ensures Trace(states, steps)[j] == A.Return(steps[j].c, ReplyAt(states[j], steps[j].c))
    ensures A.Finished(Objects(states), j, steps[j].c, RecordOf(states[j], steps[j].c), ReplyAt(states[j], steps[j].c))
  {
    hide Run, Inv, RecordOf, ReplyAt;
    RunStep(v, states, steps, j);
    ReachableInv(v, states, steps, j);
    assert DoReadBack(states[j], steps[j].c, states[j + 1]);
    hide Next;
    ReaderIsDone(states[j], steps[j].c, states[j + 1]);
  }

  /** The step executes the record of channel c once: the property moves as the request's
      own closure says on its own arguments, and unless a batch answers nothing, so does the
      reply behind the response word. */
  ghost predicate ExecutesAt<T, R>(s: State<T, R>, s': State<T, R>, c: nat, req: Request<T, R>)
  {
    && c < |s.chans| && c < |s'.chans| && s.chans[c].record == Some(req)
    && Executes(req, s.value, s'.value, if req.CallMutRetUnit? then Nothing else s'.chans[c].data)
  }

  lemma TrusteeExecutes<T, R>(s: State<T, R>, step: Step<T, R>, s': State<T, R>)
    requires Next(s, step, s') && (step.ExecRepeat? || step.ExecCall? || step.MoveOut?)
    ensures s.trustee.Serving? && ExecutesAt(s, s', s.trustee.c, RecordOf(s, s.trustee.c))
    ensures LabelOf(s, step) == A.Effect(s.trustee.c, RecordOf(s, s.trustee.c))
  {
    ApplyExecutes(RecordOf(s, s.trustee.c), s.value);
  }

  lemma FiberExecutes<T, R>(s: State<T, R>, f: nat, s': State<T, R>)
    requires FibersOk(s) && DoFiberEffect(s, f, s')
    ensures var job := s.fibers[f].pc.job; ExecutesAt(s, s', job.chan, job.hdr)
  {
    assert FiberOk(s, f);
    ApplyExecutes(s.fibers[f].pc.job.hdr, s.value);
  }

  /** What every execution in a run does, by the trustee or by a fiber. */
  lemma EffectExecutes<T, R>(s: State<T, R>, step: Step<T, R>, s': State<T, R>)
    requires Inv(s) && Next(s, step, s') && LabelOf(s, step).Effect?
    ensures ExecutesAt(s, s', LabelOf(s, step).c, LabelOf(s, step).req)
  {
    InvHasChans(s);
    assert step.FiberEffect? ==> DoFiberEffect(s, step.f, s');
    hide Inv, Next, ChansOk, FibersOk, Apply, DoFiberEffect;
    if step.FiberEffect? {
      FiberExecutes(s, step.f, s');
    } else {
      TrusteeExecutes(s, step, s');
    }
  }

  /** And nothing else moves the property. */
  lemma OthersKeepValue<T, R>(s: State<T, R>, step: Step<T, R>, s': State<T, R>)
    requires Next(s, step, s') && !LabelOf(s, step).Effect?
    ensures s'.value == s.value
  {
    hide Next;
    if ClientSteps.ClientStep(step) {
      ClientSummary(s, step, s');
    } else if Planning(step) {
      PlanningSame(s, step, s');
    } else if TrusteeSteps.ServiceStep(step) {
      ServiceKeepsValue(s, step, s');
    } else {
      OtherKeepsValue(s, step, s');
    }
  }

  lemma OtherKeepsValue<T, R>(s: State<T, R>, step: Step<T, R>, s': State<T, R>)
    requires Next(s, step, s') && !ClientSteps.ClientStep(step) && !TrusteeSteps.ServiceStep(step)
    requires !LabelOf(s, step).Effect?
    ensures s'.value == s.value
  {
    hide Apply, MaySend, NoHandles;
  }

  lemma ServiceKeepsValue<T, R>(s: State<T, R>, step: Step<T, R>, s': State<T, R>)
    requires Next(s, step, s') && TrusteeSteps.ServiceStep(step) && !Planning(step) && !LabelOf(s, step).Effect?
    ensures s'.value == s.value
  {
    hide Apply, MaySend, NoHandles, S.Classify, S.NextStart, S.VisitIndex;
  }

  lemma ReadFinishes<T, R>(v: T, states: seq<State<T, R>>, steps: seq<Step<T, R>>, j: nat, objs: seq<A.Object<T, R>>,
                           labels: seq<A.Label<T, R>>, c: nat, req: Request<T, R>, reply: Reply<T, R>)
    requires Run(v, states, steps) && |states| == |steps| + 1 && j < |steps| && steps[j].ReadBack?
    requires objs == Objects(states) && labels == Trace(states, steps)
    requires c == steps[j].c && req == RecordOf(states[j], c) && reply == ReplyAt(states[j], c)
    ensures A.ObjectRun(objs, labels) && A.Finished(objs, j, c, req, reply)
    ensures |objs| > 0 && forall d :: 0 <= d < |objs[0].calls| ==> objs[0].calls[d] == A.Free
  {
    hide Run, Next, Inv, RecordOf, ReplyAt, LabelOf, AbsCall, AbsCalls, Objects, Trace, A.ObjectRun, A.Finished;
    ReadInHistory(v, states, steps, j);
    RunRefines(v, states, steps);
  }

  /** The execution that a reply other than a batch's comes from. */
  lemma FindExecution<T, R>(v: T, states: seq<State<T, R>>, steps: seq<Step<T, R>>, j: nat, c: nat, req: Request<T, R>,
                            reply: Reply<T, R>) returns (e: nat)
    requires Run(v, states, steps) && |states| == |steps| + 1 && j < |steps| && steps[j].ReadBack?
    requires c == steps[j].c && req == RecordOf(states[j], c) && reply == ReplyAt(states[j], c)
    requires !req.CallMutRetUnit?
    ensures e < j && LabelOf(states[e], steps[e]) == A.Effect(c, req)
    ensures reply == Apply(req, states[e].value).1
  {
    var objs, labels := Objects(states), Trace(states, steps);
    hide *;
    ReadFinishes(v, states, steps, j, objs, labels, c, req, reply);
    var at;
    at, e := A.FinishedHasExecution(objs, labels, c, req, reply, j);
    AbsValue(states[e]);
  }

  lemma AbsValue<T, R>(s: State<T, R>)
    ensures Abs(s).value == s.value
  {
  }

  /** Every reply but a batch's is what the client's own request, with its own closure and
      arguments, answers at an execution of it before the read. */
  lemma ReplyIsOwnExecution<T, R>(v: T, states: seq<State<T, R>>, steps: seq<Step<T, R>>, j: nat) returns (e: nat)
    requires Run(v, states, steps) && |states| == |steps| + 1 && j < |steps| && steps[j].ReadBack?
    requires !RecordOf(states[j], steps[j].c).CallMutRetUnit?
    ensures e < j && LabelOf(states[e], steps[e]) == A.Effect(steps[j].c, RecordOf(states[j], steps[j].c))
    ensures Executes(RecordOf(states[j], steps[j].c), states[e].value, states[e + 1].value, ReplyAt(states[j], steps[j].c))
  {
    hide Run, Next, Inv, RecordOf, ReplyAt, LabelOf, Apply, Executes;
    e := FindExecution(v, states, steps, j, steps[j].c, RecordOf(states[j], steps[j].c), ReplyAt(states[j], steps[j].c));
    RunStep(v, states, steps, e);
    ReachableInv(v, states, steps, e);
    EffectStates(states[e], steps[e], states[e + 1]);
    ApplyExecutes(RecordOf(states[j], steps[j].c), states[e].value);
  }

  lemma EffectStates<T, R>(s: State<T, R>, step: Step<T, R>, s': State<T, R>)
    requires Inv(s) && Next(s, step, s') && LabelOf(s, step).Effect?
    ensures s'.value == Apply(LabelOf(s, step).req, s.value).0
  {
    NextRefines(s, step, s');
    hide Inv, Next, Apply, LabelOf;
  }

  // ---- invariants of the property -------------------------------------------------

  /** Executed alone, the request keeps P. */
  ghost predicate Keeps<T(!new), R>(P: T -> bool, req: Request<T, R>)
  {
    forall v: T :: P(v) ==> P(Apply(req, v).0)
  }

  lemma {:induction false} FoldKeeps<T(!new), R>(P: T -> bool, v: T, ops: seq<Request<T, R>>)
    requires P(v) && forall i :: 0 <= i < |ops| ==> Keeps(P, ops[i])
    ensures P(Fold(v, ops))
    decreases |ops|
  {
    if ops != [] {
      var n := |ops| - 1;
      FoldKeeps(P, v, ops[..n]);
      assert Keeps(P, ops[n]);
    }
  }

  /** Any predicate that every closure keeps when run alone holds of the property in every
      state of every concurrent run. */
  lemma InvariantTransport<T(!new), R(!new)>(P: T -> bool, v: T, states: seq<State<T, R>>, steps: seq<Step<T, R>>, n: nat)
    requires Run(v, states, steps) && n < |states| && P(v)
    requires forall k :: 0 <= k < n && steps[k].Write? ==> Keeps(P, steps[k].req)
    ensures P(states[n].value)
  {
    ValueIsFoldOfExecutions(v, states, steps, n);
    hide Run, Keeps;
    EffectsAreWritten((req: Request<T, R>) => Keeps(P, req), v, states, steps, n);
    FoldKeeps(P, v, A.Effects(Trace(states, steps)[..n]));
  }

  // ---- into_inner -------------------------------------------------------------------

  /** The request word loaded a second time carries the bit the trustee saw first. */
  lemma ReloadSeesSameBit<T, R>(s: State<T, R>, s': State<T, R>)
    requires Inv(s) && DoStoreMoved(s, s')
    ensures s.chans[s.trustee.c].req == s.trustee.w
    ensures s'.chans[s.trustee.c].resp.ready == s.trustee.w.ready
  {
  }

  /** The trustee executes nothing any more. */
  predicate Retired(t: Trustee)
  {
    t.MovedOut? || t.Joining? || t.JoiningTerminator? || t.Exited?
  }

  lemma RetiredStep<T, R>(s: State<T, R>, step: Step<T, R>, s': State<T, R>)
    requires Next(s, step, s') && Retired(s.trustee)
    ensures Retired(s'.trustee) && !step.ExecRepeat? && !step.ExecCall? && !step.MoveOut?
  {
    hide Apply, NoHandles, MaySend;
    if ClientSteps.ClientStep(step) {
      hide Next;
      ClientSummary(s, step, s');
    }
  }

  lemma {:induction false} RetiredForever<T, R>(v: T, states: seq<State<T, R>>, steps: seq<Step<T, R>>, i: nat, j: nat)
    requires Run(v, states, steps) && i <= j < |states| && Retired(states[i].trustee)
    ensures Retired(states[j].trustee)
    decreases j - i
  {
    hide Next, Run;
    if i < j {
      RetiredForever(v, states, steps, i, j - 1);
      RunStep(v, states, steps, j - 1);
      RetiredStep(states[j - 1], steps[j - 1], states[j]);
    }
  }

  /** into_inner moves out the initial value folded with every execution before it, and
      the trustee executes nothing afterwards. */
  lemma IntoInnerIsLast<T, R>(v: T, states: seq<State<T, R>>, steps: seq<Step<T, R>>, e: nat)
    requires Run(v, states, steps) && e < |steps| && steps[e].MoveOut?
    ensures states[e].trustee.Serving? && states[e].trustee.c < |states[e + 1].chans|
    ensures states[e + 1].chans[states[e].trustee.c].data == Inner(Fold(v, A.Effects(Trace(states, steps)[..e])))
    ensures forall k :: e < k < |steps| ==> !steps[k].ExecRepeat? && !steps[k].ExecCall? && !steps[k].MoveOut?
  {
    ValueIsFoldOfExecutions(v, states, steps, e);
    RunStep(v, states, steps, e);
    assert DoMoveOut(states[e], states[e + 1]);
    hide Next;
    forall k | e < k < |steps|
      ensures !steps[k].ExecRepeat? && !steps[k].ExecCall? && !steps[k].MoveOut?
    {
      RetiredForever(v, states, steps, e + 1, k);
      RunStep(v, states, steps, k);
      RetiredStep(states[k], steps[k], states[k + 1]);
    }
  }

  // ---- Terminate ----------------------------------------------------------------------

  /** The handle of this channel is gone, and no call or launch of its is outstanding. */
  predicate Idled<T, R>(ch: Channel<T, R>)
  {
    !ch.alive && ch.pc in {Idle, Consumed} && ch.sent == ch.answered && ch.fiber.None?
  }

  /** When the handles own the runtime and it has been dropped, every handle is idle. */
  lemma DroppedMeansIdle<T, R>(s: State<T, R>, c: nat)
    requires Inv(s) && s.owned && s.dropped.Some? && c < |s.chans| && s.chans[c].kind == Handle
    ensures Idled(s.chans[c])
  {
    assert ChanOk(s.chans[c]);
  }

  /** The worker only terminates on the request of Runtime::drop. */
  lemma TerminateComesFromDrop<T, R>(s: State<T, R>, s': State<T, R>)
    requires Inv(s) && DoBeginTerminate(s, s')
    ensures s.dropped == Some(s.trustee.c)
  {
    assert ChanOk(s.chans[s.trustee.c]);
  }

  predicate SendsTerminate<T, R>(s: State<T, R>, step: Step<T, R>)
  {
    step.StoreRequest? && step.c < |s.chans| && s.chans[step.c].kind == Terminator
  }

  lemma KindPersists<T, R>(s: State<T, R>, step: Step<T, R>, s': State<T, R>, c: nat)
    requires Next(s, step, s') && c < |s.chans|
    ensures c < |s'.chans| && s'.chans[c].kind == s.chans[c].kind && s'.chans[c].sent >= s.chans[c].sent
  {
    hide Next;
    if ClientSteps.ClientStep(step) {
      ClientSummary(s, step, s');
      if Registers(step) {
        assert s'.chans[c] == s'.chans[..|s.chans|][c] == s.chans[c];
      }
    } else if Planning(step) {
      PlanningSame(s, step, s');
    } else if TrusteeSteps.ServiceStep(step) {
      ServiceSummary(s, step, s');
    } else {
      OtherSummary(s, step, s');
    }
  }

  lemma {:induction false} KindStays<T, R>(v: T, states: seq<State<T, R>>, steps: seq<Step<T, R>>, c: nat, i: nat, j: nat)
    requires Run(v, states, steps) && i <= j < |states| && c < |states[i].chans|
    ensures c < |states[j].chans| && states[j].chans[c].kind == states[i].chans[c].kind
    ensures states[j].chans[c].sent >= states[i].chans[c].sent
    decreases j - i
  {
    hide Next, Run;
    if i < j {
      KindStays(v, states, steps, c, i, j - 1);
      RunStep(v, states, steps, j - 1);
      KindPersists(states[j - 1], steps[j - 1], states[j], c);
    }
  }

  /** Terminate is sent at most once in any run. */
  lemma TerminateAtMostOnce<T, R>(v: T, states: seq<State<T, R>>, steps: seq<Step<T, R>>, i: nat, j: nat)
    requires Run(v, states, steps) && i <= j < |steps|
    requires SendsTerminate(states[i], steps[i]) && SendsTerminate(states[j], steps[j])
    ensures i == j
  {
    if i < j {
      var c, d := steps[i].c, steps[j].c;
      RunStep(v, states, steps, i);
      assert states[i + 1].chans[c].sent == states[i].chans[c].sent + 1;
      RunStep(v, states, steps, j);
      assert states[j].chans[d].pc.Toggled?;
      hide Next, Run;
      KindPersists(states[i], steps[i], states[i + 1], c);
      KindStays(v, states, steps, c, i + 1, j);
      ReachableInv(v, states, steps, j);
      OneDropChannel(states[j], c, d);
    }
  }

  lemma OneDropChannel<T, R>(s: State<T, R>, c: nat, d: nat)
    requires Inv(s) && c < |s.chans| && d < |s.chans|
    requires s.chans[c].kind == Terminator && s.chans[d].kind == Terminator
    ensures c == d && (s.chans[d].pc.Toggled? ==> s.chans[c].sent == 0)
  {
    assert ChanOk(s.chans[c]);
  }
}
