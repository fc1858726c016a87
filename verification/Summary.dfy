/** What each step may change in the channels, once and for all: the lemmas about runs
    use these summaries in place of the step definitions. */
module Summary {
  import opened Operations
  import opened Protocol
  import opened Invariant
  import opened ClientSteps
  import opened TrusteeSteps

  /** Trustee steps that touch no channel. */
  predicate Planning<T, R>(step: Step<T, R>)
  {
    || step.BeginRound? || step.DrainPop? || step.DrainEnd? || step.LoadReq? || step.LoadResp?
    || step.EndBatch? || step.EndScan? || step.PopPool?
  }

  /** Channel `c` is the only one whose record, words or numbers can differ. */
  ghost predicate At<T, R>(s: State<T, R>, c: nat, s': State<T, R>)
  {
    && c < |s.chans| == |s'.chans|
    && forall d :: 0 <= d < |s.chans| && d != c ==> s'.chans[d] == s.chans[d]
  }

  /** What the client owns is as before. */
  ghost predicate ClientSideSame<T, R>(ch: Channel<T, R>, ch': Channel<T, R>)
  {
    && ch'.kind == ch.kind && ch'.alive == ch.alive && ch'.pc == ch.pc
    && ch'.req == ch.req && ch'.record == ch.record && ch'.sent == ch.sent
  }

  /** A trustee step at channel c. */
  ghost predicate ServedAt<T, R>(step: Step<T, R>, ch: Channel<T, R>, ch': Channel<T, R>)
  {
    && ClientSideSame(ch, ch')
    && (ch'.resp != ch.resp || ch'.answered != ch.answered ==>
          (step.StoreResponse? || step.StoreMoved?) && ch'.answered == ch.answered + 1)
    && (step.StoreResponse? || step.StoreMoved? ==> ch'.answered == ch.answered + 1)
    && (ch'.data != ch.data ==> step.ExecCall? || step.MoveOut?)
    && (ch'.left != ch.left ==> step.ExecRepeat? || step.ExecCall? || step.MoveOut?)
    && (ch'.fiber != ch.fiber ==> (step.SendJob? || step.SpawnFiber?) && ch'.fiber.Some?)
    && ((step.SendJob? || step.SpawnFiber?) && ch'.fiber == ch.fiber ==> ch' == ch)
  }

  /** Registration and round counting are not under way and do not move. */
  ghost predicate SamePlan<T, R>(s: State<T, R>, s': State<T, R>)
  {
    && s'.clients == s.clients && s'.queue == s.queue && s'.counter == s.counter
    && !s.trustee.Draining? && !s'.trustee.Draining?
  }

  lemma PlanningSame<T, R>(s: State<T, R>, step: Step<T, R>, s': State<T, R>)
    requires Next(s, step, s') && Planning(step)
    ensures s'.chans == s.chans && s'.value == s.value && s'.fibers == s.fibers
  {
  }

  lemma DecideServed<T, R>(s: State<T, R>, s': State<T, R>)
    requires DoDecide(s, s')
    ensures SamePlan(s, s') && At(s, s.trustee.c, s') && ServedAt<T, R>(Decide, s.chans[s.trustee.c], s'.chans[s.trustee.c])
  {
  }

  lemma ExecServed<T, R>(s: State<T, R>, step: Step<T, R>, s': State<T, R>)
    requires Next(s, step, s') && (step.ExecRepeat? || step.ExecCall? || step.MoveOut? || step.BeginLaunch?)
    ensures s.trustee.Serving? && SamePlan(s, s') && At(s, s.trustee.c, s')
    ensures ServedAt(step, s.chans[s.trustee.c], s'.chans[s.trustee.c])
  {
    hide Apply;
  }

  lemma StoreServed<T, R>(s: State<T, R>, step: Step<T, R>, s': State<T, R>)
    requires Next(s, step, s') && (step.StoreResponse? || step.StoreMoved?)
    ensures (if step.StoreResponse? then s.trustee.Served? else s.trustee.MovedOut?) && SamePlan(s, s') && At(s, s.trustee.c, s')
    ensures ServedAt(step, s.chans[s.trustee.c], s'.chans[s.trustee.c])
  {
  }

  lemma SendServed<T, R>(s: State<T, R>, s': State<T, R>)
    requires DoSendJob(s, s')
    ensures SamePlan(s, s') && At(s, s.trustee.c, s') && ServedAt<T, R>(SendJob, s.chans[s.trustee.c], s'.chans[s.trustee.c])
  {
  }

  lemma SpawnServed<T, R>(s: State<T, R>, s': State<T, R>)
    requires DoSpawnFiber(s, s')
    ensures SamePlan(s, s') && At(s, s.trustee.c, s') && ServedAt<T, R>(SpawnFiber, s.chans[s.trustee.c], s'.chans[s.trustee.c])
  {
  }

  /** All trustee steps that touch a channel touch the one being visited. */
  lemma ServiceSummary<T, R>(s: State<T, R>, step: Step<T, R>, s': State<T, R>)
    requires Next(s, step, s') && ServiceStep(step) && !Planning(step)
    ensures VisitedChan(s.trustee).Some?
    ensures var c := VisitedChan(s.trustee).value;
            At(s, c, s') && ServedAt(step, s.chans[c], s'.chans[c]) && (!step.Decide? ==> Engaged(s.trustee, c))
    ensures SamePlan(s, s')
    ensures step.StoreResponse? ==> s.trustee.Served?
    ensures step.StoreMoved? ==> s.trustee.MovedOut?
  {
    hide At, ServedAt, SamePlan;
    if step.Decide? {
      DecideServed(s, s');
    } else if step.StoreResponse? || step.StoreMoved? {
      hide Next;
      StoreServed(s, step, s');
    } else if step.SendJob? || step.SpawnFiber? {
      if step.SendJob? { SendServed(s, s'); } else { SpawnServed(s, s'); }
    } else {
      hide Next;
      ExecServed(s, step, s');
    }
  }

  /** A fiber's effect or completion at the channel of its job. */
  ghost predicate FiberAt<T, R>(s: State<T, R>, step: Step<T, R>, s': State<T, R>, f: nat, c: nat)
  {
    && f < |s.fibers| && (step == FiberEffect(f) || step == FiberComplete(f))
    && (if step.FiberEffect? then s.fibers[f].pc.Running? else s.fibers[f].pc.Effected?)
    && s.fibers[f].pc.job.Execute? && s.fibers[f].pc.job.chan == c
    && At(s, c, s')
    && var ch, ch' := s.chans[c], s'.chans[c];
       ClientSideSame(ch, ch')
       && (step.FiberEffect? ==> ch'.resp == ch.resp && ch'.answered == ch.answered && ch'.fiber == ch.fiber)
       && (step.FiberComplete? ==> ch'.answered == ch.answered + 1 && ch'.fiber.None? && ch'.left == ch.left)
  }

  lemma OtherSummary<T, R>(s: State<T, R>, step: Step<T, R>, s': State<T, R>)
    requires Next(s, step, s') && !ClientStep(step) && !ServiceStep(step)
    ensures if step.FiberEffect? || step.FiberComplete? then
              step.f < |s.fibers| && (s.fibers[step.f].pc.Running? || s.fibers[step.f].pc.Effected?)
              && s.fibers[step.f].pc.job.Execute? && FiberAt(s, step, s', step.f, s.fibers[step.f].pc.job.chan)
            else s'.chans == s.chans && s'.value == s.value
    ensures s'.clients == s.clients && s'.queue == s.queue && s'.start == s.start && s'.progressed == s.progressed
    ensures s'.trustee == s.trustee || (Offset(s'.trustee).None? && (step.BeginTerminate? || Offset(s.trustee).None?))
  {
    hide Apply;
  }

  /** A client's step registers a channel, or touches one on the client's side only. */
  ghost predicate ClientAt<T, R>(step: Step<T, R>, ch: Channel<T, R>, ch': Channel<T, R>)
  {
    && ch'.kind == ch.kind && ch'.resp == ch.resp && ch'.data == ch.data && ch'.answered == ch.answered
    && ch'.fiber == ch.fiber && ch'.pending == ch.pending && ch'.launchReady == ch.launchReady
    && ch'.sent == ch.sent + (if step.StoreRequest? then 1 else 0)
    && (ch'.record != ch.record ==> step.Write? && ch.pc == Idle)
    && (ch'.req != ch.req || ch'.left != ch.left ==> step.StoreRequest?)
    && (step.StoreRequest? ==> ch.pc.Toggled?)
    && (step.ReadBack? ==> ch.pc == Ready)
  }

  predicate Registers<T, R>(step: Step<T, R>)
  {
    step.CloneHandle? || step.Entrust? || step.DropRuntime?
  }

  lemma ClientSummary<T, R>(s: State<T, R>, step: Step<T, R>, s': State<T, R>)
    requires Next(s, step, s') && ClientStep(step)
    ensures s'.value == s.value && s'.fibers == s.fibers && s'.trustee == s.trustee && s'.clients == s.clients
    ensures s'.start == s.start && s'.progressed == s.progressed
    ensures if Registers(step) then
              |s'.chans| == |s.chans| + 1 && s'.chans[..|s.chans|] == s.chans
              && s'.queue == s.queue + [|s.chans|]
              && exists kind :: s'.chans[|s.chans|] == NewChannel(kind)
            else
              At(s, step.c, s') && ClientAt(step, s.chans[step.c], s'.chans[step.c]) && s'.queue == s.queue
  {
  }
}
