/** What the invariant says about the handshake in every reachable state and step:
    sequence numbers behind one bit, who may touch a slot, and the launch hand-off. */
module Handshake {
  import opened Wrappers
  import opened Operations
  import opened Schedule
  import opened Protocol
  import opened Invariant
  import opened Refinement
  import opened Summary
  import ClientSteps
  import TrusteeSteps

  // ---- one bit stands for a count ---------------------------------------------

  predicate Sends<T, R>(step: Step<T, R>, c: nat)
  {
    step.StoreRequest? && step.c == c
  }

  /** The step stores a response word of channel c. */
  predicate Answers<T, R>(s: State<T, R>, step: Step<T, R>, c: nat)
  {
    match step
    case StoreResponse => s.trustee.Served? && s.trustee.c == c
    case StoreMoved => s.trustee.MovedOut? && s.trustee.c == c
    case FiberComplete(f) =>
      f < |s.fibers| && s.fibers[f].pc.Effected? && s.fibers[f].pc.job.Execute? && s.fibers[f].pc.job.chan == c
    case _ => false
  }

  ghost function SentCount<T, R>(steps: seq<Step<T, R>>, c: nat, n: nat): nat
    requires n <= |steps|
  {
    if n == 0 then 0 else SentCount(steps, c, n - 1) + (if Sends(steps[n - 1], c) then 1 else 0)
  }

  ghost function AnsweredCount<T, R>(states: seq<State<T, R>>, steps: seq<Step<T, R>>, c: nat, n: nat): nat
    requires n <= |steps| < |states|
  {
    if n == 0 then 0
    else AnsweredCount(states, steps, c, n - 1) + (if Answers(states[n - 1], steps[n - 1], c) then 1 else 0)
  }

  /** Only a client's own store and the three response stores move the numbers. */
  ghost predicate Counted<T, R>(s: State<T, R>, step: Step<T, R>, s': State<T, R>, c: nat)
  {
    && |s.chans| <= |s'.chans|
    && (c < |s.chans| ==>
          && s'.chans[c].sent == s.chans[c].sent + (if Sends(step, c) then 1 else 0)
          && s'.chans[c].answered == s.chans[c].answered + (if Answers(s, step, c) then 1 else 0))
    && (|s.chans| <= c < |s'.chans| ==> s'.chans[c].sent == s'.chans[c].answered == 0)
    && (|s.chans| <= c ==> !Sends(step, c) && !Answers(s, step, c))
  }

  lemma ClientCounts<T, R>(s: State<T, R>, step: Step<T, R>, s': State<T, R>, c: nat)
    requires Next(s, step, s') && ClientSteps.ClientStep(step)
    ensures Counted(s, step, s', c)
  {
    hide Next;
    ClientSummary(s, step, s');
    if Registers(step) && c < |s.chans| {
      assert s'.chans[c] == s'.chans[..|s.chans|][c] == s.chans[c];
    }
  }

  lemma ServiceCounts<T, R>(s: State<T, R>, step: Step<T, R>, s': State<T, R>, c: nat)
    requires Next(s, step, s') && TrusteeSteps.ServiceStep(step)
    ensures Counted(s, step, s', c)
  {
    hide Next;
    if Planning(step) {
      PlanningSame(s, step, s');
    } else {
      ServiceSummary(s, step, s');
    }
  }

  lemma OtherCounts<T, R>(s: State<T, R>, step: Step<T, R>, s': State<T, R>, c: nat)
    requires Next(s, step, s') && !ClientSteps.ClientStep(step) && !TrusteeSteps.ServiceStep(step)
    ensures Counted(s, step, s', c)
  {
    hide Next;
    OtherSummary(s, step, s');
  }

  lemma StepCounts<T, R>(s: State<T, R>, step: Step<T, R>, s': State<T, R>, c: nat)
    requires Next(s, step, s')
    ensures Counted(s, step, s', c)
  {
    hide Next, Counted;
    if ClientSteps.ClientStep(step) {
      ClientCounts(s, step, s', c);
    } else if TrusteeSteps.ServiceStep(step) {
      ServiceCounts(s, step, s', c);
    } else {
      OtherCounts(s, step, s', c);
    }
  }

  lemma {:induction false} CountersCount<T, R>(v: T, states: seq<State<T, R>>, steps: seq<Step<T, R>>, c: nat, n: nat)
    requires Run(v, states, steps) && n <= |steps|
    ensures if c < |states[n].chans| then
              && states[n].chans[c].sent == SentCount(steps, c, n)
              && states[n].chans[c].answered == AnsweredCount(states, steps, c, n)
            else SentCount(steps, c, n) == AnsweredCount(states, steps, c, n) == 0
    decreases n
  {
    if n > 0 {
      CountersCount(v, states, steps, c, n - 1);
      assert Next(states[n - 1], steps[n - 1], states[n]);
      hide Next, Run;
      StepCounts(states[n - 1], steps[n - 1], states[n], c);
    }
  }

  /** In every reachable state the two bits of a channel are the parities of the number of
      requests stored and responses stored so far, and these differ by at most one. A
      client that leaves its wait loop therefore has the answer to its own last request. */
  lemma OneBitIsEnough<T, R>(v: T, states: seq<State<T, R>>, steps: seq<Step<T, R>>, c: nat, n: nat)
    requires Run(v, states, steps) && n <= |steps| && c < |states[n].chans|
    ensures OneBit(states[n].chans[c], SentCount(steps, c, n), AnsweredCount(states, steps, c, n))
  {
    hide Next;
    CountersCount(v, states, steps, c, n);
    ReachableInv(v, states, steps, n);
    assert ChanOk(states[n].chans[c]);
  }

  ghost predicate OneBit<T, R>(ch: Channel<T, R>, sent: nat, answered: nat)
  {
    && ch.req.ready == Odd(sent) && ch.resp.ready == Odd(answered)
    && answered <= sent <= answered + 1
    && (ch.pc == Ready ==> answered == sent > 0)
    && (ch.pc.Waiting? && ch.resp.ready == ch.pc.ready ==> answered == sent > 0)
  }

  // ---- who may touch a slot -----------------------------------------------------

  predicate BitsAgree<T, R>(ch: Channel<T, R>)
  {
    ch.req.ready == ch.resp.ready
  }

  /** The fiber whose step this is, if it writes behind a response flag. */
  predicate FiberWrites<T, R>(step: Step<T, R>, f: nat)
  {
    (step.FiberEffect? || step.FiberComplete?) && step.f == f
  }

  /** The discipline on the two slots of channel c in one step. */
  ghost predicate Disciplined<T, R>(s: State<T, R>, step: Step<T, R>, s': State<T, R>, c: nat)
    requires c < |s.chans| && c < |s'.chans|
  {
    var ch, ch' := s.chans[c], s'.chans[c];
    // the request slot: only its client, only while the bits agree
    && (ch'.record != ch.record ==> step.Write? && step.c == c && BitsAgree(ch))
    && (ch'.req != ch.req ==> step.StoreRequest? && step.c == c && BitsAgree(ch))
    // the response slot: only while they differ, by the trustee at this channel with no
    // fiber in flight on it, or by the one fiber in flight while the trustee is elsewhere
    && (ch'.data != ch.data || ch'.resp != ch.resp ==>
          && !BitsAgree(ch)
          && ((Engaged(s.trustee, c) && ch.fiber.None? && TrusteeSteps.ServiceStep(step))
              || (!Engaged(s.trustee, c) && ch.fiber.Some? && FiberWrites(step, ch.fiber.value))))
    // the client reads only after they agree again, and then nobody can be writing
    && (step.ReadBack? && step.c == c ==> BitsAgree(ch) && ch.fiber.None? && !Engaged(s.trustee, c))
  }

  /** A channel the trustee is engaged with has an open request, so its bits differ. */
  lemma EngagedIsOpen<T, R>(s: State<T, R>, c: nat)
    requires TrusteeOk(s) && Engaged(s.trustee, c)
    ensures c < |s.chans| && Open(s.chans[c])
  {
  }

  lemma ClientDisciplined<T, R>(s: State<T, R>, step: Step<T, R>, s': State<T, R>, c: nat)
    requires ChansOk(s) && TrusteeOk(s) && Next(s, step, s') && ClientSteps.ClientStep(step) && c < |s.chans|
    ensures c < |s'.chans| && Disciplined(s, step, s', c)
  {
    assert ChanOk(s.chans[c]);
    if Engaged(s.trustee, c) {
      EngagedIsOpen(s, c);
    }
    ClientSummary(s, step, s');
    hide Next, ChansOk, TrusteeOk, Engaged, QuietOk;
    if Registers(step) {
      assert s'.chans[c] == s'.chans[..|s.chans|][c] == s.chans[c];
    }
  }

  lemma ServedDisciplined<T, R>(s: State<T, R>, step: Step<T, R>, s': State<T, R>, at: nat, c: nat)
    requires c < |s.chans| && BitsOk(s.chans[c]) && TrusteeSteps.ServiceStep(step)
    requires At(s, at, s') && ServedAt(step, s.chans[at], s'.chans[at])
    requires !step.Decide? ==> Engaged(s.trustee, at) && Open(s.chans[at])
    ensures Disciplined(s, step, s', c)
  {
  }

  lemma ServiceDisciplined<T, R>(s: State<T, R>, step: Step<T, R>, s': State<T, R>, c: nat)
    requires ChansOk(s) && TrusteeOk(s) && Next(s, step, s') && TrusteeSteps.ServiceStep(step) && c < |s.chans|
    ensures c < |s'.chans| && Disciplined(s, step, s', c)
  {
    assert ChanOk(s.chans[c]);
    hide Next, ChansOk, TrusteeOk, QuietOk, ClientOk, WorkOk, BitsOk, ServedAt;
    if Planning(step) {
      PlanningSame(s, step, s');
    } else {
      hide Disciplined, Engaged;
      ServiceSummary(s, step, s');
      if !step.Decide? {
        EngagedIsOpen(s, VisitedChan(s.trustee).value);
      }
      ServedDisciplined(s, step, s', VisitedChan(s.trustee).value, c);
    }
  }

  /** A fiber with a job is the one in flight on its channel, and the trustee is not there. */
  lemma FiberOwns<T, R>(s: State<T, R>, f: nat)
    requires ChansOk(s) && TrusteeOk(s) && FibersOk(s) && f < |s.fibers|
    requires (s.fibers[f].pc.Running? || s.fibers[f].pc.Effected?) && s.fibers[f].pc.job.Execute?
    ensures var at := s.fibers[f].pc.job.chan;
            at < |s.chans| && s.chans[at].fiber == Some(f) && !BitsAgree(s.chans[at]) && !Engaged(s.trustee, at)
  {
    assert FiberOk(s, f);
    var at := s.fibers[f].pc.job.chan;
    assert ChanOk(s.chans[at]);
    hide ChansOk, FibersOk, FiberOk;
    if Engaged(s.trustee, at) {
      EngagedIsOpen(s, at);
    }
  }

  lemma FiberDisciplined<T, R>(s: State<T, R>, step: Step<T, R>, s': State<T, R>, at: nat, c: nat)
    requires (step.FiberEffect? || step.FiberComplete?) && FiberAt(s, step, s', step.f, at) && c < |s.chans|
    requires s.chans[at].fiber == Some(step.f) && !BitsAgree(s.chans[at]) && !Engaged(s.trustee, at)
    ensures c < |s'.chans| && Disciplined(s, step, s', c)
  {
    hide Engaged, BitsAgree;
  }

  lemma OtherDisciplined<T, R>(s: State<T, R>, step: Step<T, R>, s': State<T, R>, c: nat)
    requires ChansOk(s) && TrusteeOk(s) && FibersOk(s) && Next(s, step, s')
    requires !ClientSteps.ClientStep(step) && !TrusteeSteps.ServiceStep(step) && c < |s.chans|
    ensures c < |s'.chans| && Disciplined(s, step, s', c)
  {
    hide Next, ChansOk, FibersOk, TrusteeOk, Engaged, FiberAt;
    OtherSummary(s, step, s');
    if step.FiberEffect? || step.FiberComplete? {
      hide Disciplined;
      FiberOwns(s, step.f);
      FiberDisciplined(s, step, s', s.fibers[step.f].pc.job.chan, c);
    }
  }

  /** Every step of every reachable state respects the slot discipline. */
  lemma SlotOwnership<T, R>(s: State<T, R>, step: Step<T, R>, s': State<T, R>, c: nat)
    requires Inv(s) && Next(s, step, s') && c < |s.chans|
    ensures c < |s'.chans| && Disciplined(s, step, s', c)
  {
    hide Next, Disciplined;
    if ClientSteps.ClientStep(step) {
      ClientDisciplined(s, step, s', c);
    } else if TrusteeSteps.ServiceStep(step) {
      ServiceDisciplined(s, step, s', c);
    } else {
      OtherDisciplined(s, step, s', c);
    }
  }

  // ---- the launch hand-off under split loads -------------------------------------

  /** A visit that decides to serve has a request nobody has begun to execute, on a channel
      with no fiber in flight, and the word it loaded is the current one. */
  lemma ServesOnlyFreshRequests<T, R>(s: State<T, R>, s': State<T, R>)
    requires Inv(s) && DoDecide(s, s') && s'.trustee.Serving?
    ensures var ch := s.chans[s.trustee.c];
            && ch.sent == ch.answered + 1 && ch.fiber.None? && ch.record.Some?
            && ch.left == Repeats(ch.record.value) && s.trustee.w == ch.req
  {
    var c := s.trustee.c;
    assert ChanOk(s.chans[c]) && QuietOk(s.chans[c]);
  }

  /** A visit that clears `pending` has seen the end of that launch. */
  lemma ClearsOnlyFinishedLaunches<T, R>(s: State<T, R>, s': State<T, R>)
    requires Inv(s) && DoDecide(s, s')
    requires s.chans[s.trustee.c].pending && !s'.chans[s.trustee.c].pending
    ensures s.chans[s.trustee.c].fiber.None?
  {
  }

  /** A request that was already there when both words were loaded is served: the words
      of an open request always give that verdict, whatever launch went before. */
  lemma OpenRequestIsServed<T, R>(ch: Channel<T, R>)
    requires ChanOk(ch) && QuietOk(ch) && Open(ch)
    ensures Classify(ch.pending, ch.launchReady, ch.req.ready, ch.resp.ready) == Serve
  {
  }

  /** And one whose fiber is still running is left alone. */
  lemma InFlightIsSkipped<T, R>(ch: Channel<T, R>)
    requires ChanOk(ch) && ch.fiber.Some?
    ensures Classify(ch.pending, ch.launchReady, ch.req.ready, ch.resp.ready) == StillRunning
  {
  }

  // ---- fibers ---------------------------------------------------------------------

  /** Every fiber ever spawned is in exactly one of: a sender in the pool or popped, one
      message in its inbox, or past its receive. */
  lemma TokenConservation<T, R>(v: T, states: seq<State<T, R>>, steps: seq<Step<T, R>>, n: nat, f: nat)
    requires Run(v, states, steps) && n <= |steps| && f < |states[n].fibers|
    ensures Tokens(states[n], f) == 1
  {
    ReachableInv(v, states, steps, n);
    assert FiberOk(states[n], f);
  }

  /** So a dispatch never fails and never gives a busy fiber a second job. */
  lemma SendNeverFails<T, R>(s: State<T, R>, s': State<T, R>)
    requires Inv(s) && DoSendJob(s, s')
    ensures s.fibers[s.trustee.f] == Fiber([], Receiving)
    ensures s'.trustee.Visiting? && |s'.fibers[s.trustee.f].inbox| == 1
  {
    TrusteeSteps.PoppedIsIdle(s);
  }
}
