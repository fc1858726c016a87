/** Nobody is ever stuck inside the worker loop, and a scan takes a bounded number of the
    trustee's own steps: what turns the drain bound from scans into steps. */
module Liveness {
  import opened Operations
  import opened Schedule
  import opened Protocol
  import opened Invariant
  import opened Summary
  import opened Refinement
  import opened Scans
  import Shutdowns
  import Registration
  import ClientSteps
  import TrusteeSteps
  import Handshake

  // ---- the trustee is never stuck --------------------------------------------------

  predicate Own<T, R>(step: Step<T, R>)
  {
    TrusteeSteps.ServiceStep(step) || step.BeginTerminate?
  }

  ghost predicate CanMove<T(!new), R(!new)>(s: State<T, R>)
  {
    exists step: Step<T, R>, s' :: Own(step) && Next(s, step, s')
  }

  lemma Moves<T(!new), R(!new)>(s: State<T, R>, step: Step<T, R>, s': State<T, R>)
    requires Own(step) && Next(s, step, s')
    ensures CanMove(s)
  {
  }

  lemma RoundMoves<T(!new), R(!new)>(s: State<T, R>)
    requires s.trustee == RoundTop || s.trustee.Draining?
    ensures CanMove(s)
  {
    match s.trustee
    case RoundTop =>
      var t := s.(counter := (s.counter + 1) % USIZE);
      Moves(s, BeginRound, if DrainDue(t) then t.(trustee := Draining(0)) else BeginScan(t));
    case Draining(drained) =>
      if drained < DRAIN_LIMIT && s.queue != [] {
        Moves(s, DrainPop, s.(clients := s.clients + [s.queue[0]], queue := s.queue[1..], trustee := Draining(drained + 1)));
      } else {
        Moves(s, DrainEnd, BeginScan(s));
      }
  }

  lemma VisitMoves<T(!new), R(!new)>(s: State<T, R>)
    requires RegistryOk(s) && PlaceOk(s)
    requires s.trustee.Visiting? || s.trustee.LoadedReq? || s.trustee.LoadedBoth?
    ensures CanMove(s)
  {
    hide CanMove;
    var t := s.trustee;
    match t
    case Visiting(offs) =>
      if offs < |s.clients| {
        var c := s.clients[VisitIndex(s.start, offs, |s.clients|)];
        Moves(s, LoadReq, s.(trustee := LoadedReq(offs, c, s.chans[c].req)));
      } else {
        Moves(s, EndScan, s.(trustee := RoundTop));
      }
    case LoadedReq(offs, c, w) =>
      Moves(s, LoadResp, s.(trustee := LoadedBoth(offs, c, w, s.chans[c].resp)));
    case LoadedBoth(offs, c, w, v) =>
      var ch := s.chans[c];
      Moves(s, Decide,
        match Classify(ch.pending, ch.launchReady, w.ready, v.ready)
        case StillRunning => Advance(s, offs)
        case Settled => Advance(Put(s, c, ch.(pending := false)), offs)
        case Serve => Put(s, c, ch.(pending := false)).(trustee := Serving(offs, c, w, 0)));
  }

  /** At a record: whichever operation it asks for, its branch can be taken. */
  lemma ServingMoves<T(!new), R(!new)>(s: State<T, R>)
    requires AtRecord(s) && VisitOk(s.trustee, s.chans[s.trustee.c])
    ensures CanMove(s)
  {
    hide CanMove, Apply;
    var t := s.trustee;
    var ch := s.chans[t.c];
    var req := ch.record.value;
    match req
    case CallMutRetUnit(_, _) => BatchMoves(s);
    case CallMutOutPtr(_) => CallMoves(s);
    case CallMutArgsOutPtr(_, _) => CallMoves(s);
    case IntoInner =>
      Moves(s, MoveOut, Put(s, t.c, ch.(data := Inner(s.value), left := 0)).(trustee := MovedOut(t.c, t.w)));
    case Launch(_) =>
      Moves(s, BeginLaunch, Put(s, t.c, ch.(pending := true, launchReady := t.w.ready))
        .(trustee := Dispatching(t.offs, t.c, t.w)));
    case Terminate =>
      Moves(s, BeginTerminate, s.(trustee := Joining(0), terminator := Polling));
  }

  lemma BatchMoves<T(!new), R(!new)>(s: State<T, R>)
    requires AtRecord(s) && VisitOk(s.trustee, s.chans[s.trustee.c])
    requires s.chans[s.trustee.c].record.value.CallMutRetUnit?
    ensures CanMove(s)
  {
    hide CanMove, Apply;
    var t := s.trustee;
    var ch := s.chans[t.c];
    if t.done < ch.record.value.repeat {
      Moves(s, ExecRepeat, Put(s, t.c, ch.(left := ch.left - 1))
        .(value := Apply(ch.record.value, s.value).0, trustee := t.(done := t.done + 1)));
    } else {
      Moves(s, EndBatch, s.(trustee := Served(t.offs, t.c, t.w)));
    }
  }

  lemma CallMoves<T(!new), R(!new)>(s: State<T, R>)
    requires AtRecord(s)
    requires var req := s.chans[s.trustee.c].record.value; req.CallMutOutPtr? || req.CallMutArgsOutPtr?
    ensures CanMove(s)
  {
    hide CanMove;
    var t := s.trustee;
    var ch := s.chans[t.c];
    var (v, reply) := Apply(ch.record.value, s.value);
    Moves(s, ExecCall, Put(s, t.c, ch.(data := reply, left := 0)).(value := v, trustee := Served(t.offs, t.c, t.w)));
  }

  lemma ClosingMoves<T(!new), R(!new)>(s: State<T, R>)
    requires TrusteeOk(s) && RegistryOk(s)
    requires s.trustee.Served? || s.trustee.MovedOut?
    ensures CanMove(s)
  {
    hide CanMove;
    var t := s.trustee;
    var ch := s.chans[t.c];
    match t
    case Served(offs, c, w) =>
      Moves(s, StoreResponse, Progress(Put(s, c, ch.(resp := Word(w.ready, 1), answered := ch.answered + 1)), offs, c));
    case MovedOut(c, w) =>
      Moves(s, StoreMoved, Put(s, c, ch.(resp := Word(ch.req.ready, 1), answered := ch.answered + 1)).(trustee := Exited));
  }

  lemma DispatchMoves<T(!new), R(!new)>(s: State<T, R>)
    requires TrusteeOk(s) && RegistryOk(s) && s.trustee.Dispatching?
    ensures CanMove(s)
  {
    hide CanMove;
    var t := s.trustee;
    if s.pool != [] {
      Moves(s, PopPool, s.(pool := s.pool[1..], trustee := Sending(t.offs, t.c, t.w, s.pool[0])));
    } else {
      var job := Execute(t.c, s.chans[t.c].record.value, t.w.ready);
      Moves(s, SpawnFiber, Dispatched(s, t.offs, t.c, |s.fibers|).(fibers := s.fibers + [Fiber([job], Receiving)]));
    }
  }

  lemma SendMoves<T(!new), R(!new)>(s: State<T, R>)
    requires Inv(s) && s.trustee.Sending?
    ensures CanMove(s)
  {
    TrusteeSteps.PoppedIsIdle(s);
    hide CanMove, ChansOk, FibersOk, ShutdownOk, OwnersOk;
    var t := s.trustee;
    var job := Execute(t.c, s.chans[t.c].record.value, t.w.ready);
    var fb := s.fibers[t.f];
    Moves(s, SendJob, Dispatched(s, t.offs, t.c, t.f).(fibers := s.fibers[t.f := fb.(inbox := fb.inbox + [job])]));
  }

  /** In every reachable state the trustee can take a step of its own, until it has exited
      or winds down, whatever everybody else is doing: the words it loads, the records it
      finds and the senders it pops are always such that one of its branches applies. */
  lemma TrusteeNotStuck<T(!new), R(!new)>(s: State<T, R>)
    requires Inv(s) && s.trustee != Exited && !Terminating(s.trustee)
    ensures CanMove(s)
  {
    hide CanMove, ChansOk, FibersOk, ShutdownOk, OwnersOk;
    match s.trustee
    case RoundTop => RoundMoves(s);
    case Draining(_) => RoundMoves(s);
    case Visiting(_) => VisitMoves(s);
    case LoadedReq(_, _, _) => VisitMoves(s);
    case LoadedBoth(_, _, _, _) => VisitMoves(s);
    case Serving(_, _, _, _) => AtItsRecord(s); ServingMoves(s);
    case Served(_, _, _) => ClosingMoves(s);
    case MovedOut(_, _) => ClosingMoves(s);
    case Dispatching(_, _, _) => DispatchMoves(s);
    case Sending(_, _, _, _) => SendMoves(s);
  }

  lemma AtItsRecord<T, R>(s: State<T, R>)
    requires Inv(s) && s.trustee.Serving?
    ensures AtRecord(s) && VisitOk(s.trustee, s.chans[s.trustee.c])
  {
    assert ChanOk(s.chans[s.trustee.c]);
    hide FibersOk, ShutdownOk, OwnersOk, RegistryOk;
  }

  // ---- nor are clients and fibers ---------------------------------------------------

  ghost predicate ClientCanMove<T(!new), R(!new)>(s: State<T, R>, c: nat)
  {
    exists step: Step<T, R>, s' ::
      step in {LoadToggle(c), StoreRequest(c), Poll(c), ReadBack(c)} && Next(s, step, s')
  }

  lemma ClientMoves<T(!new), R(!new)>(s: State<T, R>, c: nat, step: Step<T, R>, s': State<T, R>)
    requires step in {LoadToggle(c), StoreRequest(c), Poll(c), ReadBack(c)} && Next(s, step, s')
    ensures ClientCanMove(s, c)
  {
  }

  /** A handle in the middle of a call can always go on with it (in the wait loop, by
      another turn). */
  lemma ClientNotStuck<T(!new), R(!new)>(s: State<T, R>, c: nat)
    requires Inv(s) && c < |s.chans| && s.chans[c].kind == Handle && s.chans[c].pc !in {Idle, Consumed}
    ensures ClientCanMove(s, c)
  {
    var ch := s.chans[c];
    assert ChanOk(ch);
    hide ClientCanMove, Inv, ChanOk;
    match ch.pc
    case Written => ClientMoves(s, c, LoadToggle(c), Put(s, c, ch.(pc := Toggled(!ch.resp.ready))));
    case Toggled(ready) =>
      ClientMoves(s, c, StoreRequest(c), Put(s, c, ch.(req := Word(ready, 1), pc := Waiting(ready),
                                                       sent := ch.sent + 1, left := Repeats(ch.record.value))));
    case Waiting(ready) =>
      ClientMoves(s, c, Poll(c), if ch.resp.ready == ready then Put(s, c, ch.(pc := Ready)) else s);
    case Ready =>
      ClientMoves(s, c, ReadBack(c), Put(s, c, ch.(pc := if ch.record.value.IntoInner? then Consumed else Idle)));
  }

  /** A fiber that is neither gone nor waiting for a message can move. */
  lemma FiberNotStuck<T(!new), R(!new)>(s: State<T, R>, f: nat)
    requires Inv(s) && f < |s.fibers| && s.fibers[f].pc != Gone
    requires s.fibers[f].pc == Receiving ==> s.fibers[f].inbox != []
    ensures Shutdowns.CanWindDown(s)
  {
    var fb := s.fibers[f];
    hide Shutdowns.CanWindDown;
    if fb.pc.Running? || fb.pc.Effected? {
      Shutdowns.BusyFiberMoves(s, f);
    } else {
      hide Inv;
      if fb.pc == Finishing {
        Shutdowns.CanStep(s, FiberPush(f), s.(pool := s.pool + [f], fibers := s.fibers[f := fb.(pc := Receiving)]));
      } else {
        var job := fb.inbox[0];
        Shutdowns.CanStep(s, Receive(f),
          s.(fibers := s.fibers[f := Fiber(fb.inbox[1..], if job.Shutdown? then Gone else Running(job))]));
      }
    }
  }

  // ---- the price of a round -----------------------------------------------------------

  /** A visit takes at most two loads, the test, 255 repetitions, the end of the batch and
      the store. */
  const VISIT: nat := 260

  /** A round: its beginning, a full drain, the visits, its end. */
  function RoundCost(n: nat): nat
  {
    VISIT * n + DRAIN_LIMIT + 3
  }

  /** Steps a record may still take, its answer included. */
  function ServeCost<T, R>(ch: Channel<T, R>, done: nat): int
  {
    if ch.record.Some? && ch.record.value.CallMutRetUnit? then ch.record.value.repeat - done + 2 else 4
  }

  /** The trustee's own steps until the end of the round, with at most `n` clients. */
  function Ahead<T, R>(s: State<T, R>, n: nat): int
  {
    var todo := |s.clients|;
    match s.trustee
    case RoundTop => RoundCost(n)
    case Draining(drained) => VISIT * n + DRAIN_LIMIT - drained + 2
    case Visiting(offs) => VISIT * (todo - offs) + 1
    case LoadedReq(offs, _, _) => VISIT * (todo - offs)
    case LoadedBoth(offs, _, _, _) => VISIT * (todo - offs) - 1
    case Serving(offs, c, _, done) =>
      VISIT * (todo - offs - 1) + 1 + (if c < |s.chans| then ServeCost(s.chans[c], done) else 0)
    case Served(offs, _, _) => VISIT * (todo - offs - 1) + 2
    case Dispatching(offs, _, _) => VISIT * (todo - offs - 1) + 3
    case Sending(offs, _, _, _) => VISIT * (todo - offs - 1) + 2
    case MovedOut(_, _) => 1
    case _ => 0
  }

  lemma AheadIsNat<T, R>(s: State<T, R>, n: nat)
    requires Inv(s)
    ensures Ahead(s, n) >= 0
  {
    hide ChansOk, FibersOk, ShutdownOk, OwnersOk;
  }

  /** The step that ends a round: the end of a scan, or of a drain that leaves no client. */
  predicate EndsRound<T, R>(s: State<T, R>, s': State<T, R>)
  {
    s.trustee != RoundTop && s'.trustee == RoundTop
  }

  lemma DrainCost<T, R>(s: State<T, R>, step: Step<T, R>, s': State<T, R>, n: nat)
    requires RegistryOk(s) && PlaceOk(s) && Next(s, step, s') && (step.BeginRound? || step.DrainPop? || step.DrainEnd?)
    requires |s.chans| <= n
    ensures Ahead(s', n) < Ahead(s, n) + (if EndsRound(s, s') then RoundCost(n) else 0)
    ensures s.clients != [] ==> s'.clients != [] && !EndsRound(s, s')
  {
    hide VisitIndex;
  }

  lemma LoadCost<T, R>(s: State<T, R>, step: Step<T, R>, s': State<T, R>, n: nat)
    requires RegistryOk(s) && PlaceOk(s) && Next(s, step, s') && (step.LoadReq? || step.LoadResp? || step.PopPool?)
    ensures Ahead(s', n) < Ahead(s, n) && s'.clients == s.clients
  {
    hide VisitIndex;
  }

  lemma DecideCost<T, R>(s: State<T, R>, s': State<T, R>, n: nat)
    requires Inv(s) && DoDecide(s, s')
    ensures Ahead(s', n) < Ahead(s, n) && s'.clients == s.clients
  {
    assert ChanOk(s.chans[s.trustee.c]);
    hide ChansOk, FibersOk, ShutdownOk, OwnersOk, Classify;
  }

  lemma ServingCost<T, R>(s: State<T, R>, step: Step<T, R>, s': State<T, R>, n: nat)
    requires Inv(s) && Next(s, step, s') && s.trustee.Serving?
    requires step.ExecRepeat? || step.EndBatch? || step.ExecCall? || step.MoveOut? || step.BeginLaunch?
    ensures Ahead(s', n) < Ahead(s, n) && s'.clients == s.clients
  {
    hide ChansOk, FibersOk, ShutdownOk, OwnersOk, Apply;
  }

  lemma ClosingCost<T, R>(s: State<T, R>, step: Step<T, R>, s': State<T, R>, n: nat)
    requires RegistryOk(s) && PlaceOk(s) && Next(s, step, s')
    requires step.StoreResponse? || step.SpawnFiber? || step.StoreMoved?
    ensures Ahead(s', n) < Ahead(s, n) && s'.clients == s.clients
  {
    hide NextStart, VisitIndex;
  }

  lemma SendCost<T, R>(s: State<T, R>, s': State<T, R>, n: nat)
    requires Inv(s) && DoSendJob(s, s')
    ensures Ahead(s', n) < Ahead(s, n) && s'.clients == s.clients
  {
    Handshake.SendNeverFails(s, s');
    hide ChansOk, FibersOk, ShutdownOk, OwnersOk, NextStart, VisitIndex;
  }

  lemma EndCost<T, R>(s: State<T, R>, s': State<T, R>, n: nat)
    requires Inv(s) && DoEndScan(s, s')
    ensures Ahead(s, n) == 1 && Ahead(s', n) == RoundCost(n) && s'.clients == s.clients && EndsRound(s, s')
  {
    hide ChansOk, FibersOk, ShutdownOk, OwnersOk;
  }

  /** Only the top of a round has what is ahead of it equal to a whole round. */
  lemma NotAtTop<T, R>(s: State<T, R>, step: Step<T, R>, s': State<T, R>)
    requires Next(s, step, s') && TrusteeSteps.ServiceStep(step)
    requires !step.BeginRound? && !step.DrainPop? && !step.DrainEnd? && !step.EndScan?
    ensures s'.trustee != RoundTop
  {
    if Planning(step) {
      hide VisitIndex, MaySend, NoHandles;
    } else {
      hide Apply, NextStart, Classify, MaySend, NoHandles;
    }
  }

  /** Every step of the trustee's own lowers what is ahead, but the end of a round, which
      begins another one. */
  lemma ServiceCost<T, R>(s: State<T, R>, step: Step<T, R>, s': State<T, R>, n: nat)
    requires Inv(s) && Next(s, step, s') && TrusteeSteps.ServiceStep(step) && |s.chans| <= n
    ensures Ahead(s', n) < Ahead(s, n) + (if EndsRound(s, s') then RoundCost(n) else 0)
    ensures s.clients != [] ==> s'.clients != [] && (EndsRound(s, s') <==> step.EndScan?)
  {
    InvHasPlace(s);
    assert step.Decide? ==> DoDecide(s, s');
    assert step.SendJob? ==> DoSendJob(s, s');
    assert step.EndScan? ==> DoEndScan(s, s');
    hide Inv, Next, RegistryOk, PlaceOk, Ahead, DoDecide, DoSendJob, DoEndScan, RoundCost;
    if step.EndScan? {
      EndCost(s, s', n);
    } else if step.BeginRound? || step.DrainPop? || step.DrainEnd? {
      DrainCost(s, step, s', n);
    } else {
      NotAtTop(s, step, s');
      VisitCost(s, step, s', n);
    }
  }

  /** The steps of a visit. */
  lemma VisitCost<T, R>(s: State<T, R>, step: Step<T, R>, s': State<T, R>, n: nat)
    requires Inv(s) && Next(s, step, s') && TrusteeSteps.ServiceStep(step)
    requires !step.BeginRound? && !step.DrainPop? && !step.DrainEnd? && !step.EndScan?
    ensures Ahead(s', n) < Ahead(s, n) && s'.clients == s.clients
  {
    InvHasPlace(s);
    assert step.Decide? ==> DoDecide(s, s');
    assert step.SendJob? ==> DoSendJob(s, s');
    hide Inv, Next, RegistryOk, PlaceOk, Ahead, DoDecide, DoSendJob;
    if step.LoadReq? || step.LoadResp? || step.PopPool? {
      LoadCost(s, step, s', n);
    } else if step.Decide? {
      DecideCost(s, s', n);
    } else if step.SendJob? {
      SendCost(s, s', n);
    } else if step.StoreResponse? || step.SpawnFiber? || step.StoreMoved? {
      ClosingCost(s, step, s', n);
    } else {
      AtServing(s, step, s');
      ServingCost(s, step, s', n);
    }
  }

  lemma AtServing<T, R>(s: State<T, R>, step: Step<T, R>, s': State<T, R>)
    requires Next(s, step, s')
    requires step.ExecRepeat? || step.EndBatch? || step.ExecCall? || step.MoveOut? || step.BeginLaunch?
    ensures s.trustee.Serving?
  {
    hide Apply;
  }

  /** Nobody else's step raises it. */
  lemma OtherCost<T, R>(s: State<T, R>, step: Step<T, R>, s': State<T, R>, n: nat)
    requires Inv(s) && Next(s, step, s') && !TrusteeSteps.ServiceStep(step)
    ensures Ahead(s', n) <= Ahead(s, n) && s'.clients == s.clients && !EndsRound(s, s')
  {
    hide Inv, Next, RoundCost;
    AheadIsNat(s, n);
    OthersKeepScan(s, step, s');
    OthersKeepTrustee(s, step, s');
    if s.trustee.Serving? {
      RecordStays(s, step, s');
    }
  }

  lemma OthersKeepTrustee<T, R>(s: State<T, R>, step: Step<T, R>, s': State<T, R>)
    requires Next(s, step, s') && !TrusteeSteps.ServiceStep(step)
    ensures s'.trustee == s.trustee || s'.trustee.Joining? || s'.trustee.JoiningTerminator? || s'.trustee == Exited
  {
    if ClientSteps.ClientStep(step) {
      hide Next;
      ClientSummary(s, step, s');
    } else {
      hide Apply, MaySend, NoHandles;
    }
  }

  /** The record being served does not change under the trustee. */
  lemma RecordStays<T, R>(s: State<T, R>, step: Step<T, R>, s': State<T, R>)
    requires Inv(s) && Next(s, step, s') && !TrusteeSteps.ServiceStep(step) && s.trustee.Serving?
    ensures s.trustee.c < |s.chans| && s.trustee.c < |s'.chans|
    ensures s'.chans[s.trustee.c].record == s.chans[s.trustee.c].record
  {
    hide Next;
    var c := s.trustee.c;
    assert ChanOk(s.chans[c]) && s.chans[c].pc.Waiting?;
    hide Inv, ChanOk;
    if ClientSteps.ClientStep(step) {
      ClientSummary(s, step, s');
      if Registers(step) {
        assert s'.chans[c] == s'.chans[..|s.chans|][c] == s.chans[c];
      }
    } else {
      OtherSummary(s, step, s');
    }
  }

  // ---- the drain bound in steps ------------------------------------------------------

  /** How many of steps i..j are the trustee's own. */
  ghost function OwnSteps<T, R>(steps: seq<Step<T, R>>, i: nat, j: nat): nat
    requires i <= j <= |steps|
  {
    if i == j then 0 else OwnSteps(steps, i, j - 1) + (if TrusteeSteps.ServiceStep(steps[j - 1]) then 1 else 0)
  }

  /** How many rounds end in steps i..j. */
  ghost function RoundEnds<T, R>(states: seq<State<T, R>>, i: nat, j: nat): nat
    requires i <= j < |states|
  {
    if i == j then 0 else RoundEnds(states, i, j - 1) + (if EndsRound(states[j - 1], states[j]) then 1 else 0)
  }

  lemma CostStep<T, R>(s: State<T, R>, step: Step<T, R>, s': State<T, R>, n: nat)
    requires Inv(s) && Next(s, step, s') && |s.chans| <= n
    ensures Ahead(s', n) + (if TrusteeSteps.ServiceStep(step) then 1 else 0)
         <= Ahead(s, n) + (if EndsRound(s, s') then RoundCost(n) else 0)
    ensures s.clients != [] ==> s'.clients != [] && (EndsRound(s, s') <==> step.EndScan?)
  {
    hide Inv, Next, Ahead, RoundCost, EndsRound;
    if TrusteeSteps.ServiceStep(step) {
      ServiceCost(s, step, s', n);
    } else {
      OtherCost(s, step, s', n);
    }
  }

  /** With n channels, a round takes at most 260 n + 259 of the trustee's own steps. */
  lemma StepsAreBounded<T, R>(v: T, states: seq<State<T, R>>, steps: seq<Step<T, R>>, i: nat, j: nat, n: nat)
    requires Run(v, states, steps) && i <= j < |states| && |states| == |steps| + 1
    requires states[i].trustee == RoundTop && |states[j].chans| <= n
    ensures OwnSteps(steps, i, j) <= (RoundEnds(states, i, j) + 1) * (260 * n + 259)
  {
    StepsAreCounted(v, states, steps, i, j, n);
    ReachableInv(v, states, steps, j);
    assert RoundCost(n) == 260 * n + 259;
    hide Run, Inv, Next, Ahead, RoundCost;
    AheadIsNat(states[j], n);
  }

  lemma {:induction false} StepsAreCounted<T, R>(v: T, states: seq<State<T, R>>, steps: seq<Step<T, R>>, i: nat, j: nat, n: nat)
    requires Run(v, states, steps) && i <= j < |states| && |states| == |steps| + 1
    requires states[i].trustee == RoundTop && |states[j].chans| <= n
    ensures OwnSteps(steps, i, j) + Ahead(states[j], n) <= (RoundEnds(states, i, j) + 1) * RoundCost(n)
    ensures states[i].clients != [] ==> states[j].clients != [] && RoundEnds(states, i, j) == EndScans(steps, i, j)
    decreases j - i
  {
    hide Run, Inv, Next;
    if i < j {
      hide Ahead, EndsRound;
      RunStep(v, states, steps, j - 1);
      Registration.ChansGrow(states[j - 1], steps[j - 1], states[j]);
      StepsAreCounted(v, states, steps, i, j - 1, n);
      ReachableInv(v, states, steps, j - 1);
      CostStep(states[j - 1], steps[j - 1], states[j], n);
      var e := RoundEnds(states, i, j - 1);
      assert (e + 1 + 1) * RoundCost(n) == (e + 1) * RoundCost(n) + RoundCost(n);
    }
  }

  /** The drain bound without any assumption about scans: from the top of a round, with m
      open requests, all registered, and no new ones stored, the backlog is empty once the
      trustee has taken more than m * (260 n + 259) steps of its own, where n is the number
      of channels by then; and a step of its own is always possible. */
  lemma BacklogDrainsInSteps<T, R>(v: T, states: seq<State<T, R>>, steps: seq<Step<T, R>>, i: nat, j: nat)
    requires Run(v, states, steps) && i <= j < |states| && Quiescent(steps, i, j)
    requires states[i].trustee == RoundTop
    requires forall c: nat :: c in Backlog(states[i]) ==> c < |states[i].clients|
    ensures OwnSteps(steps, i, j) > |Backlog(states[i])| * (260 * |states[j].chans| + 259) ==> Backlog(states[j]) == {}
  {
    var r := RoundCost(|states[j].chans|);
    assert r == 260 * |states[j].chans| + 259;
    hide *;
    BacklogDrainsBy(v, states, steps, i, j, r);
  }

  lemma BacklogDrainsBy<T, R>(v: T, states: seq<State<T, R>>, steps: seq<Step<T, R>>, i: nat, j: nat, r: nat)
    requires Run(v, states, steps) && i <= j < |states| && Quiescent(steps, i, j)
    requires states[i].trustee == RoundTop && r == RoundCost(|states[j].chans|)
    requires forall c: nat :: c in Backlog(states[i]) ==> c < |states[i].clients|
    ensures OwnSteps(steps, i, j) > |Backlog(states[i])| * r ==> Backlog(states[j]) == {}
  {
    hide Run, Inv, Backlog, Ahead, RoundCost;
    RunLength(v, states, steps);
    BacklogDrains(v, states, steps, i, j);
    var m, e := |Backlog(states[i])|, EndScans(steps, i, j);
    if states[i].clients != [] && e < m {
      ReachableInv(v, states, steps, j);
      StepsAreCounted(v, states, steps, i, j, |states[j].chans|);
      AheadIsNat(states[j], |states[j].chans|);
      Multiply(e + 1, m, r);
    }
  }

  lemma Multiply(a: nat, b: nat, r: nat)
    requires a <= b
    ensures a * r <= b * r
  {
    assert (b - a) * r >= 0;
  }
}
