/** Work conservation: what a whole scan achieves, whatever clients and fibers do
    meanwhile, and how many scans a backlog takes. */
module Scans {
  import opened Wrappers
  import opened Operations
  import opened Schedule
  import opened Protocol
  import opened Invariant
  import opened Summary
  import opened Handshake
  import opened Refinement
  import opened Sets
  import ClientSteps
  import TrusteeSteps
  import FiberSteps

  predicate InScan(t: Trustee)
  {
    Offset(t).Some?
  }

  /** The offset at which a scan from `start` visits client c. */
  function Position(start: nat, n: nat, c: nat): (p: nat)
    requires start < n && c < n
    ensures p < n && VisitIndex(start, p, n) == c
    ensures forall offs :: 0 <= offs < n && VisitIndex(start, offs, n) == c ==> offs == p
  {
    if c >= start then c - start else c + n - start
  }

  /** This scan has not yet passed client c, and if it is there it is about to serve. */
  ghost predicate Facing<T, R>(s: State<T, R>, c: nat)
    requires s.start < |s.clients| <= |s.chans| && c < |s.clients|
  {
    var p, ch := Position(s.start, |s.clients|, c), s.chans[c];
    match s.trustee
    case Visiting(offs) => offs <= p
    case LoadedReq(offs, _, w) => offs <= p && (offs == p ==> w == ch.req)
    case LoadedBoth(offs, _, w, v) =>
      offs <= p && (offs == p ==> Classify(ch.pending, ch.launchReady, w.ready, v.ready) == Serve)
    case _ => true
  }

  /** Either this scan has already served somebody, or client c is still ahead of it. */
  ghost predicate Fair<T, R>(s: State<T, R>, c: nat)
    requires RegistryOk(s) && c < |s.clients|
  {
    InScan(s.trustee) && !s.progressed ==> Facing(s, c)
  }

  // ---- one step ---------------------------------------------------------------

  /** What an open request's channel looks like to anybody but the trustee. */
  lemma OpenIsStable<T, R>(s: State<T, R>, step: Step<T, R>, s': State<T, R>, c: nat)
    requires ChansOk(s) && FibersOk(s) && Next(s, step, s') && !TrusteeSteps.ServiceStep(step)
    requires c < |s.chans| && Open(s.chans[c])
    ensures c < |s'.chans|
    ensures s'.chans[c].req == s.chans[c].req && s'.chans[c].pending == s.chans[c].pending
    ensures s'.chans[c].launchReady == s.chans[c].launchReady
  {
    assert ChanOk(s.chans[c]);
    hide Next, ChansOk;
    if ClientSteps.ClientStep(step) {
      ClientSummary(s, step, s');
      if Registers(step) {
        assert s'.chans[c] == s'.chans[..|s.chans|][c] == s.chans[c];
      }
    } else {
      OtherSummary(s, step, s');
      if step.FiberEffect? || step.FiberComplete? {
        assert FiberOk(s, step.f);
      }
    }
  }

  /** Other people's steps leave the scan where it is. */
  lemma OthersKeepScan<T, R>(s: State<T, R>, step: Step<T, R>, s': State<T, R>)
    requires Next(s, step, s') && !TrusteeSteps.ServiceStep(step)
    ensures s'.clients == s.clients && s'.start == s.start && s'.progressed == s.progressed
    ensures s'.trustee == s.trustee || (!InScan(s'.trustee) && (step.BeginTerminate? || !InScan(s.trustee)))
  {
    hide Next;
    if ClientSteps.ClientStep(step) {
      ClientSummary(s, step, s');
    } else {
      OtherSummary(s, step, s');
    }
  }

  lemma OtherFair<T, R>(s: State<T, R>, step: Step<T, R>, s': State<T, R>, c: nat)
    requires Inv(s) && Inv(s') && Next(s, step, s') && !TrusteeSteps.ServiceStep(step)
    requires c < |s.clients| && Fair(s, c) && Open(s.chans[c])
    ensures c < |s'.clients| && Fair(s', c)
  {
    OpenIsStable(s, step, s', c);
    OthersKeepScan(s, step, s');
    hide Next, ChansOk, FibersOk, ShutdownOk, OwnersOk, TrusteeOk, Classify;
  }

  lemma LoadReqFair<T, R>(s: State<T, R>, s': State<T, R>, c: nat)
    requires Inv(s) && DoLoadReq(s, s') && c < |s.clients| && Fair(s, c)
    ensures c < |s'.clients| && Fair(s', c)
  {
    hide ChansOk, FibersOk, ShutdownOk, OwnersOk;
  }

  lemma LoadRespFair<T, R>(s: State<T, R>, s': State<T, R>, c: nat)
    requires Inv(s) && DoLoadResp(s, s') && c < |s.clients| && Fair(s, c) && Open(s.chans[c])
    ensures c < |s'.clients| && Fair(s', c)
  {
    assert ChanOk(s.chans[c]) && QuietOk(s.chans[c]);
    OpenRequestIsServed(s.chans[c]);
    hide ChansOk, FibersOk, ShutdownOk, OwnersOk, ChanOk, QuietOk, Classify, WordSeen;
  }

  lemma DecideFair<T, R>(s: State<T, R>, s': State<T, R>, c: nat)
    requires Inv(s) && DoDecide(s, s') && c < |s.clients| && Fair(s, c)
    ensures c < |s'.clients| && Fair(s', c)
  {
    hide ChansOk, FibersOk, ShutdownOk, OwnersOk, Classify, Judged;
  }

  /** The trustee's remaining steps: outside a scan or at its start. */
  lemma PlanningFair<T, R>(s: State<T, R>, step: Step<T, R>, s': State<T, R>, c: nat)
    requires Inv(s) && Next(s, step, s') && Planning(step) && !step.LoadReq? && !step.LoadResp?
    requires RegistryOk(s') && c < |s.clients|
    ensures c < |s'.clients| && Fair(s', c)
  {
    hide ChansOk, FibersOk, ShutdownOk, OwnersOk, TrusteeOk;
  }

  /** And in the middle of a service. */
  lemma ServingFair<T, R>(s: State<T, R>, step: Step<T, R>, s': State<T, R>, c: nat)
    requires Next(s, step, s') && TrusteeSteps.ServiceStep(step) && !Planning(step) && !step.Decide?
    requires RegistryOk(s) && RegistryOk(s') && c < |s.clients|
    ensures c < |s'.clients| && Fair(s', c)
  {
    ServingPlace(s, step, s');
    hide Next;
    ServiceSummary(s, step, s');
  }

  lemma ServingPlace<T, R>(s: State<T, R>, step: Step<T, R>, s': State<T, R>)
    requires Next(s, step, s') && TrusteeSteps.ServiceStep(step) && !Planning(step) && !step.Decide?
    ensures s'.progressed || !(s'.trustee.Visiting? || s'.trustee.LoadedReq? || s'.trustee.LoadedBoth?)
  {
    hide Apply, NextStart, NoHandles, MaySend;
  }

  /** If client c's request is open, no step of the run can make the scan unfair to it. */
  lemma FairStep<T, R>(s: State<T, R>, step: Step<T, R>, s': State<T, R>, c: nat)
    requires Inv(s) && Next(s, step, s') && c < |s.clients| && Fair(s, c) && Open(s.chans[c])
    ensures Inv(s') && c < |s'.clients| && Fair(s', c)
  {
    FiberSteps.NextKeepsInv(s, step, s');
    if !TrusteeSteps.ServiceStep(step) {
      hide Next;
      OtherFair(s, step, s', c);
    } else if step.LoadReq? {
      LoadReqFair(s, s', c);
    } else if step.LoadResp? {
      LoadRespFair(s, s', c);
    } else if step.Decide? {
      DecideFair(s, s', c);
    } else if Planning(step) {
      hide Next;
      PlanningFair(s, step, s', c);
    } else {
      hide Next;
      ServingFair(s, step, s', c);
    }
  }

  // ---- one scan ----------------------------------------------------------------

  /** Steps that finish a visit by serving or dispatching. */
  predicate Progresses<T, R>(step: Step<T, R>)
  {
    step.StoreResponse? || step.SendJob? || step.SpawnFiber?
  }

  /** Within one scan, steps i..j of a run. */
  ghost predicate OneScan<T, R>(states: seq<State<T, R>>, i: nat, j: nat)
  {
    && i <= j < |states|
    && states[i].trustee == Visiting(0) && !states[i].progressed
    && (forall k :: i <= k <= j ==> InScan(states[k].trustee))
    && states[j].trustee == Visiting(|states[j].clients|)
  }

  ghost predicate OpenThroughout<T, R>(states: seq<State<T, R>>, c: nat, i: nat, j: nat)
    requires i <= j < |states|
  {
    forall k :: i <= k <= j ==> c < |states[k].chans| && Open(states[k].chans[c])
  }

  lemma {:induction false} StaysFair<T, R>(v: T, states: seq<State<T, R>>, steps: seq<Step<T, R>>, c: nat, i: nat, j: nat)
    requires Run(v, states, steps) && i <= j < |states| && OpenThroughout(states, c, i, j)
    requires FairTo(states[i], c)
    ensures FairTo(states[j], c)
    decreases j - i
  {
    hide Run, Next, FairTo, Open;
    if i < j {
      RunStep(v, states, steps, j - 1);
      StaysFair(v, states, steps, c, i, j - 1);
      FairToStep(states[j - 1], steps[j - 1], states[j], c);
    }
  }

  ghost predicate FairTo<T, R>(s: State<T, R>, c: nat)
  {
    Inv(s) && c < |s.clients| && Fair(s, c)
  }

  lemma FairToStep<T, R>(s: State<T, R>, step: Step<T, R>, s': State<T, R>, c: nat)
    requires FairTo(s, c) && Next(s, step, s') && c < |s.chans| && Open(s.chans[c])
    ensures FairTo(s', c)
  {
    hide Next;
    FairStep(s, step, s', c);
  }

  lemma ProgressStep<T, R>(s: State<T, R>, step: Step<T, R>, s': State<T, R>)
    requires Next(s, step, s') && !Progresses(step)
    ensures s'.progressed ==> s.progressed
  {
    hide Next;
    if ClientSteps.ClientStep(step) {
      ClientSummary(s, step, s');
    } else if !TrusteeSteps.ServiceStep(step) {
      OtherSummary(s, step, s');
    } else if Planning(step) {
      PlanningProgress(s, step, s');
    } else {
      ExecProgress(s, step, s');
    }
  }

  lemma PlanningProgress<T, R>(s: State<T, R>, step: Step<T, R>, s': State<T, R>)
    requires Next(s, step, s') && Planning(step)
    ensures s'.progressed ==> s.progressed
  {
  }

  lemma ExecProgress<T, R>(s: State<T, R>, step: Step<T, R>, s': State<T, R>)
    requires Next(s, step, s') && TrusteeSteps.ServiceStep(step) && !Planning(step) && !Progresses(step)
    ensures s'.progressed ==> s.progressed
  {
    hide Apply;
  }

  lemma {:induction false} ProgressHasCause<T, R>(v: T, states: seq<State<T, R>>, steps: seq<Step<T, R>>, i: nat, j: nat)
    requires Run(v, states, steps) && i <= j < |states| && !states[i].progressed && states[j].progressed
    ensures exists k :: i <= k < j && Progresses(steps[k])
    decreases j - i
  {
    if !Progresses(steps[j - 1]) {
      hide Run, Next;
      RunStep(v, states, steps, j - 1);
      ProgressStep(states[j - 1], steps[j - 1], states[j]);
      ProgressHasCause(v, states, steps, i, j - 1);
    }
  }

  /** Work conservation: a scan during which some registered client's request is open
      throughout serves or dispatches at least one request. */
  lemma ScanMakesProgress<T, R>(v: T, states: seq<State<T, R>>, steps: seq<Step<T, R>>, c: nat, i: nat, j: nat)
    requires Run(v, states, steps) && OneScan(states, i, j)
    requires c < |states[i].clients| && OpenThroughout(states, c, i, j)
    ensures exists k :: i <= k < j && Progresses(steps[k])
  {
    ReachableInv(v, states, steps, i);
    StaysFair(v, states, steps, c, i, j);
    hide Run, ChansOk, FibersOk, ShutdownOk, OwnersOk, TrusteeOk;
    ProgressHasCause(v, states, steps, i, j);
  }

  // ---- a backlog -----------------------------------------------------------------

  /** The clients whose request nobody has answered or handed to a fiber. */
  ghost function Backlog<T, R>(s: State<T, R>): set<nat>
  {
    set c: nat | c < |s.chans| && Open(s.chans[c])
  }

  lemma ServedStaysOpen<T, R>(step: Step<T, R>, ch: Channel<T, R>, ch': Channel<T, R>)
    requires BitsOk(ch) && ServedAt(step, ch, ch') && Open(ch')
    ensures Open(ch)
  {
  }

  lemma ServiceStaysOpen<T, R>(s: State<T, R>, step: Step<T, R>, s': State<T, R>, c: nat)
    requires ChansOk(s) && Next(s, step, s') && TrusteeSteps.ServiceStep(step) && !Planning(step)
    requires c < |s'.chans| && Open(s'.chans[c])
    ensures c < |s.chans| && Open(s.chans[c])
  {
    hide Next, ServedAt, QuietOk, ClientOk, WorkOk;
    ServiceSummary(s, step, s');
    assert c < |s.chans| && ChanOk(s.chans[c]);
    if VisitedChan(s.trustee) == Some(c) {
      ServedStaysOpen(step, s.chans[c], s'.chans[c]);
    }
  }

  /** Only a client's flag store can open a request. */
  lemma OpenOnlyByStore<T, R>(s: State<T, R>, step: Step<T, R>, s': State<T, R>, c: nat)
    requires ChansOk(s) && FibersOk(s) && Next(s, step, s') && !step.StoreRequest?
    requires c < |s'.chans| && Open(s'.chans[c])
    ensures c < |s.chans| && Open(s.chans[c])
  {
    hide Next;
    if ClientSteps.ClientStep(step) {
      ClientSummary(s, step, s');
      if Registers(step) && c < |s.chans| {
        assert s'.chans[c] == s'.chans[..|s.chans|][c] == s.chans[c];
      }
    } else if Planning(step) {
      PlanningSame(s, step, s');
    } else if TrusteeSteps.ServiceStep(step) {
      ServiceStaysOpen(s, step, s', c);
    } else {
      OtherSummary(s, step, s');
      assert c < |s.chans| && ChanOk(s.chans[c]);
      if step.FiberEffect? || step.FiberComplete? {
        assert FiberOk(s, step.f);
      }
    }
  }

  /** And a visit that progresses closes the one it served. */
  lemma ProgressCloses<T, R>(s: State<T, R>, step: Step<T, R>, s': State<T, R>)
    requires Inv(s) && Next(s, step, s') && Progresses(step)
    ensures s'.trustee.Visiting? && s'.progressed && |s'.chans| == |s.chans|
    ensures VisitedChan(s.trustee).Some?
    ensures var c := VisitedChan(s.trustee).value; c < |s.chans| && Open(s.chans[c]) && !Open(s'.chans[c])
  {
    if step.SendJob? {
      SendNeverFails(s, s');
    }
    hide ChansOk, FibersOk, RegistryOk, ShutdownOk, OwnersOk, NextStart;
  }

  lemma ProgressShrinks<T, R>(s: State<T, R>, step: Step<T, R>, s': State<T, R>)
    requires Inv(s) && Next(s, step, s') && Progresses(step) && Backlog(s') <= Backlog(s)
    ensures |Backlog(s')| < |Backlog(s)| && s'.trustee.Visiting? && s'.progressed
  {
    ProgressCloses(s, step, s');
    var c := VisitedChan(s.trustee).value;
    hide Inv, Next;
    assert c in Backlog(s) && c !in Backlog(s');
    SubsetSize(Backlog(s'), Backlog(s) - {c});
  }

  /** The backlog only loses members unless somebody stores a request flag. */
  lemma BacklogShrinks<T, R>(s: State<T, R>, step: Step<T, R>, s': State<T, R>)
    requires ChansOk(s) && FibersOk(s) && Next(s, step, s') && !step.StoreRequest?
    ensures Backlog(s') <= Backlog(s)
  {
    hide Next, ChansOk, FibersOk;
    forall c: nat | c in Backlog(s')
      ensures c in Backlog(s)
    {
      OpenOnlyByStore(s, step, s', c);
    }
  }

  /** Every open request is registered, and no scan is unfair to it. */
  ghost predicate AllFair<T, R>(s: State<T, R>)
    requires RegistryOk(s)
  {
    forall c: nat :: c in Backlog(s) ==> c < |s.clients| && Fair(s, c)
  }

  predicate ProgressedScan<T, R>(s: State<T, R>)
  {
    InScan(s.trustee) && s.progressed
  }

  /** After k scans, a backlog that began with w requests has lost k of them, one more if
      the current scan has already progressed, or it is gone. */
  ghost predicate OnSchedule<T, R>(s: State<T, R>, k: nat, w: nat)
  {
    Backlog(s) == {} || |Backlog(s)| + k + (if ProgressedScan(s) then 1 else 0) <= w
  }

  lemma FairnessKept<T, R>(s: State<T, R>, step: Step<T, R>, s': State<T, R>)
    requires Inv(s) && Next(s, step, s') && !step.StoreRequest? && AllFair(s)
    ensures Inv(s') && AllFair(s')
  {
    FiberSteps.NextKeepsInv(s, step, s');
    BacklogShrinks(s, step, s');
    hide Next, ChansOk, FibersOk, TrusteeOk, ShutdownOk, OwnersOk, Fair;
    forall c: nat | c in Backlog(s')
      ensures c < |s'.clients| && Fair(s', c)
    {
      FairStep(s, step, s', c);
    }
  }

  /** A scan that ends with a backlog has progressed. */
  lemma EndedScanProgressed<T, R>(s: State<T, R>, s': State<T, R>)
    requires Inv(s) && DoEndScan(s, s') && AllFair(s) && Backlog(s) != {}
    ensures ProgressedScan(s) && !ProgressedScan(s') && Backlog(s') == Backlog(s)
  {
    var c: nat :| c in Backlog(s);
    hide ChansOk, FibersOk, ShutdownOk, OwnersOk, TrusteeOk;
    assert Fair(s, c);
  }

  /** The progress flag of a scan is set only by progress in that scan. */
  lemma FlagHasCause<T, R>(s: State<T, R>, step: Step<T, R>, s': State<T, R>)
    requires Next(s, step, s') && !Progresses(step) && ProgressedScan(s')
    ensures ProgressedScan(s)
  {
    hide Next;
    if !TrusteeSteps.ServiceStep(step) {
      OthersKeepScan(s, step, s');
    } else if Planning(step) {
      PlanningFlag(s, step, s');
    } else {
      ExecFlag(s, step, s');
    }
  }

  lemma PlanningFlag<T, R>(s: State<T, R>, step: Step<T, R>, s': State<T, R>)
    requires Next(s, step, s') && Planning(step) && ProgressedScan(s')
    ensures ProgressedScan(s)
  {
  }

  lemma ExecFlag<T, R>(s: State<T, R>, step: Step<T, R>, s': State<T, R>)
    requires Next(s, step, s') && TrusteeSteps.ServiceStep(step) && !Planning(step) && !Progresses(step)
    requires ProgressedScan(s')
    ensures ProgressedScan(s)
  {
    hide Apply;
  }

  lemma ScheduleKept<T, R>(s: State<T, R>, step: Step<T, R>, s': State<T, R>, k: nat, w: nat)
    requires Inv(s) && Next(s, step, s') && !step.StoreRequest? && AllFair(s) && OnSchedule(s, k, w)
    ensures OnSchedule(s', if step.EndScan? then k + 1 else k, w)
  {
    BacklogShrinks(s, step, s');
    if step.EndScan? {
      hide Inv;
      if Backlog(s) != {} {
        EndedScanProgressed(s, s');
      }
    } else if Progresses(step) {
      ProgressShrinks(s, step, s');
      hide Inv, Next, Backlog;
    } else {
      SubsetSize(Backlog(s'), Backlog(s));
      hide Inv, Next, Backlog;
      if ProgressedScan(s') {
        FlagHasCause(s, step, s');
      }
    }
  }

  ghost function EndScans<T, R>(steps: seq<Step<T, R>>, i: nat, j: nat): nat
    requires i <= j <= |steps|
  {
    if i == j then 0 else EndScans(steps, i, j - 1) + (if steps[j - 1].EndScan? then 1 else 0)
  }

  ghost predicate Quiescent<T, R>(steps: seq<Step<T, R>>, i: nat, j: nat)
    requires i <= j <= |steps|
  {
    forall k :: i <= k < j ==> !steps[k].StoreRequest?
  }

  lemma BacklogStarts<T, R>(s: State<T, R>)
    requires Inv(s) && s.trustee == RoundTop && forall c: nat :: c in Backlog(s) ==> c < |s.clients|
    ensures AllFair(s) && OnSchedule(s, 0, |Backlog(s)|)
  {
    hide ChansOk, FibersOk, TrusteeOk, ShutdownOk, OwnersOk, Backlog;
  }

  lemma {:induction false} BacklogSchedule<T, R>(v: T, states: seq<State<T, R>>, steps: seq<Step<T, R>>, i: nat, j: nat)
    requires Run(v, states, steps) && i <= j < |states| && Quiescent(steps, i, j)
    requires Inv(states[i]) && states[i].trustee == RoundTop
    requires forall c: nat :: c in Backlog(states[i]) ==> c < |states[i].clients|
    ensures Inv(states[j]) && AllFair(states[j])
    ensures OnSchedule(states[j], EndScans(steps, i, j), |Backlog(states[i])|)
    decreases j - i
  {
    hide Run, Next, Inv, AllFair, OnSchedule, Backlog;
    if i == j {
      BacklogStarts(states[i]);
    } else {
      RunStep(v, states, steps, j - 1);
      BacklogSchedule(v, states, steps, i, j - 1);
      FairnessKept(states[j - 1], steps[j - 1], states[j]);
      ScheduleKept(states[j - 1], steps[j - 1], states[j], EndScans(steps, i, j - 1), |Backlog(states[i])|);
    }
  }

  /** The drain bound: from the top of a round, with m open requests, all registered, and
      no new ones stored, every completed scan takes at least one off the backlog, so m
      completed scans leave none. */
  lemma BacklogDrains<T, R>(v: T, states: seq<State<T, R>>, steps: seq<Step<T, R>>, i: nat, j: nat)
    requires Run(v, states, steps) && i <= j < |states| && Quiescent(steps, i, j)
    requires states[i].trustee == RoundTop
    requires forall c: nat :: c in Backlog(states[i]) ==> c < |states[i].clients|
    ensures Backlog(states[j]) == {} || |Backlog(states[j])| + EndScans(steps, i, j) <= |Backlog(states[i])|
    ensures EndScans(steps, i, j) >= |Backlog(states[i])| ==> Backlog(states[j]) == {}
  {
    ReachableInv(v, states, steps, i);
    BacklogSchedule(v, states, steps, i, j);
    hide Run, Inv, AllFair, Backlog;
  }
}
