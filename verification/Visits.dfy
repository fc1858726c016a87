/** The worker loop and the protocol agree: in any run, a scan visits the clients the
    schedule says, and a visit leaves a client's launch flags as the worker loop does. */
module Visits {
  import opened Wrappers
  import opened Operations
  import opened Schedule
  import opened Protocol
  import opened Invariant
  import opened Summary
  import opened Refinement
  import opened Scans
  import Workers
  import ClientSteps
  import TrusteeSteps
  import Handshake

  /** The visit a step completes, if it does: whether it served. */
  function Completed<T, R>(s: State<T, R>, step: Step<T, R>, s': State<T, R>): seq<bool>
  {
    if Offset(s.trustee) != Offset(s'.trustee) then [Progresses(step)] else []
  }

  ghost predicate WithinScan<T, R>(states: seq<State<T, R>>, i: nat, j: nat)
  {
    && i <= j < |states|
    && states[i].trustee == Visiting(0)
    && (forall k :: i <= k <= j ==> InScan(states[k].trustee))
  }

  /** The visits completed by steps i..j of a run. */
  ghost function ServedIn<T, R>(states: seq<State<T, R>>, steps: seq<Step<T, R>>, i: nat, j: nat): seq<bool>
    requires i <= j < |states| && j <= |steps|
    decreases j - i
  {
    if i == j then []
    else ServedIn(states, steps, i, j - 1) + Completed(states[j - 1], steps[j - 1], states[j])
  }

  /** Within a scan of the clients, the offset moves by one, and the start with it if the
      visit served. */
  ghost predicate Moves<T, R>(s: State<T, R>, step: Step<T, R>, s': State<T, R>)
    requires InScan(s.trustee) && InScan(s'.trustee)
  {
    var k, k', n := Offset(s.trustee).value, Offset(s'.trustee).value, |s.clients|;
    && s'.clients == s.clients && s.start < n
    && (k' == k || (k' == k + 1 && k < n))
    && s'.start == if k' != k && Progresses(step) then NextStart(VisitIndex(s.start, k, n), n) else s.start
  }

  lemma PlanningMoves<T, R>(s: State<T, R>, step: Step<T, R>, s': State<T, R>)
    requires Inv(s) && Next(s, step, s') && Planning(step) && InScan(s.trustee) && InScan(s'.trustee)
    ensures Moves(s, step, s')
  {
    hide ChansOk, FibersOk, ShutdownOk, OwnersOk;
  }

  /** Serving steps that are not the last of a visit. */
  lemma ServingMoves<T, R>(s: State<T, R>, step: Step<T, R>, s': State<T, R>)
    requires RegistryOk(s) && PlaceOk(s) && Next(s, step, s') && TrusteeSteps.ServiceStep(step) && !Planning(step)
    requires !step.Decide? && !Progresses(step) && InScan(s.trustee) && InScan(s'.trustee)
    ensures Moves(s, step, s')
  {
    hide Apply, VisitIndex;
  }

  lemma DecideMoves<T, R>(s: State<T, R>, s': State<T, R>)
    requires RegistryOk(s) && PlaceOk(s) && DoDecide(s, s') && InScan(s'.trustee)
    ensures InScan(s.trustee) && Moves<T, R>(s, Decide, s')
  {
    hide NextStart, Classify, VisitIndex;
  }

  lemma ClosingMoves<T, R>(s: State<T, R>, step: Step<T, R>, s': State<T, R>)
    requires RegistryOk(s) && PlaceOk(s) && Next(s, step, s') && Progresses(step)
    requires InScan(s.trustee) && InScan(s'.trustee)
    ensures Moves(s, step, s')
  {
    hide NextStart, Apply, VisitIndex, MaySend, NoHandles;
  }

  lemma StepMoves<T, R>(s: State<T, R>, step: Step<T, R>, s': State<T, R>)
    requires Inv(s) && Next(s, step, s') && InScan(s.trustee) && InScan(s'.trustee)
    ensures Moves(s, step, s')
  {
    InvHasPlace(s);
    assert step.Decide? ==> DoDecide(s, s');
    hide Inv, Next, NextStart, VisitIndex;
    if !TrusteeSteps.ServiceStep(step) {
      OthersKeepScan(s, step, s');
    } else if Planning(step) {
      PlanningMoves(s, step, s');
    } else if step.Decide? {
      DecideMoves(s, s');
    } else if Progresses(step) {
      ClosingMoves(s, step, s');
    } else {
      ServingMoves(s, step, s');
    }
  }

  /** A scan of `clients` that began at `start` and completed the visits `served`. */
  ghost predicate OnCourse<T, R>(s: State<T, R>, clients: seq<nat>, start: nat, served: seq<bool>)
  {
    var n, k := |clients|, |served|;
    && s.clients == clients && Offset(s.trustee) == Some(k)
    && k <= n && start < n && s.start == StartAt(start, served, n, k)
  }

  lemma CourseStep<T, R>(s: State<T, R>, step: Step<T, R>, s': State<T, R>, clients: seq<nat>, start: nat, served: seq<bool>)
    requires Inv(s) && Next(s, step, s') && OnCourse(s, clients, start, served) && InScan(s'.trustee)
    ensures OnCourse(s', clients, start, served + Completed(s, step, s'))
  {
    hide Inv, Next, StartAt, NextStart, VisitIndex, Progresses;
    StepMoves(s, step, s');
    if Offset(s'.trustee) != Offset(s.trustee) {
      Workers.StartAtNext(start, served, Progresses(step), |clients|);
    } else {
      assert served + Completed(s, step, s') == served;
    }
  }

  lemma {:induction false} ScanStaysOnCourse<T, R>(v: T, states: seq<State<T, R>>, steps: seq<Step<T, R>>, i: nat, j: nat)
    requires Run(v, states, steps) && WithinScan(states, i, j)
    ensures OnCourse(states[j], states[i].clients, states[i].start, ServedIn(states, steps, i, j))
    decreases j - i
  {
    hide Run, Inv, Next;
    if i < j {
      RunStep(v, states, steps, j - 1);
      ScanStaysOnCourse(v, states, steps, i, j - 1);
      ReachableInv(v, states, steps, j - 1);
      hide OnCourse;
      CourseStep(states[j - 1], steps[j - 1], states[j], states[i].clients, states[i].start, ServedIn(states, steps, i, j - 1));
    } else {
      ReachableInv(v, states, steps, i);
      InvHasPlace(states[i]);
    }
  }

  lemma OnCourseVisit<T, R>(s: State<T, R>, clients: seq<nat>, start: nat, served: seq<bool>)
    requires Inv(s) && OnCourse(s, clients, start, served) && VisitedChan(s.trustee).Some?
    ensures |served| < |clients|
    ensures VisitedChan(s.trustee).value == (start + |served| + Shift(served, |served|)) % |clients|
  {
    InvHasPlace(s);
    hide Inv, NextStart, VisitIndex, StartAt, Shift, RegistryOk;
    VisitFormula(start, served, |clients|, |served|);
  }

  /** In any run, however clients and fibers interleave, a scan that has completed k visits
      has moved its start as scheduled, and its next visit goes to the start plus k plus
      the shifts of the visits that served. */
  lemma ScanFollowsSchedule<T, R>(v: T, states: seq<State<T, R>>, steps: seq<Step<T, R>>, i: nat, j: nat)
    requires Run(v, states, steps) && WithinScan(states, i, j)
    ensures var n, start, served := |states[i].clients|, states[i].start, ServedIn(states, steps, i, j);
            && OnCourse(states[j], states[i].clients, start, served)
            && (VisitedChan(states[j].trustee).Some? ==>
                  |served| < n && VisitedChan(states[j].trustee).value == (start + |served| + Shift(served, |served|)) % n)
  {
    hide Run, Inv, OnCourse, VisitedChan, ServedIn;
    RunLength(v, states, steps);
    ScanStaysOnCourse(v, states, steps, i, j);
    ReachableInv(v, states, steps, j);
    if VisitedChan(states[j].trustee).Some? {
      OnCourseVisit(states[j], states[i].clients, states[i].start, ServedIn(states, steps, i, j));
    }
  }

  // ---- one visit -------------------------------------------------------------------

  function PairOf<T, R>(c: nat, ch: Channel<T, R>): Workers.ClientPair
  {
    Workers.ClientPair(c, ch.pending, ch.launchReady)
  }

  /** The protocol's decision is the worker loop's visit. */
  lemma DecideIsVisit<T, R>(s: State<T, R>, s': State<T, R>)
    requires DoDecide(s, s')
    ensures var t := s.trustee;
            var cp, l := PairOf(t.c, s.chans[t.c]), Workers.Load(t.w, t.v, Workers.Call);
            && PairOf(t.c, s'.chans[t.c]) == Workers.Visited(cp, l)
            && (s'.trustee.Serving? <==> Workers.Serves(cp, l))
  {
  }

  /** And when it leads to a launch, the worker loop's visit of a launch. */
  lemma LaunchIsVisit<T, R>(s: State<T, R>, s': State<T, R>, cp: Workers.ClientPair, l: Workers.Load)
    requires DoBeginLaunch(s, s') && cp.chan == s.trustee.c
    requires l.kind.LaunchCall? && l.req == s.trustee.w && Workers.Serves(cp, l)
    ensures PairOf(cp.chan, s'.chans[cp.chan]) == Workers.Visited(cp, l)
  {
  }

  // ---- no request is passed over ------------------------------------------------------

  /** The visit under way has loaded, of channel c, what makes it serve. */
  ghost predicate Committed<T, R>(s: State<T, R>, c: nat)
  {
    && c < |s.chans| && Open(s.chans[c])
    && match s.trustee
       case LoadedReq(_, d, w) => d == c && w == s.chans[c].req
       case LoadedBoth(_, d, w, v) =>
         d == c && Classify(s.chans[c].pending, s.chans[c].launchReady, w.ready, v.ready) == Serve
       case _ => false
  }

  lemma OtherCommitted<T, R>(s: State<T, R>, step: Step<T, R>, s': State<T, R>, c: nat)
    requires Inv(s) && Next(s, step, s') && Committed(s, c) && !TrusteeSteps.ServiceStep(step)
    ensures Committed(s', c)
  {
    OpenIsStable(s, step, s', c);
    OthersKeepScan(s, step, s');
    OpenStaysOpen(s, step, s', c);
    hide Inv, Next, Classify;
  }

  /** Nobody but the trustee closes an open request. */
  lemma OpenStaysOpen<T, R>(s: State<T, R>, step: Step<T, R>, s': State<T, R>, c: nat)
    requires ChansOk(s) && FibersOk(s) && Next(s, step, s') && !TrusteeSteps.ServiceStep(step)
    requires c < |s.chans| && Open(s.chans[c])
    ensures c < |s'.chans| && Open(s'.chans[c])
  {
    assert ChanOk(s.chans[c]);
    hide Next, ChansOk;
    if ClientSteps.ClientStep(step) {
      ClientSummary(s, step, s');
      if Registers(step) {
        assert s'.chans[c] == s'.chans[..|s.chans|][c] == s.chans[c];
      }
    } else {
      OtherSummary(s, step, s');
      if step.FiberEffect? || step.FiberComplete? {
        assert FiberOk(s, step.f);
      }
    }
  }

  lemma LoadRespCommitted<T, R>(s: State<T, R>, s': State<T, R>, c: nat)
    requires Inv(s) && DoLoadResp(s, s') && Committed(s, c)
    ensures Committed(s', c)
  {
    assert ChanOk(s.chans[c]) && QuietOk(s.chans[c]);
    Handshake.OpenRequestIsServed(s.chans[c]);
    hide Inv, ChanOk, QuietOk, Classify;
  }

  lemma CommittedStep<T, R>(s: State<T, R>, step: Step<T, R>, s': State<T, R>, c: nat)
    requires Inv(s) && Next(s, step, s') && Committed(s, c) && !step.Decide?
    ensures Committed(s', c)
  {
    if !TrusteeSteps.ServiceStep(step) {
      hide Next;
      OtherCommitted(s, step, s', c);
    } else {
      hide Inv, Next, Classify;
      OnlyLoadResp(s, step, s');
      LoadRespCommitted(s, s', c);
    }
  }

  lemma OnlyLoadResp<T, R>(s: State<T, R>, step: Step<T, R>, s': State<T, R>)
    requires Next(s, step, s') && TrusteeSteps.ServiceStep(step) && !step.Decide?
    requires s.trustee.LoadedReq? || s.trustee.LoadedBoth?
    ensures DoLoadResp(s, s')
  {
    if !Planning(step) {
      hide Next;
      ServiceSummary(s, step, s');
    } else {
      hide Apply, MaySend, NoHandles, NextStart, Classify;
    }
  }

  lemma {:induction false} StaysCommitted<T, R>(v: T, states: seq<State<T, R>>, steps: seq<Step<T, R>>, c: nat, i: nat, j: nat)
    requires Run(v, states, steps) && i <= j < |states| && |states| == |steps| + 1
    requires Committed(states[i], c) && forall k :: i <= k < j ==> !steps[k].Decide?
    ensures Committed(states[j], c)
    decreases j - i
  {
    hide Run, Inv, Next, Committed;
    if i < j {
      StaysCommitted(v, states, steps, c, i, j - 1);
      ReachableInv(v, states, steps, j - 1);
      RunStep(v, states, steps, j - 1);
      CommittedStep(states[j - 1], steps[j - 1], states[j], c);
    }
  }

  /** A request that is open when its visit loads the request word is served by that visit,
      whatever launch went before it on the channel and whatever clients and fibers do
      between the two loads and the decision. */
  lemma OpenIsServedByItsVisit<T, R>(v: T, states: seq<State<T, R>>, steps: seq<Step<T, R>>, c: nat, i: nat, j: nat)
    requires Run(v, states, steps) && i < j < |steps|
    requires steps[i].LoadReq? && steps[j].Decide? && forall k :: i < k < j ==> !steps[k].Decide?
    requires VisitedChan(states[i + 1].trustee) == Some(c) && c < |states[i].chans| && Open(states[i].chans[c])
    ensures states[j + 1].trustee.Serving? && states[j + 1].trustee.c == c
  {
    RunStep(v, states, steps, i);
    assert Committed(states[i + 1], c);
    RunStep(v, states, steps, j);
    hide Run, Next, Inv;
    StaysCommitted(v, states, steps, c, i + 1, j);
  }
}
