/** Whole scans in runs of the protocol: which clients they visit, and that together with the
    words they load they are scans of the worker loop. */
module ScanRuns {
  import opened Schedule
  import opened Protocol
  import opened Invariant
  import opened Summary
  import opened Refinement
  import opened Scans
  import opened Visits
  import TrusteeSteps
  import Workers

  // ---- the clients visited ---------------------------------------------------------------

  /** The client whose request word a step loads. */
  function Visiting1<T, R>(step: Step<T, R>, s': State<T, R>): seq<nat>
  {
    if step.LoadReq? && VisitedChan(s'.trustee).Some? then [VisitedChan(s'.trustee).value] else []
  }

  /** The clients visited by steps i..j of a run, in order. */
  ghost function VisitedIn<T, R>(states: seq<State<T, R>>, steps: seq<Step<T, R>>, i: nat, j: nat): seq<nat>
    requires i <= j < |states| && j <= |steps|
    decreases j - i
  {
    if i == j then [] else VisitedIn(states, steps, i, j - 1) + Visiting1(steps[j - 1], states[j])
  }

  /** A visit begins with the load of the request word and ends with the offset's move. */
  ghost predicate ChanMoves<T, R>(s: State<T, R>, step: Step<T, R>, s': State<T, R>)
  {
    var c, c' := VisitedChan(s.trustee), VisitedChan(s'.trustee);
    if step.LoadReq? then c.None? && c'.Some? && Offset(s'.trustee) == Offset(s.trustee)
    else if Offset(s'.trustee) != Offset(s.trustee) then c.Some? && c'.None?
    else c' == c
  }

  lemma PlanningChan<T, R>(s: State<T, R>, step: Step<T, R>, s': State<T, R>)
    requires Next(s, step, s') && Planning(step) && InScan(s.trustee) && InScan(s'.trustee)
    ensures ChanMoves(s, step, s')
  {
    hide VisitIndex, MaySend, NoHandles;
  }

  lemma ServingChan<T, R>(s: State<T, R>, step: Step<T, R>, s': State<T, R>)
    requires Next(s, step, s') && TrusteeSteps.ServiceStep(step) && !Planning(step) && !Progresses(step)
    requires InScan(s.trustee) && InScan(s'.trustee)
    ensures ChanMoves(s, step, s')
  {
    hide Classify, NextStart, MaySend, NoHandles;
  }

  lemma ClosingChan<T, R>(s: State<T, R>, step: Step<T, R>, s': State<T, R>)
    requires Next(s, step, s') && Progresses(step) && InScan(s.trustee) && InScan(s'.trustee)
    ensures ChanMoves(s, step, s')
  {
    hide NextStart, MaySend, NoHandles;
  }

  lemma StepChan<T, R>(s: State<T, R>, step: Step<T, R>, s': State<T, R>)
    requires Next(s, step, s') && InScan(s.trustee) && InScan(s'.trustee)
    ensures ChanMoves(s, step, s')
  {
    hide Next;
    if !TrusteeSteps.ServiceStep(step) {
      OthersKeepScan(s, step, s');
    } else if Planning(step) {
      PlanningChan(s, step, s');
    } else if Progresses(step) {
      ClosingChan(s, step, s');
    } else {
      ServingChan(s, step, s');
    }
  }

  /** The visits so far, the one under way included, are those of the schedule. */
  ghost predicate OnOrder<T, R>(s: State<T, R>, clients: seq<nat>, start: nat, served: seq<bool>, visited: seq<nat>)
  {
    && start < |clients| && |served| <= |clients|
    && |visited| == (if VisitedChan(s.trustee).Some? then |served| + 1 else |served|) <= |clients|
    && forall m: nat :: m < |visited| ==> visited[m] == VisitIndex(StartAt(start, served, |clients|, m), m, |clients|)
  }

  /** Where the visit under way is, in the scan's own terms. */
  lemma VisitPlace<T, R>(s: State<T, R>, start: nat, served: seq<bool>)
    requires Inv(s) && OnCourse(s, s.clients, start, served) && VisitedChan(s.trustee).Some?
    ensures |served| < |s.clients| && start < |s.clients| && VisitedChan(s.trustee).value < |s.clients|
    ensures VisitedChan(s.trustee).value == VisitIndex(StartAt(start, served, |s.clients|, |served|), |served|, |s.clients|)
  {
    InvHasPlace(s);
    hide Inv, RegistryOk, StartAt;
  }

  /** One more visit completed moves no earlier one. */
  lemma OrderKept(clients: seq<nat>, start: nat, served: seq<bool>, more: seq<bool>, visited: seq<nat>, m: nat)
    requires start < |clients| && m <= |served| && m < |visited| && m < |clients|
    requires visited[m] == VisitIndex(StartAt(start, served, |clients|, m), m, |clients|)
    ensures visited[m] == VisitIndex(StartAt(start, served + more, |clients|, m), m, |clients|)
  {
    hide VisitIndex, StartAt;
    Workers.StartAtPrefix(start, served, more, |clients|, m);
  }

  lemma OrderStep<T, R>(s: State<T, R>, step: Step<T, R>, s': State<T, R>, clients: seq<nat>, start: nat,
                        served: seq<bool>, visited: seq<nat>)
    requires Inv(s') && Next(s, step, s') && InScan(s.trustee) && InScan(s'.trustee)
    requires OnCourse(s, clients, start, served) && OnOrder(s, clients, start, served, visited)
    requires OnCourse(s', clients, start, served + Completed(s, step, s'))
    ensures OnOrder(s', clients, start, served + Completed(s, step, s'), visited + Visiting1(step, s'))
  {
    hide Inv, Next, VisitIndex, StartAt, Progresses;
    StepChan(s, step, s');
    if step.LoadReq? {
      assert served + Completed(s, step, s') == served;
      VisitPlace(s', start, served);
    } else {
      assert visited + Visiting1(step, s') == visited;
      forall m: nat | m < |visited|
        ensures visited[m] == VisitIndex(StartAt(start, served + Completed(s, step, s'), |clients|, m), m, |clients|)
      {
        OrderKept(clients, start, served, Completed(s, step, s'), visited, m);
      }
    }
  }

  lemma {:induction false} ScanStaysOnOrder<T, R>(v: T, states: seq<State<T, R>>, steps: seq<Step<T, R>>, i: nat, j: nat)
    requires Run(v, states, steps) && |states| == |steps| + 1 && WithinScan(states, i, j)
    ensures OnCourse(states[j], states[i].clients, states[i].start, ServedIn(states, steps, i, j))
    ensures OnOrder(states[j], states[i].clients, states[i].start, ServedIn(states, steps, i, j), VisitedIn(states, steps, i, j))
    decreases j - i
  {
    hide Run, Inv, Next, OnCourse;
    ScanStaysOnCourse(v, states, steps, i, j);
    if i < j {
      hide OnOrder;
      ScanStaysOnOrder(v, states, steps, i, j - 1);
      RunStep(v, states, steps, j - 1);
      ReachableInv(v, states, steps, j);
      OrderStep(states[j - 1], steps[j - 1], states[j], states[i].clients, states[i].start,
                ServedIn(states, steps, i, j - 1), VisitedIn(states, steps, i, j - 1));
    } else {
      StartsOnOrder(states[i]);
    }
  }

  lemma StartsOnOrder<T, R>(s: State<T, R>)
    requires s.trustee == Visiting(0) && OnCourse(s, s.clients, s.start, [])
    ensures OnOrder(s, s.clients, s.start, [], [])
  {
  }

  /** A scan from `i` that has reached its end at `j`. */
  ghost predicate WholeScan<T, R>(states: seq<State<T, R>>, i: nat, j: nat)
  {
    WithinScan(states, i, j) && states[j].trustee == Visiting(|states[i].clients|)
  }

  /** In any run, a completed scan visits every registered client if and only if none of its
      visits but the last one served or dispatched, that is, if `start_idx` was not stored
      before the last visit. */
  lemma ScanIsFairInRun<T, R>(v: T, states: seq<State<T, R>>, steps: seq<Step<T, R>>, i: nat, j: nat)
    requires Run(v, states, steps) && |states| == |steps| + 1 && WholeScan(states, i, j)
    ensures var n, served := |states[i].clients|, ServedIn(states, steps, i, j);
            && |served| == n
            && ((forall c: nat :: c < n ==> c in VisitedIn(states, steps, i, j))
                <==> forall k :: 0 <= k < n - 1 ==> !served[k])
  {
    hide Run;
    ScanStaysOnOrder(v, states, steps, i, j);
    var n, start, served := |states[i].clients|, states[i].start, ServedIn(states, steps, i, j);
    assert VisitedIn(states, steps, i, j) == VisitOrder(start, served, n, n);
    ScanIsFairExactly(start, served, n);
  }
}
