/** A completed scan of the protocol is a scan of the worker loop, with the words and records
    that the protocol's loads found. */
module LoopRuns {
  import opened Wrappers
  import opened Operations
  import opened Schedule
  import opened Protocol
  import opened Invariant
  import opened Summary
  import opened Refinement
  import opened Scans
  import opened Visits
  import opened ScanRuns
  import Liveness
  import Registration
  import W = Workers
  import ClientSteps
  import TrusteeSteps

  function KindOf<T, R>(record: Option<Request<T, R>>): W.Kind
  {
    if record.None? then W.Call
    else if record.value.Launch? then W.LaunchCall
    else if record.value.IntoInner? || record.value.Terminate? then W.Stop
    else W.Call
  }

  /** What a visit has loaded, known when it decides. */
  function LoadAt<T, R>(s: State<T, R>, step: Step<T, R>): seq<W.Load>
  {
    if step.Decide? && s.trustee.LoadedBoth? && s.trustee.c < |s.chans| then
      [W.Load(s.trustee.w, s.trustee.v, KindOf(s.chans[s.trustee.c].record))]
    else []
  }

  ghost function LoadsIn<T, R>(states: seq<State<T, R>>, steps: seq<Step<T, R>>, i: nat, j: nat): seq<W.Load>
    requires i <= j < |states| && j <= |steps|
    decreases j - i
  {
    if i == j then [] else LoadsIn(states, steps, i, j - 1) + LoadAt(states[j - 1], steps[j - 1])
  }

  function Seen(loads: seq<W.Load>): nat -> W.Load
  {
    (k: nat) => if k < |loads| then loads[k] else W.Load(Word(false, 0), Word(false, 0), W.Call)
  }

  lemma {:induction false} ScanToPrefix(clients: seq<W.ClientPair>, start: nat, loads: seq<W.Load>, more: seq<W.Load>, k: nat)
    requires start < |clients| && k <= |clients| && k <= |loads|
    ensures W.ScanTo(clients, start, Seen(loads + more), k) == W.ScanTo(clients, start, Seen(loads), k)
    decreases k
  {
    if k > 0 {
      ScanToPrefix(clients, start, loads, more, k - 1);
      assert Seen(loads + more)(k - 1) == Seen(loads)(k - 1);
    }
  }

  // ---- where a scan is, in the loop's terms --------------------------------------------------

  /** In the middle of a service: the load that led to it, and the pair as it is now. */
  ghost predicate InMiddle<T, R>(t: Trustee, record: Option<Request<T, R>>, cp: W.ClientPair, l: W.Load, now: W.ClientPair)
  {
    && W.Serves(cp, l)
    && match t
       case Serving(_, _, w, _) => l.req == w && l.kind == KindOf(record) && now == cp.(pending := false)
       case Served(_, _, _) => l.kind.Call? && now == W.Visited(cp, l)
       case Dispatching(_, _, _) => l.kind.LaunchCall? && now == W.Visited(cp, l)
       case Sending(_, _, _, _) => l.kind.LaunchCall? && now == W.Visited(cp, l)
       case _ => false
  }

  predicate Between(t: Trustee)
  {
    t.Visiting? || t.LoadedReq? || t.LoadedBoth?
  }

  /** The channels' pairs are `ps`, but perhaps at c. */
  ghost predicate Agree<T, R>(chans: seq<Channel<T, R>>, ps: seq<W.ClientPair>, c: Option<nat>)
  {
    && |ps| <= |chans|
    && forall d: nat :: d < |ps| && c != Some(d) ==> PairOf(d, chans[d]) == ps[d]
  }

  ghost predicate Serviced<T, R>(s: State<T, R>, p: W.Progress, l: W.Load)
  {
    && VisitedChan(s.trustee).Some?
    && var c := VisitedChan(s.trustee).value;
       && c < |p.clients| && Agree(s.chans, p.clients, Some(c))
       && InMiddle(s.trustee, s.chans[c].record, p.clients[c], l, PairOf(c, s.chans[c]))
  }

  /** Between services the pairs are those of `p`; in the middle of one, `l` was loaded. */
  ghost predicate Holds<T, R>(s: State<T, R>, p: W.Progress, l: Option<W.Load>)
  {
    && |s.clients| == |p.clients|
    && match l
       case None => Between(s.trustee) && Agree(s.chans, p.clients, None)
       case Some(load) => !Between(s.trustee) && Serviced(s, p, load)
  }

  // ---- one step ------------------------------------------------------------------------------

  lemma OtherPair<T, R>(s: State<T, R>, step: Step<T, R>, s': State<T, R>, d: nat)
    requires Next(s, step, s') && !ClientSteps.ClientStep(step) && !TrusteeSteps.ServiceStep(step) && d < |s.chans|
    ensures d < |s'.chans| && PairOf(d, s'.chans[d]) == PairOf(d, s.chans[d])
  {
    hide Apply, MaySend, NoHandles;
  }

  lemma NonServicePair<T, R>(s: State<T, R>, step: Step<T, R>, s': State<T, R>, d: nat)
    requires Next(s, step, s') && !TrusteeSteps.ServiceStep(step) && d < |s.chans|
    ensures d < |s'.chans| && PairOf(d, s'.chans[d]) == PairOf(d, s.chans[d])
  {
    hide Next;
    if ClientSteps.ClientStep(step) {
      ClientSummary(s, step, s');
      if Registers(step) {
        assert s'.chans[d] == s'.chans[..|s.chans|][d] == s.chans[d];
      }
    } else {
      OtherPair(s, step, s', d);
    }
  }

  lemma SamePairs<T, R>(s: State<T, R>, s': State<T, R>, p: W.Progress, l: Option<W.Load>)
    requires Holds(s, p, l) && s'.trustee == s.trustee && s'.clients == s.clients && |s.chans| <= |s'.chans|
    requires forall d: nat :: d < |s.chans| ==> PairOf(d, s'.chans[d]) == PairOf(d, s.chans[d])
    requires s.trustee.Serving? ==> s.trustee.c < |s.chans| && s'.chans[s.trustee.c].record == s.chans[s.trustee.c].record
    ensures Holds(s', p, l)
  {
    hide W.Visited, W.Serves;
  }

  lemma OtherHolds<T, R>(s: State<T, R>, step: Step<T, R>, s': State<T, R>, p: W.Progress, l: Option<W.Load>)
    requires Inv(s) && Next(s, step, s') && !TrusteeSteps.ServiceStep(step) && InScan(s'.trustee)
    requires InScan(s.trustee) && Holds(s, p, l)
    ensures Holds(s', p, l) && s'.trustee == s.trustee
  {
    hide Inv, Next, Holds;
    OthersKeepScan(s, step, s');
    if s.trustee.Serving? {
      Liveness.RecordStays(s, step, s');
    }
    Registration.ChansGrow(s, step, s');
    forall d: nat | d < |s.chans|
      ensures d < |s'.chans| && PairOf(d, s'.chans[d]) == PairOf(d, s.chans[d])
    {
      NonServicePair(s, step, s', d);
    }
    SamePairs(s, s', p, l);
  }

  /** Within a scan these steps only move the trustee. */
  lemma PlanningTrustee<T, R>(s: State<T, R>, step: Step<T, R>, s': State<T, R>)
    requires Next(s, step, s') && Planning(step) && InScan(s.trustee) && InScan(s'.trustee)
    ensures s'.clients == s.clients && Offset(s'.trustee) == Offset(s.trustee)
    ensures Between(s.trustee) ==> Between(s'.trustee)
    ensures !Between(s.trustee) ==> VisitedChan(s'.trustee) == VisitedChan(s.trustee)
    ensures s.trustee.Serving? ==> s'.trustee.Served? && AtRecord(s) && RecordOf(s, s.trustee.c).CallMutRetUnit?
    ensures !Between(s.trustee) && !s.trustee.Serving? ==> s.trustee.Dispatching? && s'.trustee.Sending?
  {
    hide VisitIndex, MaySend, NoHandles;
  }

  lemma PlanningHolds<T, R>(s: State<T, R>, step: Step<T, R>, s': State<T, R>, p: W.Progress, l: Option<W.Load>)
    requires Next(s, step, s') && Planning(step) && InScan(s.trustee) && InScan(s'.trustee) && Holds(s, p, l)
    ensures Holds(s', p, l) && Offset(s'.trustee) == Offset(s.trustee)
  {
    hide Next;
    PlanningSame(s, step, s');
    PlanningTrustee(s, step, s');
  }

  lemma ExecHolds<T, R>(s: State<T, R>, step: Step<T, R>, s': State<T, R>, p: W.Progress, l: Option<W.Load>)
    requires Next(s, step, s') && (step.ExecRepeat? || step.ExecCall? || step.BeginLaunch?) && Holds(s, p, l)
    ensures Holds(s', p, l) && Offset(s'.trustee) == Offset(s.trustee)
  {
    hide Apply, Classify;
  }

  /** The loop's progress after one more visit, at client c. */
  function Advanced(p: W.Progress, c: nat, l: W.Load): W.Progress
    requires c < |p.clients|
  {
    W.Progress(p.clients[c := W.Visited(p.clients[c], l)], p.served + [W.Serves(p.clients[c], l)])
  }

  /** The decision: either the visit is over, or its service begins. */
  lemma DecideHolds<T, R>(s: State<T, R>, s': State<T, R>, p: W.Progress)
    requires DoDecide(s, s') && Holds(s, p, None) && s.trustee.c < |p.clients|
    ensures |LoadAt<T, R>(s, Decide)| == 1
    ensures var l := LoadAt<T, R>(s, Decide)[0];
            if s'.trustee.Visiting? then !W.Serves(p.clients[s.trustee.c], l) && Holds(s', Advanced(p, s.trustee.c, l), None)
            else Holds(s', p, Some(l)) && Offset(s'.trustee) == Offset(s.trustee)
  {
    assert p.clients[s.trustee.c] == PairOf(s.trustee.c, s.chans[s.trustee.c]);
  }

  /** The pairs and clients are as before. */
  ghost predicate PairsSame<T, R>(s: State<T, R>, s': State<T, R>)
  {
    && s'.clients == s.clients && |s'.chans| == |s.chans|
    && forall d :: 0 <= d < |s.chans| ==> PairOf(d, s'.chans[d]) == PairOf(d, s.chans[d])
  }

  lemma AnswerPairs<T, R>(s: State<T, R>, s': State<T, R>)
    requires DoStoreResponse(s, s')
    ensures s.trustee.Served? && PairsSame(s, s')
  {
    hide NextStart;
  }

  lemma SendPairs<T, R>(s: State<T, R>, s': State<T, R>)
    requires DoSendJob(s, s')
    ensures s.trustee.Sending? && PairsSame(s, s')
  {
    hide NextStart;
  }

  lemma SpawnPairs<T, R>(s: State<T, R>, s': State<T, R>)
    requires DoSpawnFiber(s, s')
    ensures s.trustee.Dispatching? && PairsSame(s, s')
  {
    hide NextStart;
  }

  /** Answering and dispatching leave every pair as it is. */
  lemma ClosingPairs<T, R>(s: State<T, R>, step: Step<T, R>, s': State<T, R>)
    requires Next(s, step, s') && Progresses(step)
    ensures (s.trustee.Served? || s.trustee.Dispatching? || s.trustee.Sending?) && PairsSame(s, s')
  {
    hide DoStoreResponse, DoSendJob, DoSpawnFiber, PairsSame;
    match step
    case StoreResponse => AnswerPairs(s, s');
    case SendJob => SendPairs(s, s');
    case SpawnFiber => SpawnPairs(s, s');
  }

  /** The end of a service. */
  lemma ClosingHolds<T, R>(s: State<T, R>, step: Step<T, R>, s': State<T, R>, p: W.Progress, l: W.Load)
    requires Next(s, step, s') && Progresses(step) && s'.trustee.Visiting? && Holds(s, p, Some(l))
    ensures VisitedChan(s.trustee).Some? && VisitedChan(s.trustee).value < |p.clients|
    ensures var c := VisitedChan(s.trustee).value;
            W.Serves(p.clients[c], l) && Holds(s', Advanced(p, c, l), None)
  {
    hide Next, W.Visited, W.Serves;
    ClosingPairs(s, step, s');
  }

  // ---- a whole scan --------------------------------------------------------------------------

  /** The load of the service under way, after k completed visits. */
  function Current(loads: seq<W.Load>, k: nat): Option<W.Load>
  {
    if |loads| == k + 1 then Some(loads[k]) else None
  }

  ghost predicate Scanned<T, R>(s: State<T, R>, pairs: seq<W.ClientPair>, start: nat, served: seq<bool>, loads: seq<W.Load>)
  {
    var k := |served|;
    && start < |pairs| && k <= |pairs| && k <= |loads| <= k + 1
    && var p := W.ScanTo(pairs, start, Seen(loads), k);
       p.served == served && Holds(s, p, Current(loads, k))
  }

  lemma ExecOnly<T, R>(s: State<T, R>, step: Step<T, R>, s': State<T, R>)
    requires Next(s, step, s') && TrusteeSteps.ServiceStep(step) && !Planning(step) && !step.Decide? && !Progresses(step)
    requires InScan(s'.trustee)
    ensures step.ExecRepeat? || step.ExecCall? || step.BeginLaunch?
  {
    hide Apply, MaySend, NoHandles;
  }

  lemma ProgressEndsVisit<T, R>(s: State<T, R>, step: Step<T, R>, s': State<T, R>)
    requires Inv(s) && Next(s, step, s') && Progresses(step)
    ensures s'.trustee.Visiting?
  {
    hide Inv, Next;
    ProgressCloses(s, step, s');
  }

  /** Steps that neither decide nor close a visit. */
  lemma InnerHolds<T, R>(s: State<T, R>, step: Step<T, R>, s': State<T, R>, p: W.Progress, l: Option<W.Load>)
    requires Inv(s) && Next(s, step, s') && InScan(s.trustee) && InScan(s'.trustee)
    requires !step.Decide? && !Progresses(step) && Holds(s, p, l)
    ensures Holds(s', p, l) && Offset(s'.trustee) == Offset(s.trustee)
  {
    hide Inv, Next, Holds;
    if !TrusteeSteps.ServiceStep(step) {
      OtherHolds(s, step, s', p, l);
    } else if Planning(step) {
      PlanningHolds(s, step, s', p, l);
    } else {
      ExecOnly(s, step, s');
      ExecHolds(s, step, s', p, l);
    }
  }

  lemma DecideScanned<T, R>(s: State<T, R>, s': State<T, R>, pairs: seq<W.ClientPair>, start: nat,
                            served: seq<bool>, loads: seq<W.Load>)
    requires Inv(s) && DoDecide(s, s') && InScan(s'.trustee) && OnCourse(s, s.clients, start, served)
    requires Scanned(s, pairs, start, served, loads)
    ensures Scanned(s', pairs, start, served + Completed<T, R>(s, Decide, s'), loads + LoadAt<T, R>(s, Decide))
  {
    hide Inv, DoDecide, W.ScanTo, StartAt, VisitIndex, W.Visited, W.Serves;
    DecideEnds(s, s');
    var k, c := |served|, s.trustee.c;
    VisitPlace(s, start, served);
    var p := W.ScanTo(pairs, start, Seen(loads), k);
    assert Current(loads, k) == None;
    DecideHolds(s, s', p);
    hide Holds;
    var l := LoadAt<T, R>(s, Decide)[0];
    assert LoadAt<T, R>(s, Decide) == [l] && Seen(loads + [l])(k) == l;
    ScanToPrefix(pairs, start, loads, [l], k);
    W.ScanNext(pairs, start, Seen(loads + [l]), k, p);
    assert W.ScanTo(pairs, start, Seen(loads + [l]), k + 1) == Advanced(p, c, l);
  }

  lemma DecideEnds<T, R>(s: State<T, R>, s': State<T, R>)
    requires DoDecide(s, s')
    ensures s.trustee.LoadedBoth?
    ensures if s'.trustee.Visiting? then Offset(s'.trustee) != Offset(s.trustee) else Offset(s'.trustee) == Offset(s.trustee)
  {
    hide Classify;
  }

  lemma ClosingScanned<T, R>(s: State<T, R>, step: Step<T, R>, s': State<T, R>, pairs: seq<W.ClientPair>, start: nat,
                             served: seq<bool>, loads: seq<W.Load>)
    requires Inv(s) && Next(s, step, s') && Progresses(step) && OnCourse(s, s.clients, start, served)
    requires InScan(s.trustee) && InScan(s'.trustee) && Offset(s'.trustee) != Offset(s.trustee)
    requires Scanned(s, pairs, start, served, loads)
    ensures Scanned(s', pairs, start, served + [true], loads)
  {
    hide Inv, Next, W.ScanTo, StartAt, VisitIndex, W.Visited, W.Serves;
    var k := |served|;
    var p := W.ScanTo(pairs, start, Seen(loads), k);
    ProgressEndsVisit(s, step, s');
    NotBetween(s, step, s');
    var l := loads[k];
    ClosingHolds(s, step, s', p, l);
    VisitPlace(s, start, served);
    hide Holds;
    W.ScanNext(pairs, start, Seen(loads), k, p);
    assert W.ScanTo(pairs, start, Seen(loads), k + 1) == Advanced(p, VisitedChan(s.trustee).value, l);
  }

  lemma NotBetween<T, R>(s: State<T, R>, step: Step<T, R>, s': State<T, R>)
    requires Next(s, step, s') && Progresses(step)
    ensures !Between(s.trustee)
  {
    hide NextStart, MaySend, NoHandles;
  }

  lemma ScannedStep<T, R>(s: State<T, R>, step: Step<T, R>, s': State<T, R>, pairs: seq<W.ClientPair>, start: nat,
                          served: seq<bool>, loads: seq<W.Load>)
    requires Inv(s) && Next(s, step, s') && InScan(s.trustee) && InScan(s'.trustee)
    requires OnCourse(s, s.clients, start, served) && Scanned(s, pairs, start, served, loads)
    ensures Scanned(s', pairs, start, served + Completed(s, step, s'), loads + LoadAt(s, step))
  {
    assert step.Decide? ==> DoDecide(s, s');
    hide Inv, Next, DoDecide, Holds, W.ScanTo, OnCourse;
    if step.Decide? {
      DecideScanned(s, s', pairs, start, served, loads);
    } else if Progresses(step) {
      ProgressEndsVisit(s, step, s');
      ProgressMoves(s, step, s');
      assert loads + LoadAt(s, step) == loads;
      ClosingScanned(s, step, s', pairs, start, served, loads);
    } else {
      InnerHolds(s, step, s', W.ScanTo(pairs, start, Seen(loads), |served|), Current(loads, |served|));
      assert loads + LoadAt(s, step) == loads && served + Completed(s, step, s') == served;
    }
  }

  lemma ProgressMoves<T, R>(s: State<T, R>, step: Step<T, R>, s': State<T, R>)
    requires Next(s, step, s') && Progresses(step) && s'.trustee.Visiting?
    ensures Offset(s'.trustee) != Offset(s.trustee)
  {
    hide NextStart, MaySend, NoHandles;
  }

  /** The loop's client pairs of the first m channels. */
  function Pairs<T, R>(chans: seq<Channel<T, R>>, m: nat): (ps: seq<W.ClientPair>)
    requires m <= |chans|
    ensures |ps| == m && forall c :: 0 <= c < m ==> ps[c] == PairOf(c, chans[c])
  {
    if m == 0 then [] else Pairs(chans, m - 1) + [PairOf(m - 1, chans[m - 1])]
  }

  lemma {:induction false} ScanStaysScanned<T, R>(v: T, states: seq<State<T, R>>, steps: seq<Step<T, R>>, i: nat, j: nat)
    requires Run(v, states, steps) && |states| == |steps| + 1 && WithinScan(states, i, j)
    ensures |states[i].clients| <= |states[i].chans|
    ensures states[j].clients == states[i].clients
    ensures Scanned(states[j], Pairs(states[i].chans, |states[i].clients|), states[i].start,
                    ServedIn(states, steps, i, j), LoadsIn(states, steps, i, j))
    decreases j - i
  {
    hide Run, Inv, Next, OnCourse, Scanned;
    ReachableInv(v, states, steps, i);
    StartsScanned(states[i]);
    if i < j {
      ScanStaysScanned(v, states, steps, i, j - 1);
      ScanStaysOnCourse(v, states, steps, i, j - 1);
      ScanStaysOnCourse(v, states, steps, i, j);
      RunStep(v, states, steps, j - 1);
      ReachableInv(v, states, steps, j - 1);
      CourseClients(states[j], states[i].clients, states[i].start, ServedIn(states, steps, i, j));
      ScannedStep(states[j - 1], steps[j - 1], states[j], Pairs(states[i].chans, |states[i].clients|), states[i].start,
                  ServedIn(states, steps, i, j - 1), LoadsIn(states, steps, i, j - 1));
    }
  }

  lemma CourseClients<T, R>(s: State<T, R>, clients: seq<nat>, start: nat, served: seq<bool>)
    requires OnCourse(s, clients, start, served)
    ensures s.clients == clients
  {
  }

  lemma StartsScanned<T, R>(s: State<T, R>)
    requires Inv(s) && s.trustee == Visiting(0)
    ensures |s.clients| <= |s.chans| && Scanned(s, Pairs(s.chans, |s.clients|), s.start, [], [])
  {
    InvHasPlace(s);
    hide Inv;
    W.ScanNone(Pairs(s.chans, |s.clients|), s.start, Seen([]));
  }

  /** Any completed scan of any run, whatever clients and fibers do meanwhile, leaves the
      client pairs, serves, and moves its start as the worker loop's scan of the same pairs
      does on the words and records that the visits found. */
  lemma ScanIsLoopScan<T, R>(v: T, states: seq<State<T, R>>, steps: seq<Step<T, R>>, i: nat, j: nat)
    requires Run(v, states, steps) && |states| == |steps| + 1 && WholeScan(states, i, j)
    ensures var n := |states[i].clients|;
            var served, loads := ServedIn(states, steps, i, j), LoadsIn(states, steps, i, j);
            && 0 < n <= |states[i].chans| && n <= |states[j].chans| && states[i].start < n && |loads| == |served| == n
            && W.ScanTo(Pairs(states[i].chans, n), states[i].start, Seen(loads), n)
               == W.Progress(Pairs(states[j].chans, n), served)
            && states[j].start == StartAt(states[i].start, served, n, n)
  {
    hide Run, W.ScanTo, StartAt;
    ScanStaysScanned(v, states, steps, i, j);
    ScanStaysOnCourse(v, states, steps, i, j);
    var n, served, loads := |states[i].clients|, ServedIn(states, steps, i, j), LoadsIn(states, steps, i, j);
    var p := W.ScanTo(Pairs(states[i].chans, n), states[i].start, Seen(loads), n);
    assert Holds(states[j], p, Current(loads, n));
    assert p.clients == Pairs(states[j].chans, n);
  }
}
