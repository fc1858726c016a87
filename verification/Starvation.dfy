/** Per-client fairness fails for ever: two busy clients keep a third from being visited, in
    any number of scans. */
module Starvation {
  import opened Wrappers
  import opened Operations
  import opened Schedule
  import opened Protocol
  import opened Invariant
  import opened Refinement
  import opened Scans
  import opened Exits

  /** In the schedule: if the first two of three clients' visits serve, client 1 is not
      visited and the next scan starts where this one did, whatever the third visit does. */
  lemma BusyPairRepeats(last: bool)
    ensures VisitOrder(0, [true, true, last], 3, 3) == [0, 2, 2]
    ensures StartAt(0, [true, true, last], 3, 3) == 0
  {
    var served := [true, true, last];
    assert StartAt(0, served, 3, 1) == 1;
    assert StartAt(0, served, 3, 2) == 0;
  }

  // ---- a run in which client 1 is overlooked ----------------------------------------------

  /** Three clients, and client 1 is waiting to be served. */
  predicate Undisturbed<T, R>(s: State<T, R>)
  {
    s.clients == [0, 1, 2] && |s.chans| == 3 && Open(s.chans[1])
  }

  /** From state i on, client 1 is registered, its request is open, and no visit goes to it. */
  ghost predicate Overlooked<T, R>(states: seq<State<T, R>>, steps: seq<Step<T, R>>, i: nat)
  {
    && |states| == |steps| + 1 && i < |states|
    && (forall k :: i <= k < |states| ==> Undisturbed(states[k]))
    && (forall k :: i <= k < |steps| && steps[k].LoadReq? ==> VisitedChan(states[k + 1].trustee) in {Some(0), Some(2)})
  }

  lemma {:induction false} EndScansPrefix<T, R>(steps: seq<Step<T, R>>, step: Step<T, R>, i: nat, j: nat)
    requires i <= j <= |steps|
    ensures EndScans(steps + [step], i, j) == EndScans(steps, i, j)
    decreases j
  {
    if i < j {
      EndScansPrefix(steps, step, i, j - 1);
    }
  }

  /** One more step that does not touch client 1. */
  lemma Extend<T, R>(v: T, states: seq<State<T, R>>, steps: seq<Step<T, R>>, i: nat, step: Step<T, R>, s': State<T, R>)
    returns (states': seq<State<T, R>>, steps': seq<Step<T, R>>)
    requires Run(v, states, steps) && Overlooked(states, steps, i) && Next(states[|steps|], step, s')
    requires Undisturbed(s') && (step.LoadReq? ==> VisitedChan(s'.trustee) in {Some(0), Some(2)})
    ensures Run(v, states', steps') && Overlooked(states', steps', i) && states'[|steps'|] == s'
    ensures EndScans(steps', i, |steps'|) == EndScans(steps, i, |steps|) + (if step.EndScan? then 1 else 0)
  {
    hide Run, Next;
    states', steps' := Append(v, states, steps, step, s');
    EndScansPrefix(steps, step, i, |steps|);
  }

  /** A client that waits for the answer to a call the trustee has not served yet. */
  predicate Asking<T, R>(ch: Channel<T, R>)
  {
    && ch.kind == Handle && ch.alive && ch.pc.Waiting? && Open(ch) && !ch.pending
    && ch.record.Some? && ch.record.value.CallMutOutPtr?
  }

  /** And one whose call has been answered, and that has not noticed yet. */
  predicate Told<T, R>(ch: Channel<T, R>)
  {
    && ch.kind == Handle && ch.alive && ch.pc.Waiting? && ch.sent == ch.answered && !ch.pending
    && ch.record.Some? && ch.record.value.CallMutOutPtr? && ch.fiber.None?
  }

  /** The next visit is to client c. */
  predicate NextIs<T, R>(s: State<T, R>, offs: nat, c: nat)
  {
    s.trustee == Visiting(offs) && offs < 3 && s.start < 3 && VisitIndex(s.start, offs, 3) == c
  }

  function Answered<T, R>(ch: Channel<T, R>, v: T): Channel<T, R>
    requires ch.record.Some?
  {
    ch.(data := Apply(ch.record.value, v).1, left := 0, resp := Word(ch.req.ready, 1), answered := ch.answered + 1)
  }

  // ---- a visit to a busy client --------------------------------------------------------------

  function LoadedOne<T, R>(s: State<T, R>, offs: nat, c: nat): State<T, R>
    requires c < |s.chans|
  {
    s.(trustee := LoadedReq(offs, c, s.chans[c].req))
  }

  function LoadedTwo<T, R>(s: State<T, R>, offs: nat, c: nat): State<T, R>
    requires c < |s.chans|
  {
    s.(trustee := LoadedBoth(offs, c, s.chans[c].req, s.chans[c].resp))
  }

  function Decided<T, R>(s: State<T, R>, offs: nat, c: nat): State<T, R>
    requires c < |s.chans|
  {
    s.(trustee := Serving(offs, c, s.chans[c].req, 0))
  }

  function Executed<T, R>(s: State<T, R>, offs: nat, c: nat): State<T, R>
    requires c < |s.chans| && s.chans[c].record.Some?
  {
    Put(s, c, s.chans[c].(data := Apply(s.chans[c].record.value, s.value).1, left := 0))
      .(value := Apply(s.chans[c].record.value, s.value).0, trustee := Trustee.Served(offs, c, s.chans[c].req))
  }

  function Served<T, R>(s: State<T, R>, offs: nat, c: nat): State<T, R>
    requires c < |s.chans| && s.chans[c].record.Some?
  {
    Put(s, c, Answered(s.chans[c], s.value))
      .(value := Apply(s.chans[c].record.value, s.value).0, progressed := true,
        start := NextStart(c, 3), trustee := Visiting(offs + 1))
  }

  lemma AskingWords<T, R>(s: State<T, R>, c: nat)
    requires Inv(s) && c < |s.chans| && Asking(s.chans[c])
    ensures s.chans[c].req.count == 1 && s.chans[c].req.ready != s.chans[c].resp.ready
  {
    assert ChanOk(s.chans[c]);
  }

  lemma Loads<T, R>(s: State<T, R>, offs: nat, c: nat)
    requires Undisturbed(s) && NextIs(s, offs, c) && c < 3
    ensures Next(s, LoadReq, LoadedOne(s, offs, c)) && Next(LoadedOne(s, offs, c), LoadResp, LoadedTwo(s, offs, c))
  {
  }

  lemma Decides<T, R>(s: State<T, R>, offs: nat, c: nat)
    requires Undisturbed(s) && c < 3 && !s.chans[c].pending && s.chans[c].req.ready != s.chans[c].resp.ready
    ensures Next(LoadedTwo(s, offs, c), Decide, Decided(s, offs, c))
  {
    var s2: State<T, R> := LoadedTwo(s, offs, c);
    assert Put(s2, c, s2.chans[c].(pending := false)) == s2;
  }

  lemma Serves<T, R>(s: State<T, R>, offs: nat, c: nat)
    requires Undisturbed(s) && c < 3 && Asking(s.chans[c]) && s.chans[c].req.count == 1
    ensures Next(Decided(s, offs, c), ExecCall, Executed(s, offs, c))
    ensures Next(Executed(s, offs, c), StoreResponse, Served(s, offs, c))
  {
    hide Apply, NextStart;
  }

  lemma StagesUndisturbed<T, R>(s: State<T, R>, offs: nat, c: nat)
    requires Undisturbed(s) && c in {0, 2} && s.chans[c].record.Some?
    ensures Undisturbed(LoadedOne(s, offs, c)) && VisitedChan(LoadedOne(s, offs, c).trustee) == Some(c)
    ensures Undisturbed(LoadedTwo(s, offs, c)) && Undisturbed(Decided(s, offs, c))
    ensures Undisturbed(Executed(s, offs, c)) && Undisturbed(Served(s, offs, c))
  {
    hide Apply, NextStart;
  }

  lemma BusyVisit<T, R>(v: T, states: seq<State<T, R>>, steps: seq<Step<T, R>>, i: nat, offs: nat, c: nat)
    returns (states': seq<State<T, R>>, steps': seq<Step<T, R>>)
    requires Run(v, states, steps) && Overlooked(states, steps, i) && c in {0, 2}
    requires NextIs(states[|steps|], offs, c) && c < |states[|steps|].chans| && Asking(states[|steps|].chans[c])
    ensures Run(v, states', steps') && Overlooked(states', steps', i)
    ensures states'[|steps'|] == Served(states[|steps|], offs, c)
    ensures EndScans(steps', i, |steps'|) == EndScans(steps, i, |steps|)
  {
    hide Run, Next, Inv, EndScans, LoadedOne, LoadedTwo, Decided, Executed, Served, Undisturbed;
    var s := states[|steps|];
    assert Undisturbed(s);
    ReachableInv(v, states, steps, |steps|);
    AskingWords(s, c);
    Loads(s, offs, c);
    Decides(s, offs, c);
    Serves(s, offs, c);
    StagesUndisturbed(s, offs, c);
    hide Overlooked;
    states', steps' := Extend(v, states, steps, i, LoadReq, LoadedOne(s, offs, c));
    states', steps' := Extend(v, states', steps', i, LoadResp, LoadedTwo(s, offs, c));
    states', steps' := Extend(v, states', steps', i, Decide, Decided(s, offs, c));
    states', steps' := Extend(v, states', steps', i, ExecCall, Executed(s, offs, c));
    states', steps' := Extend(v, states', steps', i, StoreResponse, Served(s, offs, c));
  }

  // ---- a visit to a client that has been answered, and the next round ------------------------

  lemma Settles<T, R>(s: State<T, R>, offs: nat, c: nat)
    requires Undisturbed(s) && c < 3 && !s.chans[c].pending && s.chans[c].req.ready == s.chans[c].resp.ready
    ensures Next(LoadedTwo(s, offs, c), Decide, s.(trustee := Visiting(offs + 1)))
  {
    var s2: State<T, R> := LoadedTwo(s, offs, c);
    assert Put(s2, c, s2.chans[c].(pending := false)) == s2;
  }

  lemma TurnsRound<T, R>(s: State<T, R>)
    requires Undisturbed(s) && s.trustee == Visiting(3) && s.queue == [] && s.counter < USIZE
    ensures var s1, t := s.(trustee := RoundTop), s.(trustee := RoundTop, counter := (s.counter + 1) % USIZE);
            && Next(s, EndScan, s1)
            && (if t.counter % DRAIN_PERIOD == 0 then
                  && Next(s1, BeginRound, t.(trustee := Draining(0)))
                  && Next(t.(trustee := Draining(0)), DrainEnd, t.(trustee := Visiting(0), progressed := false))
                else Next(s1, BeginRound, t.(trustee := Visiting(0), progressed := false)))
  {
  }

  lemma QuietVisit<T, R>(v: T, states: seq<State<T, R>>, steps: seq<Step<T, R>>, i: nat, offs: nat, c: nat)
    returns (states': seq<State<T, R>>, steps': seq<Step<T, R>>)
    requires Run(v, states, steps) && Overlooked(states, steps, i) && c in {0, 2}
    requires NextIs(states[|steps|], offs, c) && c < |states[|steps|].chans| && Told(states[|steps|].chans[c])
    ensures Run(v, states', steps') && Overlooked(states', steps', i)
    ensures states'[|steps'|] == states[|steps|].(trustee := Visiting(offs + 1))
    ensures EndScans(steps', i, |steps'|) == EndScans(steps, i, |steps|)
  {
    hide Run, Next, Inv, EndScans, LoadedOne, LoadedTwo, Undisturbed;
    var s := states[|steps|];
    assert Undisturbed(s);
    ReachableInv(v, states, steps, |steps|);
    ToldWords(s, c);
    Loads(s, offs, c);
    Settles(s, offs, c);
    StagesUndisturbed(s, offs, c);
    var s' := s.(trustee := Visiting(offs + 1));
    SameUndisturbed(s, s');
    hide Overlooked;
    states', steps' := Extend(v, states, steps, i, LoadReq, LoadedOne(s, offs, c));
    states', steps' := Extend(v, states', steps', i, LoadResp, LoadedTwo(s, offs, c));
    states', steps' := Extend(v, states', steps', i, Decide, s');
  }

  lemma ToldWords<T, R>(s: State<T, R>, c: nat)
    requires Inv(s) && c < |s.chans| && Told(s.chans[c])
    ensures s.chans[c].req.ready == s.chans[c].resp.ready
  {
    assert ChanOk(s.chans[c]);
  }

  lemma SameUndisturbed<T, R>(s: State<T, R>, s': State<T, R>)
    requires Undisturbed(s) && s'.clients == s.clients && |s'.chans| == |s.chans|
    requires |s.chans| == 3 ==> s'.chans[1] == s.chans[1]
    ensures Undisturbed(s')
  {
  }

  /** The scan ends and the next one begins. */
  lemma NextScan<T, R>(v: T, states: seq<State<T, R>>, steps: seq<Step<T, R>>, i: nat)
    returns (states': seq<State<T, R>>, steps': seq<Step<T, R>>)
    requires Run(v, states, steps) && Overlooked(states, steps, i)
    requires states[|steps|].trustee == Visiting(3) && states[|steps|].queue == [] && states[|steps|].counter < USIZE
    ensures Run(v, states', steps') && Overlooked(states', steps', i)
    ensures states'[|steps'|] == states[|steps|].(trustee := Visiting(0), progressed := false,
                                                  counter := (states[|steps|].counter + 1) % USIZE)
    ensures EndScans(steps', i, |steps'|) == EndScans(steps, i, |steps|) + 1
  {
    hide Run, Next, EndScans, Undisturbed;
    var s := states[|steps|];
    assert Undisturbed(s);
    TurnsRound(s);
    var s1, t := s.(trustee := RoundTop), s.(trustee := RoundTop, counter := (s.counter + 1) % USIZE);
    var s' := t.(trustee := Visiting(0), progressed := false);
    SameUndisturbed(s, s1);
    SameUndisturbed(s, t.(trustee := Draining(0)));
    SameUndisturbed(s, s');
    hide Overlooked;
    states', steps' := Extend(v, states, steps, i, EndScan, s1);
    if t.counter % DRAIN_PERIOD == 0 {
      states', steps' := Extend(v, states', steps', i, BeginRound, t.(trustee := Draining(0)));
      states', steps' := Extend(v, states', steps', i, DrainEnd, s');
    } else {
      states', steps' := Extend(v, states', steps', i, BeginRound, s');
    }
  }

  // ---- a busy client calls again --------------------------------------------------------------

  /** The channel after the client has read its answer and stored the same request anew. */
  function Again<T, R>(ch: Channel<T, R>): Channel<T, R>
  {
    ch.(req := Word(!ch.resp.ready, 1), pc := Waiting(!ch.resp.ready), sent := ch.sent + 1, left := 1)
  }

  lemma ReadsAnswer<T, R>(s: State<T, R>, c: nat)
    requires c < |s.chans| && Told(s.chans[c]) && s.chans[c].pc.ready == s.chans[c].resp.ready
    ensures var ch := s.chans[c];
            var s1 := Put(s, c, ch.(pc := Ready));
            Next(s, Poll(c), s1) && Next(s1, ReadBack(c), Put(s, c, ch.(pc := Idle)))
  {
  }

  lemma WritesAgain<T, R>(s: State<T, R>, c: nat)
    requires c < |s.chans| && Told(s.chans[c])
    ensures var ch := s.chans[c];
            var s3 := Put(s, c, ch.(pc := Written));
            && Next(Put(s, c, ch.(pc := Idle)), Write(c, ch.record.value), s3)
            && Next(s3, LoadToggle(c), Put(s, c, ch.(pc := Toggled(!ch.resp.ready))))
  {
  }

  lemma StoresAgain<T, R>(s: State<T, R>, c: nat)
    requires c < |s.chans| && Told(s.chans[c])
    ensures var ch := s.chans[c];
            Next(Put(s, c, ch.(pc := Toggled(!ch.resp.ready))), StoreRequest(c), Put(s, c, Again(ch)))
  {
  }

  lemma CallAgain<T, R>(v: T, states: seq<State<T, R>>, steps: seq<Step<T, R>>, i: nat, c: nat)
    returns (states': seq<State<T, R>>, steps': seq<Step<T, R>>)
    requires Run(v, states, steps) && Overlooked(states, steps, i) && c in {0, 2}
    requires c < |states[|steps|].chans| && Told(states[|steps|].chans[c])
    ensures Run(v, states', steps') && Overlooked(states', steps', i)
    ensures states'[|steps'|] == Put(states[|steps|], c, Again(states[|steps|].chans[c]))
    ensures EndScans(steps', i, |steps'|) == EndScans(steps, i, |steps|)
  {
    hide Run, Next, Inv, EndScans, Undisturbed;
    var s := states[|steps|];
    var ch := s.chans[c];
    assert Undisturbed(s);
    ReachableInv(v, states, steps, |steps|);
    ToldPoll(s, c);
    ReadsAnswer(s, c);
    WritesAgain(s, c);
    StoresAgain(s, c);
    hide Overlooked, Told;
    var s1, s2 := Put(s, c, ch.(pc := Ready)), Put(s, c, ch.(pc := Idle));
    var s3, s4, s5 := Put(s, c, ch.(pc := Written)), Put(s, c, ch.(pc := Toggled(!ch.resp.ready))), Put(s, c, Again(ch));
    SameUndisturbed(s, s1);
    SameUndisturbed(s, s2);
    SameUndisturbed(s, s3);
    SameUndisturbed(s, s4);
    SameUndisturbed(s, s5);
    states', steps' := Extend(v, states, steps, i, Poll(c), s1);
    states', steps' := Extend(v, states', steps', i, ReadBack(c), s2);
    states', steps' := Extend(v, states', steps', i, Write(c, ch.record.value), s3);
    states', steps' := Extend(v, states', steps', i, LoadToggle(c), s4);
    states', steps' := Extend(v, states', steps', i, StoreRequest(c), s5);
  }

  lemma ToldPoll<T, R>(s: State<T, R>, c: nat)
    requires Inv(s) && c < |s.chans| && Told(s.chans[c])
    ensures s.chans[c].pc.ready == s.chans[c].resp.ready
  {
    assert ChanOk(s.chans[c]);
  }

  // ---- scan after scan -------------------------------------------------------------------------

  /** At the beginning of a scan, clients 0 and 2 are asking. */
  ghost predicate BothAsking<T, R>(s: State<T, R>)
  {
    && Undisturbed(s) && s.trustee == Visiting(0) && s.start == 0 && s.queue == [] && s.counter < USIZE
    && Asking(s.chans[0]) && Asking(s.chans[2])
  }

  /** One scan: it serves clients 0 and 2, visits 2 once more, and both call again. */
  lemma ScanOverlooks<T, R>(v: T, states: seq<State<T, R>>, steps: seq<Step<T, R>>, i: nat)
    returns (states': seq<State<T, R>>, steps': seq<Step<T, R>>)
    requires Run(v, states, steps) && Overlooked(states, steps, i) && BothAsking(states[|steps|])
    ensures Run(v, states', steps') && Overlooked(states', steps', i) && BothAsking(states'[|steps'|])
    ensures EndScans(steps', i, |steps'|) == EndScans(steps, i, |steps|) + 1
  {
    hide Run, EndScans, Apply, Overlooked;
    OverlookedNow(states, steps, i);
    states', steps' := BusyVisit(v, states, steps, i, 0, 0);
    OverlookedNow(states', steps', i);
    states', steps' := BusyVisit(v, states', steps', i, 1, 2);
    OverlookedNow(states', steps', i);
    states', steps' := QuietVisit(v, states', steps', i, 2, 2);
    OverlookedNow(states', steps', i);
    states', steps' := NextScan(v, states', steps', i);
    OverlookedNow(states', steps', i);
    states', steps' := CallAgain(v, states', steps', i, 0);
    OverlookedNow(states', steps', i);
    states', steps' := CallAgain(v, states', steps', i, 2);
    OverlookedNow(states', steps', i);
  }

  lemma OverlookedNow<T, R>(states: seq<State<T, R>>, steps: seq<Step<T, R>>, i: nat)
    requires Overlooked(states, steps, i)
    ensures |states| == |steps| + 1 && Undisturbed(states[|steps|])
  {
  }

  /** Three clients of one property, each with an apply under way, and a scan about to begin. */
  lemma AskingRun<T, R>(v: T, g: T -> (T, R)) returns (states: seq<State<T, R>>, steps: seq<Step<T, R>>)
    ensures Run(v, states, steps) && |states| == |steps| + 1 && BothAsking(states[|steps|])
  {
    hide Run;
    var req: Request<T, R> := CallMutOutPtr(g);
    states, steps := ClonesRun<T, R>(v);
    states, steps := SendRun(v, states, steps, 0, req);
    states, steps := SendRun(v, states, steps, 1, req);
    states, steps := SendRun(v, states, steps, 2, req);
    states, steps := DrainRun(v, states, steps);
  }

  /** No number of scans is enough: for every m there is a run with m completed scans from a
      state on in which client 1 is registered and its request open, and not one of their
      visits is to client 1. */
  lemma {:induction false} ClientMayStarve<T, R>(v: T, g: T -> (T, R), m: nat)
    returns (states: seq<State<T, R>>, steps: seq<Step<T, R>>, i: nat)
    ensures Run(v, states, steps) && Overlooked(states, steps, i) && BothAsking(states[|steps|])
    ensures EndScans(steps, i, |steps|) == m
    decreases m
  {
    hide Run, BothAsking;
    if m == 0 {
      states, steps := AskingRun(v, g);
      i := |steps|;
      AskingUndisturbed(states[i]);
    } else {
      states, steps, i := ClientMayStarve(v, g, m - 1);
      states, steps := ScanOverlooks(v, states, steps, i);
    }
  }

  lemma AskingUndisturbed<T, R>(s: State<T, R>)
    requires BothAsking(s)
    ensures Undisturbed(s)
  {
  }
}
