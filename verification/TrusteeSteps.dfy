/** The trustee's steps keep the invariant. */
module TrusteeSteps {
  import opened Wrappers
  import opened Operations
  import opened Schedule
  import opened Protocol
  import opened Invariant

  // ---- frames ---------------------------------------------------------------

  /** At most channel `c` differs, and nobody's handle or kind. */
  ghost predicate OnlyChan<T, R>(s: State<T, R>, c: nat, s': State<T, R>)
  {
    && c < |s.chans| == |s'.chans|
    && (forall d :: 0 <= d < |s.chans| && d != c ==> s'.chans[d] == s.chans[d])
    && s'.chans[c].kind == s.chans[c].kind && s'.chans[c].alive == s.chans[c].alive
    && s'.owned == s.owned && s'.dropped == s.dropped
  }

  ghost predicate SameFibers<T, R>(s: State<T, R>, s': State<T, R>)
  {
    s'.fibers == s.fibers && s'.pool == s.pool && s'.terminator == s.terminator && s'.done == s.done
  }

  ghost predicate SameRegistry<T, R>(s: State<T, R>, s': State<T, R>)
  {
    |s'.chans| == |s.chans| && s'.clients == s.clients && s'.queue == s.queue && s'.counter == s.counter
  }

  lemma FibersSame<T, R>(s: State<T, R>, c: nat, s': State<T, R>)
    requires FibersOk(s) && OnlyChan(s, c, s') && SameFibers(s, s')
    requires !s.trustee.Sending? && !s'.trustee.Sending?
    requires s'.chans[c] == s.chans[c] || (s.chans[c].fiber.None? && s'.chans[c].fiber.None?)
    ensures FibersOk(s')
  {
    forall f | 0 <= f < |s'.fibers| ensures FiberOk(s', f) {
      assert FiberOk(s, f) && Tokens(s', f) == Tokens(s, f);
    }
    forall d | 0 <= d < |s'.chans| ensures LinkOk(s', d) {
      assert LinkOk(s, d);
    }
  }

  lemma ChansSame<T, R>(s: State<T, R>, c: nat, s': State<T, R>)
    requires ChansOk(s) && OnlyChan(s, c, s') && ChanOk(s'.chans[c])
    requires Engaged(s'.trustee, c) || QuietOk(s'.chans[c])
    requires forall d :: 0 <= d < |s.chans| && d != c ==> !Engaged(s.trustee, d)
    ensures ChansOk(s')
  {
    hide ChanOk, QuietOk, Engaged;
  }

  lemma OwnersSame<T, R>(s: State<T, R>, c: nat, s': State<T, R>)
    requires OwnersOk(s) && OnlyChan(s, c, s')
    ensures OwnersOk(s')
  {
  }

  /** A step of the trustee at channel `c`, given what it establishes about `c`. */
  lemma VisitKeeps<T, R>(s: State<T, R>, c: nat, s': State<T, R>)
    requires Inv(s) && OnlyChan(s, c, s') && SameFibers(s, s') && SameRegistry(s, s')
    requires !s.trustee.Sending? && !s'.trustee.Sending? && s.terminator == Unspawned && !Terminating(s'.trustee)
    requires s'.chans[c] == s.chans[c] || (s.chans[c].fiber.None? && s'.chans[c].fiber.None?)
    requires forall d :: 0 <= d < |s.chans| && d != c ==> !Engaged(s.trustee, d)
    requires ChanOk(s'.chans[c]) && (Engaged(s'.trustee, c) || QuietOk(s'.chans[c]))
    requires TrusteeOk(s') && (if s'.clients == [] then s'.start == 0 else s'.start < |s'.clients|)
    ensures Inv(s')
  {
    FibersSame(s, c, s');
    ChansSame(s, c, s');
    OwnersSame(s, c, s');
    hide ChanOk, QuietOk, ChansOk, FibersOk, OwnersOk, TrusteeOk, OnlyChan;
  }

  // ---- rounds and registration ----------------------------------------------

  /** The trustee is between visits and nothing it owns has changed. */
  lemma BetweenVisits<T, R>(s: State<T, R>, s': State<T, R>)
    requires Inv(s) && SameFibers(s, s') && s'.chans == s.chans
    requires s'.owned == s.owned && s'.dropped == s.dropped && RegistryOk(s')
    requires VisitedChan(s.trustee).None? && VisitedChan(s'.trustee).None?
    requires !Terminating(s.trustee) && s.trustee != Exited && !Terminating(s'.trustee) && s'.trustee != Exited
    requires PlaceOk(s')
    ensures Inv(s')
  {
    assert FibersOk(s') by {
      forall f | 0 <= f < |s'.fibers| ensures FiberOk(s', f) {
        assert FiberOk(s, f) && Tokens(s', f) == Tokens(s, f);
      }
      forall d | 0 <= d < |s'.chans| ensures LinkOk(s', d) {
        assert LinkOk(s, d);
      }
    }
    assert ChansOk(s') by {
      hide ChanOk, QuietOk;
      assert forall d :: 0 <= d < |s.chans| ==> ChanOk(s.chans[d]) && (!Engaged(s.trustee, d) ==> QuietOk(s.chans[d]));
    }
    assert OwnersOk(s');
  }

  lemma BeginRoundKeeps<T, R>(s: State<T, R>, s': State<T, R>)
    requires Inv(s) && DoBeginRound(s, s')
    ensures Inv(s')
  {
    hide ChansOk, FibersOk, OwnersOk;
    BetweenVisits(s, s');
  }

  lemma DrainPopKeeps<T, R>(s: State<T, R>, s': State<T, R>)
    requires Inv(s) && DoDrainPop(s, s')
    ensures Inv(s')
  {
    hide ChansOk, FibersOk, OwnersOk;
    BetweenVisits(s, s');
  }

  lemma DrainEndKeeps<T, R>(s: State<T, R>, s': State<T, R>)
    requires Inv(s) && DoDrainEnd(s, s')
    ensures Inv(s')
  {
    hide ChansOk, FibersOk, OwnersOk;
    BetweenVisits(s, s');
  }

  lemma EndScanKeeps<T, R>(s: State<T, R>, s': State<T, R>)
    requires Inv(s) && DoEndScan(s, s')
    ensures Inv(s')
  {
    hide ChansOk, FibersOk, OwnersOk;
    BetweenVisits(s, s');
  }

  // ---- loading and deciding ---------------------------------------------------

  lemma LoadReqKeeps<T, R>(s: State<T, R>, s': State<T, R>)
    requires Inv(s) && DoLoadReq(s, s')
    ensures Inv(s')
  {
    var c := s'.trustee.c;
    assert ChanOk(s.chans[c]) && QuietOk(s.chans[c]);
    hide ChansOk, FibersOk, OwnersOk, QuietOk;
    VisitKeeps(s, c, s');
  }

  /** The heart of the split load: whatever verdict the two bits give is right now. */
  lemma LoadsAreJudged<T, R>(ch: Channel<T, R>, w: Word)
    requires ChanOk(ch) && QuietOk(ch) && WordSeen(ch, w)
    ensures Judged(ch, w, ch.resp)
  {
  }

  lemma LoadRespKeeps<T, R>(s: State<T, R>, s': State<T, R>)
    requires Inv(s) && DoLoadResp(s, s')
    ensures Inv(s')
  {
    var c := s.trustee.c;
    assert ChanOk(s.chans[c]) && QuietOk(s.chans[c]);
    LoadsAreJudged(s.chans[c], s.trustee.w);
    hide ChansOk, FibersOk, OwnersOk, QuietOk, ChanOk, Judged, WordSeen;
    VisitKeeps(s, c, s');
  }

  lemma DecideChan<T, R>(ch: Channel<T, R>, w: Word, v: Word)
    requires ChanOk(ch) && QuietOk(ch) && Judged(ch, w, v)
    ensures var verdict := Classify(ch.pending, ch.launchReady, w.ready, v.ready);
            var ch' := ch.(pending := false);
            && (verdict != StillRunning ==> ChanOk(ch') && QuietOk(ch'))
            && (verdict != StillRunning && ch.pending ==> ch.fiber.None?)
            && (verdict == Serve ==> InService(ch', w) && ch'.left == Repeats(ch'.record.value))
  {
  }

  /** Leaving the visited channel alone, or only clearing its flag. */
  lemma LeaveKeeps<T, R>(s: State<T, R>, ch': Channel<T, R>, t': Trustee)
    requires Inv(s) && s.trustee.LoadedBoth?
    requires var ch := s.chans[s.trustee.c];
             ch' == ch || (ch' == ch.(pending := false) && ch.fiber.None?)
    requires ChanOk(ch') && QuietOk(ch')
    requires var t := s.trustee;
             || t' == Visiting(t.offs + 1)
             || (t' == Serving(t.offs, t.c, t.w, 0) && VisitOk(t', ch'))
    ensures Inv(Put(s, s.trustee.c, ch').(trustee := t'))
  {
    hide ChansOk, FibersOk, OwnersOk, ChanOk, QuietOk, Judged, InService, VisitIndex;
    VisitKeeps(s, s.trustee.c, Put(s, s.trustee.c, ch').(trustee := t'));
  }

  lemma DecideKeeps<T, R>(s: State<T, R>, s': State<T, R>)
    requires Inv(s) && DoDecide(s, s')
    ensures Inv(s')
  {
    var t, ch := s.trustee, s.chans[s.trustee.c];
    assert ChanOk(ch) && QuietOk(ch);
    DecideChan(ch, t.w, t.v);
    hide ChansOk, FibersOk, OwnersOk, RegistryOk, ShutdownOk, PlaceOk, ChanOk, QuietOk, Classify, Judged, InService;
    match Classify(ch.pending, ch.launchReady, t.w.ready, t.v.ready)
    case StillRunning =>
      assert s' == Put(s, t.c, ch).(trustee := Visiting(t.offs + 1));
      LeaveKeeps(s, ch, Visiting(t.offs + 1));
    case Settled =>
      LeaveKeeps(s, ch.(pending := false), Visiting(t.offs + 1));
    case Serve =>
      LeaveKeeps(s, ch.(pending := false), Serving(t.offs, t.c, t.w, 0));
  }

  // ---- executing ------------------------------------------------------------

  /** Executions by the trustee touch only the open channel it serves. */
  lemma ExecChan<T, R>(ch: Channel<T, R>, ch': Channel<T, R>)
    requires ChanOk(ch) && Open(ch) && ch' == ch.(left := ch'.left, data := ch'.data)
    ensures ChanOk(ch') && Open(ch')
  {
  }

  lemma ExecRepeatKeeps<T, R>(s: State<T, R>, s': State<T, R>)
    requires Inv(s) && DoExecRepeat(s, s')
    ensures Inv(s')
  {
    var c := s.trustee.c;
    assert ChanOk(s.chans[c]);
    ExecChan(s.chans[c], s'.chans[c]);
    hide ChansOk, FibersOk, OwnersOk, ChanOk, QuietOk, VisitIndex;
    VisitKeeps(s, c, s');
  }

  lemma EndBatchKeeps<T, R>(s: State<T, R>, s': State<T, R>)
    requires Inv(s) && DoEndBatch(s, s')
    ensures Inv(s')
  {
    var c := s.trustee.c;
    assert ChanOk(s.chans[c]);
    assert s.chans[c].kind == Handle;
    hide ChansOk, FibersOk, OwnersOk, ChanOk, QuietOk, VisitIndex;
    VisitKeeps(s, c, s');
  }

  lemma ExecCallKeeps<T, R>(s: State<T, R>, s': State<T, R>)
    requires Inv(s) && DoExecCall(s, s')
    ensures Inv(s')
  {
    var c := s.trustee.c;
    assert ChanOk(s.chans[c]);
    assert s.chans[c].kind == Handle;
    ExecChan(s.chans[c], s'.chans[c]);
    hide ChansOk, FibersOk, OwnersOk, ChanOk, QuietOk, VisitIndex, Apply;
    VisitKeeps(s, c, s');
  }

  /** Storing the response closes the request. */
  lemma AnswerChan<T, R>(ch: Channel<T, R>, ready: bool)
    requires ChanOk(ch) && Open(ch) && ch.left == 0 && ready == ch.req.ready && ch.kind == Handle && !ch.pending
    ensures var ch' := ch.(resp := Word(ready, 1), answered := ch.answered + 1);
            ChanOk(ch') && QuietOk(ch')
  {
  }

  lemma StoreResponseKeeps<T, R>(s: State<T, R>, s': State<T, R>)
    requires Inv(s) && DoStoreResponse(s, s')
    ensures Inv(s')
  {
    var c := s.trustee.c;
    assert ChanOk(s.chans[c]);
    AnswerChan(s.chans[c], s.trustee.w.ready);
    hide ChansOk, FibersOk, OwnersOk, ChanOk, QuietOk;
    VisitKeeps(s, c, s');
  }

  lemma MoveOutKeeps<T, R>(s: State<T, R>, s': State<T, R>)
    requires Inv(s) && DoMoveOut(s, s')
    ensures Inv(s')
  {
    var c := s.trustee.c;
    assert ChanOk(s.chans[c]);
    ExecChan(s.chans[c], s'.chans[c]);
    hide ChansOk, FibersOk, OwnersOk, ChanOk, QuietOk, VisitIndex;
    VisitKeeps(s, c, s');
  }

  lemma StoreMovedKeeps<T, R>(s: State<T, R>, s': State<T, R>)
    requires Inv(s) && DoStoreMoved(s, s')
    ensures Inv(s')
  {
    var c := s.trustee.c;
    assert ChanOk(s.chans[c]);
    assert s.chans[c].kind == Handle;
    AnswerChan(s.chans[c], s.chans[c].req.ready);
    hide ChansOk, FibersOk, OwnersOk, ChanOk, QuietOk;
    VisitKeeps(s, c, s');
  }

  // ---- launching ------------------------------------------------------------

  lemma BeginLaunchKeeps<T, R>(s: State<T, R>, s': State<T, R>)
    requires Inv(s) && DoBeginLaunch(s, s')
    ensures Inv(s')
  {
    var c := s.trustee.c;
    assert ChanOk(s.chans[c]);
    assert ChanOk(s'.chans[c]);
    hide ChansOk, FibersOk, OwnersOk, ChanOk, QuietOk, VisitIndex;
    VisitKeeps(s, c, s');
  }

  /** What every dispatch step keeps besides fibers and channels. */
  lemma DispatchFrame<T, R>(s: State<T, R>, c: nat, s': State<T, R>)
    requires Inv(s) && OnlyChan(s, c, s') && SameRegistry(s, s')
    requires VisitedChan(s.trustee) == Some(c) && Offset(s.trustee).Some?
    requires |s.fibers| <= |s'.fibers| && s'.terminator == s.terminator && s'.done == s.done
    requires !Terminating(s'.trustee) && s'.trustee != Exited
    requires ChanOk(s'.chans[c]) && (Engaged(s'.trustee, c) || QuietOk(s'.chans[c]))
    requires FibersOk(s') && TrusteeOk(s') && s'.start < |s'.clients|
    ensures Inv(s')
  {
    ChansSame(s, c, s');
    OwnersSame(s, c, s');
    hide ChanOk, QuietOk, ChansOk, FibersOk, OwnersOk, TrusteeOk, OnlyChan;
  }

  lemma PoolSplit(pool: seq<nat>)
    requires pool != []
    ensures multiset(pool) == multiset{pool[0]} + multiset(pool[1..])
  {
    assert pool == [pool[0]] + pool[1..];
  }

  lemma PopPoolKeeps<T, R>(s: State<T, R>, s': State<T, R>)
    requires Inv(s) && DoPopPool(s, s')
    ensures Inv(s')
  {
    var c := s.trustee.c;
    assert ChanOk(s.chans[c]);
    PoolSplit(s.pool);
    assert s.pool[0] in s.pool;
    assert s.pool[0] < |s.fibers|;
    assert FibersOk(s') by {
      forall f | 0 <= f < |s'.fibers| ensures FiberOk(s', f) {
        assert FiberOk(s, f) && Tokens(s', f) == Tokens(s, f);
      }
      forall d | 0 <= d < |s'.chans| ensures LinkOk(s', d) {
        assert LinkOk(s, d);
      }
      assert forall p :: p in s'.pool ==> p in s.pool;
    }
    hide ChansOk, FibersOk, OwnersOk, ChanOk, QuietOk, VisitIndex;
    DispatchFrame(s, c, s');
  }

  /** Handing the open launch of channel `c` to fiber `f`. */
  lemma HandOverChan<T, R>(ch: Channel<T, R>, w: Word, f: nat)
    requires ChanOk(ch) && LaunchReady(ch, w)
    ensures ChanOk(ch.(fiber := Some(f))) && QuietOk(ch.(fiber := Some(f)))
  {
  }

  /** A popped sender belongs to a fiber that is waiting with an empty inbox. */
  lemma PoppedIsIdle<T, R>(s: State<T, R>)
    requires Inv(s) && s.trustee.Sending?
    ensures s.trustee.f < |s.fibers|
    ensures s.fibers[s.trustee.f] == Fiber([], Receiving)
  {
    assert FiberOk(s, s.trustee.f);
  }

  lemma SendJobFibers<T, R>(s: State<T, R>, s': State<T, R>)
    requires Inv(s) && DoSendJob(s, s')
    ensures FibersOk(s')
  {
    PoppedIsIdle(s);
    var t := s.trustee;
    hide ChansOk, RegistryOk, ShutdownOk, OwnersOk, VisitIndex;
    forall f | 0 <= f < |s'.fibers| ensures FiberOk(s', f) {
      assert FiberOk(s, f) && Tokens(s', f) == Tokens(s, f);
    }
    forall d | 0 <= d < |s'.chans| ensures LinkOk(s', d) {
      assert LinkOk(s, d);
    }
  }

  lemma SendJobKeeps<T, R>(s: State<T, R>, s': State<T, R>)
    requires Inv(s) && DoSendJob(s, s')
    ensures Inv(s')
  {
    var c := s.trustee.c;
    assert ChanOk(s.chans[c]);
    PoppedIsIdle(s);
    SendJobFibers(s, s');
    HandOverChan(s.chans[c], s.trustee.w, s.trustee.f);
    hide ChansOk, FibersOk, OwnersOk, ChanOk, QuietOk;
    DispatchFrame(s, c, s');
  }

  lemma SpawnFiberFibers<T, R>(s: State<T, R>, s': State<T, R>)
    requires Inv(s) && DoSpawnFiber(s, s')
    ensures FibersOk(s')
  {
    hide ChansOk, RegistryOk, OwnersOk, VisitIndex;
    forall f | 0 <= f < |s'.fibers| ensures FiberOk(s', f) {
      if f < |s.fibers| {
        assert FiberOk(s, f) && Tokens(s', f) == Tokens(s, f);
      }
    }
    forall d | 0 <= d < |s'.chans| ensures LinkOk(s', d) {
      assert LinkOk(s, d);
    }
  }

  lemma SpawnFiberKeeps<T, R>(s: State<T, R>, s': State<T, R>)
    requires Inv(s) && DoSpawnFiber(s, s')
    ensures Inv(s')
  {
    var c := s.trustee.c;
    assert ChanOk(s.chans[c]);
    SpawnFiberFibers(s, s');
    HandOverChan(s.chans[c], s.trustee.w, |s.fibers|);
    hide ChansOk, FibersOk, OwnersOk, ChanOk, QuietOk;
    DispatchFrame(s, c, s');
  }

  predicate ServiceStep<T, R>(step: Step<T, R>)
  {
    || step.BeginRound? || step.DrainPop? || step.DrainEnd? || step.LoadReq?
    || step.LoadResp? || step.Decide? || step.ExecRepeat? || step.EndBatch?
    || step.ExecCall? || step.StoreResponse? || step.EndScan? || step.MoveOut?
    || step.StoreMoved? || step.BeginLaunch? || step.PopPool? || step.SendJob?
    || step.SpawnFiber?
  }

  lemma ServiceNextKeeps<T, R>(s: State<T, R>, step: Step<T, R>, s': State<T, R>)
    requires Inv(s) && ServiceStep(step) && Next(s, step, s')
    ensures Inv(s')
  {
    hide Inv;
    match step
    case BeginRound => BeginRoundKeeps(s, s');
    case DrainPop => DrainPopKeeps(s, s');
    case DrainEnd => DrainEndKeeps(s, s');
    case LoadReq => LoadReqKeeps(s, s');
    case LoadResp => LoadRespKeeps(s, s');
    case Decide => DecideKeeps(s, s');
    case ExecRepeat => ExecRepeatKeeps(s, s');
    case EndBatch => EndBatchKeeps(s, s');
    case ExecCall => ExecCallKeeps(s, s');
    case StoreResponse => StoreResponseKeeps(s, s');
    case EndScan => EndScanKeeps(s, s');
    case MoveOut => MoveOutKeeps(s, s');
    case StoreMoved => StoreMovedKeeps(s, s');
    case BeginLaunch => BeginLaunchKeeps(s, s');
    case PopPool => PopPoolKeeps(s, s');
    case SendJob => SendJobKeeps(s, s');
    case SpawnFiber => SpawnFiberKeeps(s, s');
  }
}
