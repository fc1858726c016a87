/** The steps of fibers, of the terminator and of the shutdown keep the invariant; hence
    every step does. */
module FiberSteps {
  import opened Wrappers
  import opened Operations
  import opened Protocol
  import opened Invariant
  import opened TrusteeSteps
  import ClientSteps

  /** What a fiber's step at channel `c` may do, as seen by the trustee. */
  ghost predicate FiberMove<T, R>(ch: Channel<T, R>, ch': Channel<T, R>)
  {
    && ch.fiber.Some?
    && ch'.req == ch.req && ch'.sent == ch.sent && ch'.pending == ch.pending && ch'.launchReady == ch.launchReady
    && (|| (ch'.fiber == ch.fiber && ch'.answered == ch.answered)
        || (ch'.fiber.None? && ch'.answered == ch'.sent && ch.answered < ch.sent))
  }

  lemma VisitSurvivesFiber<T, R>(t: Trustee, ch: Channel<T, R>, ch': Channel<T, R>)
    requires VisitOk(t, ch) && FiberMove(ch, ch')
    ensures VisitOk(t, ch')
  {
  }

  /** A fiber that moves at channel `c` disturbs neither the trustee nor the other parts. */
  lemma FiberKeeps<T, R>(s: State<T, R>, c: nat, s': State<T, R>)
    requires Inv(s) && OnlyChan(s, c, s') && SameRegistry(s, s') && FiberMove(s.chans[c], s'.chans[c])
    requires s'.start == s.start && s'.trustee == s.trustee && s'.terminator == s.terminator && s'.done == s.done
    requires |s'.fibers| == |s.fibers|
    requires forall f :: 0 <= f < |s.fibers| && s.fibers[f].pc == Gone ==> s'.fibers[f].pc == Gone
    requires ChanOk(s'.chans[c]) && QuietOk(s'.chans[c]) && FibersOk(s')
    ensures Inv(s')
  {
    assert !Engaged(s.trustee, c) by {
      hide ChansOk, FibersOk, OwnersOk, RegistryOk, ShutdownOk;
    }
    assert ChansOk(s') by {
      hide ChanOk, QuietOk, Engaged, FibersOk, OwnersOk, RegistryOk, ShutdownOk, TrusteeOk, FiberMove;
    }
    OwnersSame(s, c, s');
    assert TrusteeOk(s') by {
      hide VisitOk, ChansOk, FibersOk, OwnersOk, RegistryOk, ShutdownOk, FiberMove;
      if VisitedChan(s.trustee) == Some(c) {
        VisitSurvivesFiber(s.trustee, s.chans[c], s'.chans[c]);
      }
    }
    hide ChansOk, FibersOk, OwnersOk, TrusteeOk;
  }

  lemma EffectChan<T, R>(ch: Channel<T, R>, ch': Channel<T, R>)
    requires ChanOk(ch) && ch.fiber.Some? && ch' == ch.(data := ch'.data, left := 0)
    ensures ChanOk(ch') && QuietOk(ch') && FiberMove(ch, ch')
  {
  }

  lemma FiberEffectFibers<T, R>(s: State<T, R>, f: nat, s': State<T, R>)
    requires FibersOk(s) && DoFiberEffect(s, f, s')
    ensures FibersOk(s')
  {
    assert FiberOk(s, f);
    forall g | 0 <= g < |s'.fibers| ensures FiberOk(s', g) {
      assert FiberOk(s, g) && Tokens(s', g) == Tokens(s, g);
    }
    forall d | 0 <= d < |s'.chans| ensures LinkOk(s', d) {
      assert LinkOk(s, d);
    }
  }

  lemma FiberEffectKeeps<T, R>(s: State<T, R>, f: nat, s': State<T, R>)
    requires Inv(s) && DoFiberEffect(s, f, s')
    ensures Inv(s')
  {
    var c := s.fibers[f].pc.job.chan;
    assert FiberOk(s, f) && ChanOk(s.chans[c]);
    EffectChan(s.chans[c], s'.chans[c]);
    FiberEffectFibers(s, f, s');
    hide ChansOk, FibersOk, OwnersOk, ChanOk, QuietOk, TrusteeOk, FiberMove, FiberOk, Apply;
    FiberKeeps(s, c, s');
  }

  /** The completion store answers exactly the request that was launched. */
  lemma CompleteChan<T, R>(ch: Channel<T, R>, ready: bool)
    requires ChanOk(ch) && ch.fiber.Some? && ready == ch.req.ready && ch.left == 0
    ensures var ch' := ch.(resp := Word(ready, 1), answered := ch.answered + 1, fiber := None);
            ChanOk(ch') && QuietOk(ch') && FiberMove(ch, ch')
  {
  }

  lemma FiberCompleteFibers<T, R>(s: State<T, R>, f: nat, s': State<T, R>)
    requires FibersOk(s) && DoFiberComplete(s, f, s')
    ensures FibersOk(s')
  {
    assert FiberOk(s, f);
    forall g | 0 <= g < |s'.fibers| ensures FiberOk(s', g) {
      assert FiberOk(s, g) && Tokens(s', g) == Tokens(s, g);
    }
    forall d | 0 <= d < |s'.chans| ensures LinkOk(s', d) {
      assert LinkOk(s, d);
    }
  }

  lemma FiberCompleteKeeps<T, R>(s: State<T, R>, f: nat, s': State<T, R>)
    requires Inv(s) && DoFiberComplete(s, f, s')
    ensures Inv(s')
  {
    var c := s.fibers[f].pc.job.chan;
    assert FiberOk(s, f) && ChanOk(s.chans[c]);
    CompleteChan(s.chans[c], s.fibers[f].pc.job.ready);
    FiberCompleteFibers(s, f, s');
    hide ChansOk, FibersOk, OwnersOk, ChanOk, QuietOk, TrusteeOk, FiberMove, FiberOk;
    FiberKeeps(s, c, s');
  }

  // ---- steps that leave channels and trustee data alone ----------------------

  /** Only fibers, pool, terminator or the trustee's joins move. */
  lemma PoolKeeps<T, R>(s: State<T, R>, s': State<T, R>)
    requires Inv(s) && s'.chans == s.chans && SameRegistry(s, s') && s'.start == s.start
    requires s'.owned == s.owned && s'.dropped == s.dropped && |s'.fibers| == |s.fibers|
    requires forall f :: 0 <= f < |s.fibers| && s.fibers[f].pc == Gone ==> s'.fibers[f].pc == Gone
    requires FibersOk(s') && ShutdownOk(s')
    requires s'.trustee == s.trustee || (VisitedChan(s.trustee).None? && VisitedChan(s'.trustee).None?)
    requires PlaceOk(s')
    ensures Inv(s')
  {
    assert ChansOk(s') by {
      hide ChanOk, QuietOk, FibersOk, OwnersOk, RegistryOk, ShutdownOk, PlaceOk, VisitOk;
      assert forall d :: 0 <= d < |s.chans| ==> ChanOk(s.chans[d]) && (!Engaged(s.trustee, d) ==> QuietOk(s.chans[d]));
    }
    hide ChansOk, FibersOk, VisitOk, ShutdownOk;
  }

  lemma ReceiveKeeps<T, R>(s: State<T, R>, f: nat, s': State<T, R>)
    requires Inv(s) && DoReceive(s, f, s')
    ensures Inv(s')
  {
    assert FibersOk(s') by {
      hide ChansOk, OwnersOk, RegistryOk, TrusteeOk;
      assert FiberOk(s, f);
      forall g | 0 <= g < |s'.fibers| ensures FiberOk(s', g) {
        assert FiberOk(s, g) && Tokens(s', g) == Tokens(s, g);
      }
      forall d | 0 <= d < |s'.chans| ensures LinkOk(s', d) {
        assert LinkOk(s, d);
      }
    }
    hide ChansOk, FibersOk, OwnersOk, VisitOk;
    PoolKeeps(s, s');
  }

  lemma FiberPushKeeps<T, R>(s: State<T, R>, f: nat, s': State<T, R>)
    requires Inv(s) && DoFiberPush(s, f, s')
    ensures Inv(s')
  {
    assert FibersOk(s') by {
      hide ChansOk, OwnersOk, RegistryOk, TrusteeOk;
      assert FiberOk(s, f);
      assert multiset(s'.pool) == multiset(s.pool) + multiset{f};
      forall g | 0 <= g < |s'.fibers| ensures FiberOk(s', g) {
        assert FiberOk(s, g) && Tokens(s', g) == Tokens(s, g);
      }
      forall d | 0 <= d < |s'.chans| ensures LinkOk(s', d) {
        assert LinkOk(s, d);
      }
    }
    hide ChansOk, FibersOk, OwnersOk, VisitOk;
    PoolKeeps(s, s');
  }

  lemma TermPopKeeps<T, R>(s: State<T, R>, s': State<T, R>)
    requires Inv(s) && DoTermPop(s, s')
    ensures Inv(s')
  {
    PoolSplit(s.pool);
    assert s.pool[0] in s.pool;
    assert s.pool[0] < |s.fibers|;
    assert FibersOk(s') by {
      hide ChansOk, OwnersOk, RegistryOk, TrusteeOk;
      forall g | 0 <= g < |s'.fibers| ensures FiberOk(s', g) {
        assert FiberOk(s, g) && Tokens(s', g) == Tokens(s, g);
      }
      forall d | 0 <= d < |s'.chans| ensures LinkOk(s', d) {
        assert LinkOk(s, d);
      }
      assert forall p :: p in s'.pool ==> p in s.pool;
    }
    hide ChansOk, FibersOk, OwnersOk, VisitOk;
    PoolKeeps(s, s');
  }

  /** The sender the terminator holds belongs to a fiber waiting with an empty inbox. */
  lemma HeldIsIdle<T, R>(s: State<T, R>)
    requires Inv(s) && s.terminator.Holding?
    ensures s.terminator.f < |s.fibers| && s.fibers[s.terminator.f] == Fiber([], Receiving)
  {
    assert FiberOk(s, s.terminator.f);
  }

  lemma TermSendKeeps<T, R>(s: State<T, R>, s': State<T, R>)
    requires Inv(s) && DoTermSend(s, s')
    ensures Inv(s')
  {
    HeldIsIdle(s);
    assert FibersOk(s') by {
      hide ChansOk, OwnersOk, RegistryOk, TrusteeOk;
      forall g | 0 <= g < |s'.fibers| ensures FiberOk(s', g) {
        assert FiberOk(s, g) && Tokens(s', g) == Tokens(s, g);
      }
      forall d | 0 <= d < |s'.chans| ensures LinkOk(s', d) {
        assert LinkOk(s, d);
      }
    }
    hide ChansOk, FibersOk, OwnersOk, VisitOk;
    PoolKeeps(s, s');
  }

  /** Steps that move only the trustee's join position or the terminator's position. */
  lemma FibersUntouched<T, R>(s: State<T, R>, s': State<T, R>)
    requires FibersOk(s) && s'.fibers == s.fibers && s'.pool == s.pool && s'.chans == s.chans
    requires forall f :: Held(s', f) == Held(s, f)
    requires s'.terminator == Unspawned ==> s.terminator == Unspawned
    ensures FibersOk(s')
  {
    forall g | 0 <= g < |s'.fibers| ensures FiberOk(s', g) {
      assert FiberOk(s, g) && Tokens(s', g) == Tokens(s, g);
    }
    forall d | 0 <= d < |s'.chans| ensures LinkOk(s', d) {
      assert LinkOk(s, d);
    }
  }

  lemma TermSeeDoneKeeps<T, R>(s: State<T, R>, s': State<T, R>)
    requires Inv(s) && DoTermSeeDone(s, s')
    ensures Inv(s')
  {
    FibersUntouched(s, s');
    hide ChansOk, FibersOk, OwnersOk, VisitOk;
    PoolKeeps(s, s');
  }

  lemma TermEndKeeps<T, R>(s: State<T, R>, s': State<T, R>)
    requires Inv(s) && DoTermEnd(s, s')
    ensures Inv(s')
  {
    FibersUntouched(s, s');
    hide ChansOk, FibersOk, OwnersOk, VisitOk;
    PoolKeeps(s, s');
  }

  lemma JoinFiberKeeps<T, R>(s: State<T, R>, s': State<T, R>)
    requires Inv(s) && DoJoinFiber(s, s')
    ensures Inv(s')
  {
    FibersUntouched(s, s');
    hide ChansOk, FibersOk, OwnersOk, VisitOk;
    PoolKeeps(s, s');
  }

  lemma SetDoneKeeps<T, R>(s: State<T, R>, s': State<T, R>)
    requires Inv(s) && DoSetDone(s, s')
    ensures Inv(s')
  {
    FibersUntouched(s, s');
    hide ChansOk, FibersOk, OwnersOk, VisitOk;
    PoolKeeps(s, s');
  }

  lemma JoinTerminatorKeeps<T, R>(s: State<T, R>, s': State<T, R>)
    requires Inv(s) && DoJoinTerminator(s, s')
    ensures Inv(s')
  {
    FibersUntouched(s, s');
    hide ChansOk, FibersOk, OwnersOk, VisitOk;
    PoolKeeps(s, s');
  }

  lemma BeginTerminateKeeps<T, R>(s: State<T, R>, s': State<T, R>)
    requires Inv(s) && DoBeginTerminate(s, s')
    ensures Inv(s')
  {
    FibersUntouched(s, s');
    var c := s.trustee.c;
    assert QuietOk(s.chans[c]);
    assert ChansOk(s') by {
      hide FibersOk, OwnersOk, RegistryOk, ShutdownOk, PlaceOk, VisitOk, ChanOk, QuietOk;
      assert forall d :: 0 <= d < |s.chans| ==> ChanOk(s.chans[d]) && (!Engaged(s.trustee, d) ==> QuietOk(s.chans[d]));
    }
    hide ChansOk, FibersOk, OwnersOk, VisitOk;
  }

  /** Every step keeps the invariant. */
  lemma NextKeepsInv<T, R>(s: State<T, R>, step: Step<T, R>, s': State<T, R>)
    requires Inv(s) && Next(s, step, s')
    ensures Inv(s')
  {
    hide Inv;
    if ClientSteps.ClientStep(step) {
      ClientSteps.ClientNextKeeps(s, step, s');
    } else if ServiceStep(step) {
      ServiceNextKeeps(s, step, s');
    } else {
      OtherNextKeeps(s, step, s');
    }
  }

  lemma OtherNextKeeps<T, R>(s: State<T, R>, step: Step<T, R>, s': State<T, R>)
    requires Inv(s) && !ClientSteps.ClientStep(step) && !ServiceStep(step) && Next(s, step, s')
    ensures Inv(s')
  {
    hide Inv;
    match step
    case BeginTerminate => BeginTerminateKeeps(s, s');
    case JoinFiber => JoinFiberKeeps(s, s');
    case SetDone => SetDoneKeeps(s, s');
    case JoinTerminator => JoinTerminatorKeeps(s, s');
    case Receive(f) => ReceiveKeeps(s, f, s');
    case FiberEffect(f) => FiberEffectKeeps(s, f, s');
    case FiberComplete(f) => FiberCompleteKeeps(s, f, s');
    case FiberPush(f) => FiberPushKeeps(s, f, s');
    case TermPop => TermPopKeeps(s, s');
    case TermSend => TermSendKeeps(s, s');
    case TermSeeDone => TermSeeDoneKeeps(s, s');
    case TermEnd => TermEndKeeps(s, s');
  }
}
