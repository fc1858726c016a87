/** The client's steps keep the invariant. */
module ClientSteps {
  import opened Wrappers
  import opened Operations
  import opened Protocol
  import opened Invariant

  /** What a client may change: nothing the trustee or a fiber writes, and its record and
      request word only while every request has been answered. */
  ghost predicate ClientMove<T, R>(ch: Channel<T, R>, ch': Channel<T, R>)
  {
    && ch'.kind == ch.kind && ch'.resp == ch.resp && ch'.data == ch.data && ch'.answered == ch.answered
    && ch'.pending == ch.pending && ch'.launchReady == ch.launchReady && ch'.fiber == ch.fiber
    && ch.sent <= ch'.sent && (ch'.alive ==> ch.alive)
    && (ch.sent != ch.answered ==>
          ch'.record == ch.record && ch'.req == ch.req && ch'.sent == ch.sent && ch'.left == ch.left)
    && (ch.sent == ch'.sent ==> ch'.req == ch.req)
  }

  lemma ClientFrame<T, R>(s: State<T, R>, c: nat, ch': Channel<T, R>)
    requires Inv(s) && c < |s.chans| && ClientMove(s.chans[c], ch')
    requires ChanOk(ch') && (QuietOk(s.chans[c]) ==> QuietOk(ch'))
    ensures Inv(Put(s, c, ch'))
  {
    assert ChanOk(s.chans[c]);
    TrusteeFrame(s, c, ch');
    FibersFrame(s, c, ch');
    ChansFrame(s, c, ch');
    OwnersFrame(s, c, ch');
  }

  lemma WordSeenStable<T, R>(ch: Channel<T, R>, ch': Channel<T, R>, w: Word)
    requires ClientMove(ch, ch') && WorkOk(ch) && BitsOk(ch') && WordSeen(ch, w)
    ensures WordSeen(ch', w)
  {
  }

  lemma JudgedStable<T, R>(ch: Channel<T, R>, ch': Channel<T, R>, w: Word, v: Word)
    requires ClientMove(ch, ch') && BitsOk(ch') && Judged(ch, w, v)
    ensures Judged(ch', w, v)
  {
  }

  lemma VisitStable<T, R>(t: Trustee, ch: Channel<T, R>, ch': Channel<T, R>)
    requires VisitOk(t, ch) && ClientMove(ch, ch') && WorkOk(ch) && BitsOk(ch')
    ensures VisitOk(t, ch')
  {
    match t
    case LoadedReq(_, _, w) => WordSeenStable(ch, ch', w);
    case LoadedBoth(_, _, w, v) => JudgedStable(ch, ch', w, v);
    case _ =>
  }

  lemma TrusteeFrame<T, R>(s: State<T, R>, c: nat, ch': Channel<T, R>)
    requires TrusteeOk(s) && c < |s.chans| && ClientMove(s.chans[c], ch') && WorkOk(s.chans[c]) && BitsOk(ch')
    ensures TrusteeOk(Put(s, c, ch'))
  {
    hide VisitOk, ClientMove, WorkOk, BitsOk;
    if VisitedChan(s.trustee) == Some(c) {
      VisitStable(s.trustee, s.chans[c], ch');
    }
  }

  lemma FibersFrame<T, R>(s: State<T, R>, c: nat, ch': Channel<T, R>)
    requires FibersOk(s) && c < |s.chans| && WorkOk(s.chans[c]) && ClientMove(s.chans[c], ch')
    ensures FibersOk(Put(s, c, ch'))
  {
    var s' := Put(s, c, ch');
    forall f | 0 <= f < |s'.fibers| ensures FiberOk(s', f) {
      assert FiberOk(s, f) && Tokens(s', f) == Tokens(s, f);
    }
    forall d | 0 <= d < |s'.chans| ensures LinkOk(s', d) {
      assert LinkOk(s, d);
    }
  }

  lemma ChansFrame<T, R>(s: State<T, R>, c: nat, ch': Channel<T, R>)
    requires ChansOk(s) && c < |s.chans| && ChanOk(ch') && (QuietOk(s.chans[c]) ==> QuietOk(ch'))
    ensures ChansOk(Put(s, c, ch'))
  {
    hide ChanOk, QuietOk, Engaged;
  }

  lemma OwnersFrame<T, R>(s: State<T, R>, c: nat, ch': Channel<T, R>)
    requires OwnersOk(s) && c < |s.chans| && ch'.kind == s.chans[c].kind && (ch'.alive ==> s.chans[c].alive)
    ensures OwnersOk(Put(s, c, ch'))
  {
  }

  lemma WriteKeeps<T, R>(s: State<T, R>, c: nat, req: Request<T, R>, s': State<T, R>)
    requires Inv(s) && DoWrite(s, c, req, s')
    ensures Inv(s')
  {
    assert ChanOk(s.chans[c]);
    ClientFrame(s, c, s'.chans[c]);
  }

  lemma LoadToggleKeeps<T, R>(s: State<T, R>, c: nat, s': State<T, R>)
    requires Inv(s) && DoLoadToggle(s, c, s')
    ensures Inv(s')
  {
    assert ChanOk(s.chans[c]);
    ClientFrame(s, c, s'.chans[c]);
  }

  lemma StoreRequestKeeps<T, R>(s: State<T, R>, c: nat, s': State<T, R>)
    requires Inv(s) && DoStoreRequest(s, c, s')
    ensures Inv(s')
  {
    assert ChanOk(s.chans[c]);
    ClientFrame(s, c, s'.chans[c]);
  }

  lemma PollKeeps<T, R>(s: State<T, R>, c: nat, s': State<T, R>)
    requires Inv(s) && DoPoll(s, c, s')
    ensures Inv(s')
  {
    assert ChanOk(s.chans[c]);
    ClientFrame(s, c, s'.chans[c]);
  }

  lemma ReadBackKeeps<T, R>(s: State<T, R>, c: nat, s': State<T, R>)
    requires Inv(s) && DoReadBack(s, c, s')
    ensures Inv(s')
  {
    assert ChanOk(s.chans[c]);
    ClientFrame(s, c, s'.chans[c]);
  }

  lemma DropHandleKeeps<T, R>(s: State<T, R>, c: nat, s': State<T, R>)
    requires Inv(s) && DoDropHandle(s, c, s')
    ensures Inv(s')
  {
    assert ChanOk(s.chans[c]);
    ClientFrame(s, c, s'.chans[c]);
  }

  /** Registering a fresh channel disturbs nobody. */
  lemma RegisterKeeps<T, R>(s: State<T, R>, kind: Kind, dropped: Option<nat>, s': State<T, R>)
    requires Inv(s) && s' == Register(s, kind).(dropped := dropped)
    requires if kind == Terminator then dropped == Some(|s.chans|) && s.dropped == None && (s.owned ==> NoHandles(s))
             else dropped == s.dropped && !(s.owned && s.dropped.Some?)
    ensures Inv(s')
  {
    assert forall d :: 0 <= d < |s.chans| ==> s'.chans[d] == s.chans[d];
    RegisteredChans(s, kind, s');
    RegisteredFibers(s, kind, s');
    RegisteredOwners(s, kind, s');
    hide ChansOk, FibersOk, OwnersOk, VisitOk;
    assert TrusteeOk(s');
    assert RegistryOk(s');
  }

  lemma RegisteredChans<T, R>(s: State<T, R>, kind: Kind, s': State<T, R>)
    requires ChansOk(s) && s'.chans == s.chans + [NewChannel(kind)] && s'.trustee == s.trustee
    ensures ChansOk(s')
  {
    assert ChanOk(NewChannel<T, R>(kind)) && QuietOk(NewChannel<T, R>(kind));
    hide ChanOk, QuietOk, Engaged;
    forall d | 0 <= d < |s'.chans| ensures ChanOk(s'.chans[d]) && (!Engaged(s'.trustee, d) ==> QuietOk(s'.chans[d])) {
      if d < |s.chans| {
        assert s'.chans[d] == s.chans[d];
      }
    }
  }

  lemma RegisteredFibers<T, R>(s: State<T, R>, kind: Kind, s': State<T, R>)
    requires FibersOk(s) && s'.chans == s.chans + [NewChannel(kind)]
    requires s'.fibers == s.fibers && s'.pool == s.pool && s'.trustee == s.trustee && s'.terminator == s.terminator
    ensures FibersOk(s')
  {
    forall f | 0 <= f < |s'.fibers| ensures FiberOk(s', f) {
      assert FiberOk(s, f) && Tokens(s', f) == Tokens(s, f);
    }
    forall d | 0 <= d < |s'.chans| ensures LinkOk(s', d) {
      if d < |s.chans| {
        assert LinkOk(s, d);
      }
    }
  }

  lemma RegisteredOwners<T, R>(s: State<T, R>, kind: Kind, s': State<T, R>)
    requires OwnersOk(s) && s'.chans == s.chans + [NewChannel(kind)] && s'.owned == s.owned
    requires if kind == Terminator then s'.dropped == Some(|s.chans|) && s.dropped == None && (s.owned ==> NoHandles(s))
             else s'.dropped == s.dropped && !(s.owned && s.dropped.Some?)
    ensures OwnersOk(s')
  {
    assert forall d :: 0 <= d < |s.chans| ==> s'.chans[d] == s.chans[d] && (s.chans[d].kind == Terminator <==> s.dropped == Some(d));
  }

  lemma CloneKeeps<T, R>(s: State<T, R>, c: nat, s': State<T, R>)
    requires Inv(s) && DoClone(s, c, s')
    ensures Inv(s')
  {
    assert s' == Register(s, Handle).(dropped := s.dropped);
    RegisterKeeps(s, Handle, s.dropped, s');
  }

  lemma EntrustKeeps<T, R>(s: State<T, R>, s': State<T, R>)
    requires Inv(s) && DoEntrust(s, s')
    ensures Inv(s')
  {
    assert s' == Register(s, Handle).(dropped := s.dropped);
    RegisterKeeps(s, Handle, s.dropped, s');
  }

  lemma DropRuntimeKeeps<T, R>(s: State<T, R>, s': State<T, R>)
    requires Inv(s) && DoDropRuntime(s, s')
    ensures Inv(s')
  {
    RegisterKeeps(s, Terminator, Some(|s.chans|), s');
  }

  predicate ClientStep<T, R>(step: Step<T, R>)
  {
    || step.Write? || step.LoadToggle? || step.StoreRequest? || step.Poll?
    || step.ReadBack? || step.CloneHandle? || step.DropHandle? || step.Entrust?
    || step.DropRuntime?
  }

  lemma ClientNextKeeps<T, R>(s: State<T, R>, step: Step<T, R>, s': State<T, R>)
    requires Inv(s) && ClientStep(step) && Next(s, step, s')
    ensures Inv(s')
  {
    hide Inv;
    match step
    case Write(c, req) => WriteKeeps(s, c, req, s');
    case LoadToggle(c) => LoadToggleKeeps(s, c, s');
    case StoreRequest(c) => StoreRequestKeeps(s, c, s');
    case Poll(c) => PollKeeps(s, c, s');
    case ReadBack(c) => ReadBackKeeps(s, c, s');
    case CloneHandle(c) => CloneKeeps(s, c, s');
    case DropHandle(c) => DropHandleKeeps(s, c, s');
    case Entrust => EntrustKeeps(s, s');
    case DropRuntime => DropRuntimeKeeps(s, s');
  }
}
