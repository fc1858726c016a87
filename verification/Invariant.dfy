/** What holds in every reachable state of the protocol. */
module Invariant {
  import opened Wrappers
  import opened Operations
  import opened Schedule
  import opened Protocol

  predicate Odd(n: nat)
  {
    n % 2 == 1
  }

  /** A request is in the slot that nobody has answered or handed to a fiber. */
  predicate Open<T, R>(ch: Channel<T, R>)
  {
    ch.sent == ch.answered + 1 && ch.fiber.None?
  }

  // ---- one channel ----------------------------------------------------------

  /** The two ready bits are the parities of two sequence numbers at most one apart. */
  ghost predicate BitsOk<T, R>(ch: Channel<T, R>)
  {
    && ch.answered <= ch.sent <= ch.answered + 1
    && ch.req.ready == Odd(ch.sent)
    && ch.resp.ready == Odd(ch.answered)
    && ch.req.count == (if ch.sent == 0 then 0 else 1)
  }

  /** Where the client is in its call agrees with the sequence numbers. */
  ghost predicate ClientOk<T, R>(ch: Channel<T, R>)
  {
    && (ch.sent == ch.answered + 1 ==> ch.pc.Waiting?)
    && (ch.pc.Toggled? ==> ch.pc.ready == Odd(ch.sent + 1))
    && (ch.pc.Waiting? ==> ch.pc.ready == Odd(ch.sent))
    && (ch.sent > 0 || !ch.pc.Idle? ==> ch.record.Some?)
    && (ch.pc in {Ready, Consumed} || ch.pc.Waiting? ==> ch.sent > 0)
    && (!ch.alive ==> ch.pc in {Idle, Consumed})
    && (ch.record.Some? ==> (ch.kind == Terminator <==> ch.record.value.Terminate?))
    && (ch.record.Some? && ch.record.value.CallMutRetUnit? ==> ch.record.value.repeat < 256)
    && (ch.kind == Terminator ==> ch.sent <= 1 && (ch.sent == 1 ==> ch.pc.Waiting?))
  }

  /** An answered request is owed nothing; one with a fiber is a launch in flight. */
  ghost predicate WorkOk<T, R>(ch: Channel<T, R>)
  {
    && ((ch.pc.Waiting? || ch.pc == Ready) && ch.sent == ch.answered ==> ch.left == 0)
    && (ch.fiber.Some? ==>
          && ch.sent == ch.answered + 1 && ch.record.Some? && ch.record.value.Launch?
          && ch.pending && ch.launchReady == Odd(ch.sent) && ch.left <= 1)
  }

  ghost predicate ChanOk<T, R>(ch: Channel<T, R>)
  {
    BitsOk(ch) && ClientOk(ch) && WorkOk(ch)
  }

  /** The trustee is executing or dispatching this channel's record. */
  predicate Engaged(t: Trustee, c: nat)
  {
    match t
    case Serving(_, c', _, _) => c == c'
    case Served(_, c', _) => c == c'
    case Dispatching(_, c', _) => c == c'
    case Sending(_, c', _, _) => c == c'
    case MovedOut(c', _) => c == c'
    case _ => false
  }

  /** A stale `pending` flag names the last answered request; an open request is owed all
      its executions. */
  ghost predicate QuietOk<T, R>(ch: Channel<T, R>)
  {
    && (ch.pending && ch.fiber.None? ==> ch.launchReady == Odd(ch.answered))
    && (Open(ch) ==> ch.record.Some? && ch.left == Repeats(ch.record.value))
  }

  ghost predicate ChansOk<T, R>(s: State<T, R>)
  {
    forall c :: 0 <= c < |s.chans| ==> ChanOk(s.chans[c]) && (!Engaged(s.trustee, c) ==> QuietOk(s.chans[c]))
  }

  // ---- the trustee ----------------------------------------------------------

  /** `clients` followed by the queue is the registration order. */
  ghost predicate RegistryOk<T, R>(s: State<T, R>)
  {
    && |s.clients| + |s.queue| == |s.chans|
    && (forall i :: 0 <= i < |s.clients| ==> s.clients[i] == i)
    && (forall i :: 0 <= i < |s.queue| ==> s.queue[i] == |s.clients| + i)
    && (if s.clients == [] then s.start == 0 else s.start < |s.clients|)
    && s.counter < USIZE
  }

  predicate AtVisit<T, R>(s: State<T, R>, offs: nat, c: nat)
  {
    && offs < |s.clients| <= |s.chans| && s.start < |s.clients|
    && c == VisitIndex(s.start, offs, |s.clients|)
  }

  /** A loaded request word may be out of date, but not while nothing can have changed it. */
  ghost predicate WordSeen<T, R>(ch: Channel<T, R>, w: Word)
  {
    && (ch.sent == ch.answered || ch.fiber.Some? ==> w.ready == Odd(ch.sent))
    && w.count <= 1
    && (w.count == 0 ==> ch.answered == 0 && !w.ready && ch.fiber.None?)
  }

  /** Whatever happened since the loads, the verdict drawn from them is right. */
  ghost predicate Judged<T, R>(ch: Channel<T, R>, w: Word, v: Word)
  {
    var verdict := Classify(ch.pending, ch.launchReady, w.ready, v.ready);
    && (verdict == Serve ==> Open(ch) && w == ch.req)
    && (ch.pending && verdict != StillRunning ==> ch.fiber.None?)
  }

  ghost predicate InService<T, R>(ch: Channel<T, R>, w: Word)
  {
    Open(ch) && w == ch.req && ch.record.Some?
  }

  ghost predicate LaunchReady<T, R>(ch: Channel<T, R>, w: Word)
  {
    InService(ch, w) && ch.record.value.Launch? && ch.pending && ch.launchReady == w.ready && ch.left == 1
  }

  /** The channel of the visit in progress, if any. */
  function VisitedChan(t: Trustee): Option<nat>
  {
    match t
    case LoadedReq(_, c, _) => Some(c)
    case LoadedBoth(_, c, _, _) => Some(c)
    case Serving(_, c, _, _) => Some(c)
    case Served(_, c, _) => Some(c)
    case Dispatching(_, c, _) => Some(c)
    case Sending(_, c, _, _) => Some(c)
    case MovedOut(c, _) => Some(c)
    case _ => None
  }

  /** What the trustee knows about the channel it is visiting. */
  ghost predicate VisitOk<T, R>(t: Trustee, ch: Channel<T, R>)
  {
    match t
    case LoadedReq(_, _, w) => WordSeen(ch, w)
    case LoadedBoth(_, _, w, v) => Judged(ch, w, v)
    case Serving(_, _, w, done) =>
      && InService(ch, w) && !ch.pending && done + ch.left == Repeats(ch.record.value)
      && (done > 0 ==> ch.record.value.CallMutRetUnit?)
    case Served(_, _, w) => InService(ch, w) && !ch.pending && ch.left == 0 && ch.kind == Handle
    case Dispatching(_, _, w) => LaunchReady(ch, w)
    case Sending(_, _, w, _) => LaunchReady(ch, w)
    case MovedOut(_, w) => InService(ch, w) && ch.left == 0 && ch.record.value.IntoInner? && !ch.pending
    case _ => true
  }

  /** The offset of the scan in progress, if any. */
  function Offset(t: Trustee): Option<nat>
  {
    match t
    case Visiting(offs) => Some(offs)
    case LoadedReq(offs, _, _) => Some(offs)
    case LoadedBoth(offs, _, _, _) => Some(offs)
    case Serving(offs, _, _, _) => Some(offs)
    case Served(offs, _, _) => Some(offs)
    case Dispatching(offs, _, _) => Some(offs)
    case Sending(offs, _, _, _) => Some(offs)
    case _ => None
  }

  /** A scan goes over at least one client, and visits the scheduled one. */
  ghost predicate PlaceOk<T, R>(s: State<T, R>)
  {
    var offs, c := Offset(s.trustee), VisitedChan(s.trustee);
    && (offs.Some? ==> s.clients != [] && offs.value <= |s.clients|)
    && (c.Some? ==> c.value < |s.chans|)
    && (offs.Some? && c.Some? ==> AtVisit(s, offs.value, c.value))
    && (s.trustee.Draining? ==> s.trustee.drained <= DRAIN_LIMIT)
    && (s.trustee.Sending? ==> s.trustee.f < |s.fibers|)
    && (s.trustee.Joining? ==> s.trustee.joined <= |s.fibers|)
    && (s.trustee.Joining? ==> forall f :: 0 <= f < s.trustee.joined ==> s.fibers[f].pc == Gone)
    && (s.trustee == Exited ==> s.terminator in {Unspawned, Ended})
  }

  ghost predicate TrusteeOk<T, R>(s: State<T, R>)
  {
    PlaceOk(s) && (VisitedChan(s.trustee).Some? ==> VisitOk(s.trustee, s.chans[VisitedChan(s.trustee).value]))
  }

  // ---- fibers and their tokens ----------------------------------------------

  function Held<T, R>(s: State<T, R>, f: nat): nat
  {
    (if s.trustee.Sending? && s.trustee.f == f then 1 else 0)
    + (if s.terminator.Holding? && s.terminator.f == f then 1 else 0)
  }

  /** Everything that can stand for fiber f being spoken for: senders in the pool, senders
      popped but not yet used, messages in its inbox, and being past its receive. */
  ghost function Tokens<T, R>(s: State<T, R>, f: nat): nat
    requires f < |s.fibers|
  {
    multiset(s.pool)[f] + Held(s, f) + |s.fibers[f].inbox| + (if s.fibers[f].pc == Receiving then 0 else 1)
  }

  /** A job in flight matches the channel that is waiting for it. */
  ghost predicate JobOk<T, R>(s: State<T, R>, f: nat, job: Job<T, R>, left: nat)
  {
    && job.Execute? && job.chan < |s.chans| && job.hdr.Launch?
    && var ch := s.chans[job.chan];
       ch.fiber == Some(f) && ch.record == Some(job.hdr) && job.ready == ch.req.ready && ch.left == left
  }

  ghost predicate FiberOk<T, R>(s: State<T, R>, f: nat)
    requires f < |s.fibers|
  {
    var fb := s.fibers[f];
    && Tokens(s, f) == 1
    && (fb.inbox != [] ==> if fb.inbox[0].Shutdown? then s.terminator != Unspawned else JobOk(s, f, fb.inbox[0], 1))
    && (fb.pc.Running? ==> JobOk(s, f, fb.pc.job, 1))
    && (fb.pc.Effected? ==> JobOk(s, f, fb.pc.job, 0))
    && (fb.pc == Gone ==> s.terminator != Unspawned)
  }

  predicate HoldsJob<T, R>(fb: Fiber<T, R>, c: nat)
  {
    || (fb.inbox != [] && fb.inbox[0].Execute? && fb.inbox[0].chan == c)
    || (fb.pc.Running? && fb.pc.job.Execute? && fb.pc.job.chan == c)
    || (fb.pc.Effected? && fb.pc.job.Execute? && fb.pc.job.chan == c)
  }

  ghost predicate LinkOk<T, R>(s: State<T, R>, c: nat)
    requires c < |s.chans|
  {
    var fiber := s.chans[c].fiber;
    fiber.Some? ==> fiber.value < |s.fibers| && HoldsJob(s.fibers[fiber.value], c)
  }

  ghost predicate FibersOk<T, R>(s: State<T, R>)
  {
    && (forall f :: 0 <= f < |s.fibers| ==> FiberOk(s, f))
    && (forall c :: 0 <= c < |s.chans| ==> LinkOk(s, c))
    && (forall p :: p in s.pool ==> p < |s.fibers|)
  }

  // ---- termination and ownership --------------------------------------------

  predicate Terminating(t: Trustee)
  {
    t.Joining? || t.JoiningTerminator?
  }

  ghost predicate ShutdownOk<T, R>(s: State<T, R>)
  {
    && (s.terminator == Unspawned ==> !s.done && !Terminating(s.trustee))
    && (s.terminator != Unspawned ==> Terminating(s.trustee) || s.trustee == Exited)
    && (s.terminator.Holding? ==> s.terminator.f < |s.fibers|)
    && (s.terminator in {Sweeping, Ended} || (s.terminator.Holding? && s.terminator.last) ==> s.done)
    && (s.trustee.Joining? ==> !s.done)
    && (s.trustee == JoiningTerminator ==> s.done)
    && (s.done ==> forall f :: 0 <= f < |s.fibers| ==> s.fibers[f].pc == Gone)
  }

  ghost predicate OwnersOk<T, R>(s: State<T, R>)
  {
    && (s.dropped.Some? ==> s.dropped.value < |s.chans|)
    && (forall c :: 0 <= c < |s.chans| ==> (s.chans[c].kind == Terminator <==> s.dropped == Some(c)))
    && (s.owned && s.dropped.Some? ==> NoHandles(s))
  }

  ghost predicate Inv<T, R>(s: State<T, R>)
  {
    ChansOk(s) && RegistryOk(s) && TrusteeOk(s) && FibersOk(s) && ShutdownOk(s) && OwnersOk(s)
  }

  lemma InvHasPlace<T, R>(s: State<T, R>)
    requires Inv(s)
    ensures RegistryOk(s) && PlaceOk(s)
  {
    hide ChansOk, FibersOk, ShutdownOk, OwnersOk, RegistryOk, PlaceOk;
  }

  lemma InvHasChans<T, R>(s: State<T, R>)
    requires Inv(s)
    ensures ChansOk(s) && FibersOk(s)
  {
    hide ChansOk, FibersOk, TrusteeOk, ShutdownOk, OwnersOk, RegistryOk;
  }

  lemma InitInv<T, R>(owned: bool, v: T)
    ensures Inv(InitState<T, R>(owned, v))
  {
    var s := InitState<T, R>(owned, v);
    assert ChanOk(s.chans[0]) && QuietOk(s.chans[0]);
  }
}
