/** The delegation protocol as a labelled transition system: any number of client
    handles, one trustee, any number of fibers, and the terminator. Every step is one
    access to shared memory, or one local decision, of src/runtime/runtime.rs or
    src/trust/remote.rs; between any two steps anybody else may move. */
module Protocol {
  import opened Wrappers
  import opened Operations
  import opened Schedule

  const DRAIN_LIMIT: nat := 256
  const DRAIN_PERIOD: nat := 16
  const USIZE: nat := 0x1_0000_0000_0000_0000

  /** A flag word (Slots.WordIsPair). */
  datatype Word = Word(ready: bool, count: nat)

  datatype ClientPc =
    | Idle                      // no call in progress
    | Written                   // record written, response word not yet loaded
    | Toggled(ready: bool)      // ready bit chosen, flag not yet stored
    | Waiting(ready: bool)      // in the wait loop
    | Ready                     // saw its own bit, reply not yet read
    | Consumed                  // returned from into_inner; the handle is gone

  datatype Kind = Handle | Terminator

  /** A channel pair, the client that owns it, and the worker's ClientPair for it.
      `sent`, `answered`, `left` and `fiber` are auxiliary: sequence numbers of the last
      request and the last response, executions still owed to the open request, and
      the fiber its launch was handed to. */
  datatype Channel<!T, !R> = Channel(
    kind: Kind, alive: bool, pc: ClientPc,
    req: Word, record: Option<Request<T, R>>,
    resp: Word, data: Reply<T, R>,
    pending: bool, launchReady: bool,
    sent: nat, answered: nat, left: nat, fiber: Option<nat>)

  datatype Job<!T, !R> = Execute(chan: nat, hdr: Request<T, R>, ready: bool) | Shutdown

  datatype FiberPc<!T, !R> =
    | Receiving
    | Running(job: Job<T, R>)
    | Effected(job: Job<T, R>)
    | Finishing
    | Gone

  datatype Fiber<!T, !R> = Fiber(inbox: seq<Job<T, R>>, pc: FiberPc<T, R>)

  datatype Trustee =
    | RoundTop
    | Draining(drained: nat)
    | Visiting(offs: nat)
    | LoadedReq(offs: nat, c: nat, w: Word)
    | LoadedBoth(offs: nat, c: nat, w: Word, v: Word)
    | Serving(offs: nat, c: nat, w: Word, done: nat)
    | Served(offs: nat, c: nat, w: Word)
    | Dispatching(offs: nat, c: nat, w: Word)
    | Sending(offs: nat, c: nat, w: Word, f: nat)
    | MovedOut(c: nat, w: Word)
    | Joining(joined: nat)
    | JoiningTerminator
    | Exited

  datatype TerminatorPc = Unspawned | Polling | Holding(f: nat, last: bool) | Sweeping | Ended

  /** `owned` tells whether the handles own the runtime (Remote::entrust) or the caller
      keeps it (Runtime::spawn). */
  datatype State<!T, !R> = State(
    owned: bool, dropped: Option<nat>,
    chans: seq<Channel<T, R>>, queue: seq<nat>, clients: seq<nat>,
    start: nat, progressed: bool, counter: nat,
    trustee: Trustee, value: T,
    fibers: seq<Fiber<T, R>>, pool: seq<nat>,
    terminator: TerminatorPc, done: bool)

  datatype Step<!T, !R> =
    | Write(c: nat, req: Request<T, R>) | LoadToggle(c: nat) | StoreRequest(c: nat)
    | Poll(c: nat) | ReadBack(c: nat)
    | CloneHandle(c: nat) | DropHandle(c: nat) | Entrust | DropRuntime
    | BeginRound | DrainPop | DrainEnd | LoadReq | LoadResp | Decide
    | ExecRepeat | EndBatch | ExecCall | StoreResponse | EndScan
    | MoveOut | StoreMoved
    | BeginLaunch | PopPool | SendJob | SpawnFiber
    | BeginTerminate | JoinFiber | SetDone | JoinTerminator
    | Receive(f: nat) | FiberEffect(f: nat) | FiberComplete(f: nat) | FiberPush(f: nat)
    | TermPop | TermSend | TermSeeDone | TermEnd

  // ---- initial state -------------------------------------------------------

  function NewChannel<T, R>(kind: Kind): Channel<T, R>
  {
    Channel(kind, true, Idle, Word(false, 0), None, Word(false, 0), Nothing, false, false, 0, 0, 0, None)
  }

  /** One registered handle, an idle worker, no fibers. */
  function InitState<T, R>(owned: bool, v: T): State<T, R>
  {
    State(owned, None, [NewChannel(Handle)], [0], [], 0, false, 0, RoundTop, v, [], [], Unspawned, false)
  }

  function Put<T, R>(s: State<T, R>, c: nat, ch: Channel<T, R>): State<T, R>
    requires c < |s.chans|
  {
    s.(chans := s.chans[c := ch])
  }

  /** Create a channel pair and push it on the registration queue. */
  function Register<T, R>(s: State<T, R>, kind: Kind): State<T, R>
  {
    s.(chans := s.chans + [NewChannel(kind)], queue := s.queue + [|s.chans|])
  }

  // ---- client steps --------------------------------------------------------

  /** A handle sends any operation but Terminate (batches count in a u8); the channel
      Runtime::drop registers sends Terminate, and never reads an answer. */
  ghost predicate MaySend<T, R>(ch: Channel<T, R>, req: Request<T, R>)
  {
    && ch.alive && ch.pc == Idle
    && (ch.kind == Terminator <==> req.Terminate?)
    && (req.CallMutRetUnit? ==> req.repeat < 256)
  }

  ghost predicate DoWrite<T, R>(s: State<T, R>, c: nat, req: Request<T, R>, s': State<T, R>)
  {
    && c < |s.chans| && MaySend(s.chans[c], req)
    && s' == Put(s, c, s.chans[c].(record := Some(req), pc := Written))
  }

  ghost predicate DoLoadToggle<T, R>(s: State<T, R>, c: nat, s': State<T, R>)
  {
    && c < |s.chans| && s.chans[c].pc == Written
    && s' == Put(s, c, s.chans[c].(pc := Toggled(!s.chans[c].resp.ready)))
  }

  ghost predicate DoStoreRequest<T, R>(s: State<T, R>, c: nat, s': State<T, R>)
  {
    && c < |s.chans| && s.chans[c].pc.Toggled? && s.chans[c].record.Some?
    && var ch := s.chans[c];
       s' == Put(s, c, ch.(req := Word(ch.pc.ready, 1), pc := Waiting(ch.pc.ready),
                           sent := ch.sent + 1, left := Repeats(ch.record.value)))
  }

  /** One turn of the wait loop. Runtime::drop joins the worker instead. */
  ghost predicate DoPoll<T, R>(s: State<T, R>, c: nat, s': State<T, R>)
  {
    && c < |s.chans| && s.chans[c].pc.Waiting? && s.chans[c].kind == Handle
    && var ch := s.chans[c];
       s' == if ch.resp.ready == ch.pc.ready then Put(s, c, ch.(pc := Ready)) else s
  }

  /** Read the reply and return; into_inner consumes the handle. */
  ghost predicate DoReadBack<T, R>(s: State<T, R>, c: nat, s': State<T, R>)
  {
    && c < |s.chans| && s.chans[c].pc == Ready && s.chans[c].record.Some?
    && s' == Put(s, c, s.chans[c].(pc := if s.chans[c].record.value.IntoInner? then Consumed else Idle))
  }

  ghost predicate DoClone<T, R>(s: State<T, R>, c: nat, s': State<T, R>)
  {
    && c < |s.chans| && s.chans[c].kind == Handle && s.chans[c].alive && s.chans[c].pc == Idle
    && s' == Register(s, Handle)
  }

  ghost predicate DoDropHandle<T, R>(s: State<T, R>, c: nat, s': State<T, R>)
  {
    && c < |s.chans| && s.chans[c].kind == Handle && s.chans[c].alive && s.chans[c].pc in {Idle, Consumed}
    && s' == Put(s, c, s.chans[c].(alive := false))
  }

  /** Runtime::entrust, by a caller who has the runtime or a clone of it, which may outlive
      the one with the worker. */
  ghost predicate DoEntrust<T, R>(s: State<T, R>, s': State<T, R>)
  {
    !s.owned && s' == Register(s, Handle)
  }

  ghost predicate NoHandles<T, R>(s: State<T, R>)
  {
    forall c :: 0 <= c < |s.chans| && s.chans[c].kind == Handle ==> !s.chans[c].alive
  }

  /** The first half of Runtime::drop; the rest are the client steps of the new channel.
      That it runs once, and with handles that own the runtime only after the last of
      them, is not assumed but derived from the reference counts in module Ownership. */
  ghost predicate DoDropRuntime<T, R>(s: State<T, R>, s': State<T, R>)
  {
    && s.dropped == None && (s.owned ==> NoHandles(s))
    && s' == Register(s, Terminator).(dropped := Some(|s.chans|))
  }

  // ---- trustee steps: rounds, registration, scan ---------------------------

  function Advance<T, R>(s: State<T, R>, offs: nat): State<T, R>
  {
    s.(trustee := Visiting(offs + 1))
  }

  /** The end of a visit that served or dispatched. */
  function Progress<T, R>(s: State<T, R>, offs: nat, c: nat): State<T, R>
    requires s.clients != []
  {
    s.(progressed := true, start := NextStart(c, |s.clients|), trustee := Visiting(offs + 1))
  }

  predicate DrainDue<T, R>(s: State<T, R>)
  {
    s.clients == [] || s.counter % DRAIN_PERIOD == 0
  }

  function BeginScan<T, R>(s: State<T, R>): State<T, R>
  {
    if s.clients == [] then s.(trustee := RoundTop) else s.(trustee := Visiting(0), progressed := false)
  }

  ghost predicate DoBeginRound<T, R>(s: State<T, R>, s': State<T, R>)
  {
    && s.trustee == RoundTop
    && var t := s.(counter := (s.counter + 1) % USIZE);
       s' == if DrainDue(t) then t.(trustee := Draining(0)) else BeginScan(t)
  }

  ghost predicate DoDrainPop<T, R>(s: State<T, R>, s': State<T, R>)
  {
    && s.trustee.Draining? && s.trustee.drained < DRAIN_LIMIT && s.queue != []
    && s' == s.(clients := s.clients + [s.queue[0]], queue := s.queue[1..],
                trustee := Draining(s.trustee.drained + 1))
  }

  ghost predicate DoDrainEnd<T, R>(s: State<T, R>, s': State<T, R>)
  {
    && s.trustee.Draining? && (s.trustee.drained >= DRAIN_LIMIT || s.queue == [])
    && s' == BeginScan(s)
  }

  ghost predicate DoLoadReq<T, R>(s: State<T, R>, s': State<T, R>)
  {
    && s.trustee.Visiting? && s.trustee.offs < |s.clients| && s.start < |s.clients|
    && var c := s.clients[VisitIndex(s.start, s.trustee.offs, |s.clients|)];
       c < |s.chans| && s' == s.(trustee := LoadedReq(s.trustee.offs, c, s.chans[c].req))
  }

  ghost predicate DoLoadResp<T, R>(s: State<T, R>, s': State<T, R>)
  {
    && s.trustee.LoadedReq? && s.trustee.c < |s.chans|
    && var t := s.trustee;
       s' == s.(trustee := LoadedBoth(t.offs, t.c, t.w, s.chans[t.c].resp))
  }

  ghost predicate DoDecide<T, R>(s: State<T, R>, s': State<T, R>)
  {
    && s.trustee.LoadedBoth? && s.trustee.c < |s.chans|
    && var t := s.trustee;
       var ch := s.chans[t.c];
       s' == match Classify(ch.pending, ch.launchReady, t.w.ready, t.v.ready)
             case StillRunning => Advance(s, t.offs)
             case Settled => Advance(Put(s, t.c, ch.(pending := false)), t.offs)
             case Serve => Put(s, t.c, ch.(pending := false)).(trustee := Serving(t.offs, t.c, t.w, 0))
  }

  ghost predicate DoEndScan<T, R>(s: State<T, R>, s': State<T, R>)
  {
    && s.trustee.Visiting? && s.trustee.offs >= |s.clients|
    && s' == s.(trustee := RoundTop)
  }

  // ---- trustee steps: executing a record ------------------------------------

  /** The record being served; the word loaded announces one. */
  ghost predicate AtRecord<T, R>(s: State<T, R>)
  {
    && s.trustee.Serving? && s.trustee.c < |s.chans|
    && s.trustee.w.count == 1 && s.chans[s.trustee.c].record.Some?
  }

  ghost predicate DoExecRepeat<T, R>(s: State<T, R>, s': State<T, R>)
  {
    && AtRecord(s)
    && var t := s.trustee;
       var ch := s.chans[t.c];
       && ch.record.value.CallMutRetUnit? && t.done < ch.record.value.repeat && ch.left > 0
       && s' == Put(s, t.c, ch.(left := ch.left - 1))
                .(value := Apply(ch.record.value, s.value).0, trustee := t.(done := t.done + 1))
  }

  ghost predicate DoEndBatch<T, R>(s: State<T, R>, s': State<T, R>)
  {
    && AtRecord(s)
    && var t := s.trustee;
       var req := s.chans[t.c].record.value;
       && req.CallMutRetUnit? && t.done >= req.repeat
       && s' == s.(trustee := Served(t.offs, t.c, t.w))
  }

  /** CallMutOutPtr and CallMutArgsOutPtr: the closure writes its result behind the flag word. */
  ghost predicate DoExecCall<T, R>(s: State<T, R>, s': State<T, R>)
  {
    && AtRecord(s)
    && var t := s.trustee;
       var ch := s.chans[t.c];
       && (ch.record.value.CallMutOutPtr? || ch.record.value.CallMutArgsOutPtr?)
       && s' == Put(s, t.c, ch.(data := Apply(ch.record.value, s.value).1, left := 0))
                .(value := Apply(ch.record.value, s.value).0, trustee := Served(t.offs, t.c, t.w))
  }

  ghost predicate DoStoreResponse<T, R>(s: State<T, R>, s': State<T, R>)
  {
    && s.trustee.Served? && s.trustee.c < |s.chans| && s.clients != []
    && var t := s.trustee;
       var ch := s.chans[t.c];
       s' == Progress(Put(s, t.c, ch.(resp := Word(t.w.ready, 1), answered := ch.answered + 1)), t.offs, t.c)
  }

  ghost predicate DoMoveOut<T, R>(s: State<T, R>, s': State<T, R>)
  {
    && AtRecord(s)
    && var t := s.trustee;
       var ch := s.chans[t.c];
       && ch.record.value.IntoInner?
       && s' == Put(s, t.c, ch.(data := Inner(s.value), left := 0)).(trustee := MovedOut(t.c, t.w))
  }

  /** The reply goes out under the ready bit of a second load of the request word. */
  ghost predicate DoStoreMoved<T, R>(s: State<T, R>, s': State<T, R>)
  {
    && s.trustee.MovedOut? && s.trustee.c < |s.chans|
    && var ch := s.chans[s.trustee.c];
       s' == Put(s, s.trustee.c, ch.(resp := Word(ch.req.ready, 1), answered := ch.answered + 1))
             .(trustee := Exited)
  }

  // ---- trustee steps: launching ---------------------------------------------

  ghost predicate DoBeginLaunch<T, R>(s: State<T, R>, s': State<T, R>)
  {
    && AtRecord(s)
    && var t := s.trustee;
       var ch := s.chans[t.c];
       && ch.record.value.Launch?
       && s' == Put(s, t.c, ch.(pending := true, launchReady := t.w.ready))
                .(trustee := Dispatching(t.offs, t.c, t.w))
  }

  ghost predicate DoPopPool<T, R>(s: State<T, R>, s': State<T, R>)
  {
    && s.trustee.Dispatching? && s.pool != []
    && var t := s.trustee;
       s' == s.(pool := s.pool[1..], trustee := Sending(t.offs, t.c, t.w, s.pool[0]))
  }

  /** Hand the job to fiber `f` and finish the visit. */
  function Dispatched<T, R>(s: State<T, R>, offs: nat, c: nat, f: nat): State<T, R>
    requires c < |s.chans| && s.clients != []
  {
    Progress(Put(s, c, s.chans[c].(fiber := Some(f))), offs, c)
  }

  /** A send to a fiber that is gone gives the job back, and the loop pops again. */
  ghost predicate DoSendJob<T, R>(s: State<T, R>, s': State<T, R>)
  {
    && s.trustee.Sending? && s.trustee.c < |s.chans| && s.trustee.f < |s.fibers|
    && s.clients != [] && s.chans[s.trustee.c].record.Some?
    && var t := s.trustee;
       var fb := s.fibers[t.f];
       var job := Execute(t.c, s.chans[t.c].record.value, t.w.ready);
       s' == if fb.pc == Gone then s.(trustee := Dispatching(t.offs, t.c, t.w))
             else Dispatched(s, t.offs, t.c, t.f).(fibers := s.fibers[t.f := fb.(inbox := fb.inbox + [job])])
  }

  ghost predicate DoSpawnFiber<T, R>(s: State<T, R>, s': State<T, R>)
  {
    && s.trustee.Dispatching? && s.trustee.c < |s.chans| && s.pool == []
    && s.clients != [] && s.chans[s.trustee.c].record.Some?
    && var t := s.trustee;
       var job := Execute(t.c, s.chans[t.c].record.value, t.w.ready);
       s' == Dispatched(s, t.offs, t.c, |s.fibers|).(fibers := s.fibers + [Fiber([job], Receiving)])
  }

  // ---- trustee steps: terminating -------------------------------------------

  ghost predicate DoBeginTerminate<T, R>(s: State<T, R>, s': State<T, R>)
  {
    && AtRecord(s) && s.chans[s.trustee.c].record.value.Terminate?
    && s' == s.(trustee := Joining(0), terminator := Polling)
  }

  ghost predicate DoJoinFiber<T, R>(s: State<T, R>, s': State<T, R>)
  {
    && s.trustee.Joining? && s.trustee.joined < |s.fibers| && s.fibers[s.trustee.joined].pc == Gone
    && s' == s.(trustee := Joining(s.trustee.joined + 1))
  }

  ghost predicate DoSetDone<T, R>(s: State<T, R>, s': State<T, R>)
  {
    && s.trustee.Joining? && s.trustee.joined >= |s.fibers|
    && s' == s.(trustee := JoiningTerminator, done := true)
  }

  ghost predicate DoJoinTerminator<T, R>(s: State<T, R>, s': State<T, R>)
  {
    && s.trustee == JoiningTerminator && s.terminator == Ended
    && s' == s.(trustee := Exited)
  }

  // ---- fiber steps ----------------------------------------------------------

  ghost predicate DoReceive<T, R>(s: State<T, R>, f: nat, s': State<T, R>)
  {
    && f < |s.fibers| && s.fibers[f].pc == Receiving && s.fibers[f].inbox != []
    && var fb := s.fibers[f];
       var job := fb.inbox[0];
       s' == s.(fibers := s.fibers[f := Fiber(fb.inbox[1..], if job.Shutdown? then Gone else Running(job))])
  }

  /** The closure runs and writes its result behind the flag word. */
  ghost predicate DoFiberEffect<T, R>(s: State<T, R>, f: nat, s': State<T, R>)
  {
    && f < |s.fibers| && s.fibers[f].pc.Running? && s.fibers[f].pc.job.Execute?
    && var job := s.fibers[f].pc.job;
       && job.chan < |s.chans|
       && s' == Put(s, job.chan, s.chans[job.chan].(data := Apply(job.hdr, s.value).1, left := 0))
                .(value := Apply(job.hdr, s.value).0,
                  fibers := s.fibers[f := s.fibers[f].(pc := Effected(job))])
  }

  /** The completion guard drops. */
  ghost predicate DoFiberComplete<T, R>(s: State<T, R>, f: nat, s': State<T, R>)
  {
    && f < |s.fibers| && s.fibers[f].pc.Effected? && s.fibers[f].pc.job.Execute?
    && var job := s.fibers[f].pc.job;
       && job.chan < |s.chans|
       && var ch := s.chans[job.chan];
          s' == Put(s, job.chan, ch.(resp := Word(job.ready, 1), answered := ch.answered + 1, fiber := None))
                .(fibers := s.fibers[f := s.fibers[f].(pc := Finishing)])
  }

  ghost predicate DoFiberPush<T, R>(s: State<T, R>, f: nat, s': State<T, R>)
  {
    && f < |s.fibers| && s.fibers[f].pc == Finishing
    && s' == s.(pool := s.pool + [f], fibers := s.fibers[f := s.fibers[f].(pc := Receiving)])
  }

  // ---- the terminator -------------------------------------------------------

  ghost predicate DoTermPop<T, R>(s: State<T, R>, s': State<T, R>)
  {
    && s.terminator in {Polling, Sweeping} && s.pool != []
    && s' == s.(pool := s.pool[1..], terminator := Holding(s.pool[0], s.terminator == Sweeping))
  }

  /** A failed send is ignored. */
  ghost predicate DoTermSend<T, R>(s: State<T, R>, s': State<T, R>)
  {
    && s.terminator.Holding? && s.terminator.f < |s.fibers|
    && var f := s.terminator.f;
       var fb := s.fibers[f];
       var back := if s.terminator.last then Sweeping else Polling;
       s' == if fb.pc == Gone then s.(terminator := back)
             else s.(terminator := back, fibers := s.fibers[f := fb.(inbox := fb.inbox + [Shutdown])])
  }

  ghost predicate DoTermSeeDone<T, R>(s: State<T, R>, s': State<T, R>)
  {
    s.terminator == Polling && s.done && s' == s.(terminator := Sweeping)
  }

  ghost predicate DoTermEnd<T, R>(s: State<T, R>, s': State<T, R>)
  {
    s.terminator == Sweeping && s.pool == [] && s' == s.(terminator := Ended)
  }

  ghost predicate Next<T, R>(s: State<T, R>, step: Step<T, R>, s': State<T, R>)
  {
    match step
    case Write(c, req) => DoWrite(s, c, req, s')
    case LoadToggle(c) => DoLoadToggle(s, c, s')
    case StoreRequest(c) => DoStoreRequest(s, c, s')
    case Poll(c) => DoPoll(s, c, s')
    case ReadBack(c) => DoReadBack(s, c, s')
    case CloneHandle(c) => DoClone(s, c, s')
    case DropHandle(c) => DoDropHandle(s, c, s')
    case Entrust => DoEntrust(s, s')
    case DropRuntime => DoDropRuntime(s, s')
    case BeginRound => DoBeginRound(s, s')
    case DrainPop => DoDrainPop(s, s')
    case DrainEnd => DoDrainEnd(s, s')
    case LoadReq => DoLoadReq(s, s')
    case LoadResp => DoLoadResp(s, s')
    case Decide => DoDecide(s, s')
    case ExecRepeat => DoExecRepeat(s, s')
    case EndBatch => DoEndBatch(s, s')
    case ExecCall => DoExecCall(s, s')
    case StoreResponse => DoStoreResponse(s, s')
    case EndScan => DoEndScan(s, s')
    case MoveOut => DoMoveOut(s, s')
    case StoreMoved => DoStoreMoved(s, s')
    case BeginLaunch => DoBeginLaunch(s, s')
    case PopPool => DoPopPool(s, s')
    case SendJob => DoSendJob(s, s')
    case SpawnFiber => DoSpawnFiber(s, s')
    case BeginTerminate => DoBeginTerminate(s, s')
    case JoinFiber => DoJoinFiber(s, s')
    case SetDone => DoSetDone(s, s')
    case JoinTerminator => DoJoinTerminator(s, s')
    case Receive(f) => DoReceive(s, f, s')
    case FiberEffect(f) => DoFiberEffect(s, f, s')
    case FiberComplete(f) => DoFiberComplete(s, f, s')
    case FiberPush(f) => DoFiberPush(s, f, s')
    case TermPop => DoTermPop(s, s')
    case TermSend => DoTermSend(s, s')
    case TermSeeDone => DoTermSeeDone(s, s')
    case TermEnd => DoTermEnd(s, s')
  }
}
