/** The protocol over real slots: in any run, the bytes in the request slots are the records
    and words that the protocol speaks of, so what the trustee decodes is what the client wrote. */
module SlotRuns {
  import opened Wrappers
  import opened Bytes
  import opened Slots
  import opened Records
  import opened Operations
  import P = Protocol
  import opened Refinement
  import opened Summary
  import ClientSteps
  import TrusteeSteps
  import Runs
  import Codec
  import I = Invariant

  /** How requests are encoded and where the slots are: the record of each request, the
      address of each channel's request slot, and the vtables. */
  datatype Layout<!T, !R> = Layout(enc: Request<T, R> -> Record, base: nat -> nat, vtables: nat -> VTable)

  /** Every vtable knows the size of the environments encoded with it. */
  ghost predicate Sound<T(!new), R(!new)>(l: Layout<T, R>)
  {
    forall req: Request<T, R> :: l.vtables(l.enc(req).vtable).envSize == |l.enc(req).env|
  }

  predicate WordIs(slot: seq<byte>, w: P.Word)
    requires |slot| == SLOT_BYTES
  {
    LoadWord(slot) < U32 && Ready(LoadWord(slot)) == w.ready && Count(LoadWord(slot)) == w.count
  }

  /** One request slot per channel. */
  ghost predicate Slotted<T, R>(s: P.State<T, R>, mem: seq<seq<byte>>)
  {
    |mem| == |s.chans| && forall c :: 0 <= c < |mem| ==> |mem[c]| == SLOT_BYTES
  }

  ghost predicate OnlyAt(mem: seq<seq<byte>>, c: nat, mem': seq<seq<byte>>)
  {
    && c < |mem| == |mem'| && |mem[c]| == |mem'[c]| == SLOT_BYTES
    && forall d :: 0 <= d < |mem| && d != c ==> mem'[d] == mem[d]
  }

  /** What a step does to the slots. Writing a record leaves the flag bytes and puts the
      record behind them (Records.WriteRecord); storing the flag leaves all but the flag bytes
      (Records.Publish); a new channel has a zero word; nobody else writes a request slot. */
  ghost predicate MemStep<T, R>(l: Layout<T, R>, s: P.State<T, R>, step: P.Step<T, R>,
                                mem: seq<seq<byte>>, mem': seq<seq<byte>>)
  {
    match step
    case Write(c, req) =>
      OnlyAt(mem, c, mem') && mem'[c][..HEADER_BYTES] == mem[c][..HEADER_BYTES] && Holds(mem'[c], l.base(c), l.enc(req))
    case StoreRequest(c) =>
      && OnlyAt(mem, c, mem') && mem'[c][HEADER_BYTES..] == mem[c][HEADER_BYTES..]
      && c < |s.chans| && s.chans[c].pc.Toggled? && WordIs(mem'[c], P.Word(s.chans[c].pc.ready, 1))
    case _ =>
      if Registers(step) then
        |mem'| == |mem| + 1 && mem'[..|mem|] == mem && |mem'[|mem|]| == SLOT_BYTES && WordIs(mem'[|mem|], P.Word(false, 0))
      else mem' == mem
  }

  /** The slot of a channel holds the channel's word and record. */
  ghost predicate SlotOk<T, R>(l: Layout<T, R>, c: nat, ch: P.Channel<T, R>, slot: seq<byte>)
    requires |slot| == SLOT_BYTES
  {
    WordIs(slot, ch.req) && (ch.record.Some? ==> Holds(slot, l.base(c), l.enc(ch.record.value)))
  }

  ghost predicate MemOk<T, R>(l: Layout<T, R>, s: P.State<T, R>, mem: seq<seq<byte>>)
  {
    Slotted(s, mem) && forall c :: 0 <= c < |mem| ==> SlotOk(l, c, s.chans[c], mem[c])
  }

  lemma WriteOk<T, R>(l: Layout<T, R>, s: P.State<T, R>, c: nat, req: Request<T, R>, s': P.State<T, R>,
                      mem: seq<seq<byte>>, mem': seq<seq<byte>>)
    requires P.DoWrite(s, c, req, s') && MemOk(l, s, mem) && MemStep(l, s, P.Write(c, req), mem, mem')
    ensures MemOk(l, s', mem')
  {
    hide Holds, Ready, Count;
    forall d | 0 <= d < |mem'| ensures |mem'[d]| == SLOT_BYTES && SlotOk(l, d, s'.chans[d], mem'[d]) {
      assert SlotOk(l, d, s.chans[d], mem[d]);
    }
  }

  lemma StoreOk<T, R>(l: Layout<T, R>, s: P.State<T, R>, c: nat, s': P.State<T, R>,
                      mem: seq<seq<byte>>, mem': seq<seq<byte>>)
    requires P.DoStoreRequest(s, c, s') && MemOk(l, s, mem) && MemStep<T, R>(l, s, P.StoreRequest(c), mem, mem')
    ensures MemOk(l, s', mem')
  {
    hide Holds, Ready, Count, LoadWord;
    assert SlotOk(l, c, s.chans[c], mem[c]);
    HoldsKept(mem[c], mem'[c], l.base(c), l.enc(s.chans[c].record.value));
    forall d | 0 <= d < |mem'| ensures |mem'[d]| == SLOT_BYTES && SlotOk(l, d, s'.chans[d], mem'[d]) {
      assert d != c ==> SlotOk(l, d, s.chans[d], mem[d]);
    }
  }

  /** The client's side of every channel is as before. */
  ghost predicate SidesSame<T, R>(s: P.State<T, R>, s': P.State<T, R>)
  {
    && |s'.chans| == |s.chans|
    && forall c :: 0 <= c < |s.chans| ==> s'.chans[c].req == s.chans[c].req && s'.chans[c].record == s.chans[c].record
  }

  lemma OthersKeepSides<T, R>(s: P.State<T, R>, step: P.Step<T, R>, s': P.State<T, R>)
    requires P.Next(s, step, s') && !step.Write? && !step.StoreRequest? && !Registers(step)
    ensures SidesSame(s, s')
  {
    hide P.Next;
    if ClientSteps.ClientStep(step) {
      ClientSummary(s, step, s');
    } else if Planning(step) {
      PlanningSame(s, step, s');
    } else if TrusteeSteps.ServiceStep(step) {
      ServiceSummary(s, step, s');
    } else {
      OtherSummary(s, step, s');
    }
  }

  lemma RegisterOk<T, R>(l: Layout<T, R>, s: P.State<T, R>, step: P.Step<T, R>, s': P.State<T, R>,
                         mem: seq<seq<byte>>, mem': seq<seq<byte>>)
    requires P.Next(s, step, s') && Registers(step) && MemOk(l, s, mem) && MemStep(l, s, step, mem, mem')
    ensures MemOk(l, s', mem')
  {
    hide P.Next, Holds, WordIs;
    ClientSummary(s, step, s');
    forall d | 0 <= d < |mem'| ensures |mem'[d]| == SLOT_BYTES && SlotOk(l, d, s'.chans[d], mem'[d]) {
      if d < |mem| {
        assert mem'[d] == mem'[..|mem|][d] && s'.chans[d] == s'.chans[..|s.chans|][d];
        assert SlotOk(l, d, s.chans[d], mem[d]);
      }
    }
  }

  lemma MemStepOk<T, R>(l: Layout<T, R>, s: P.State<T, R>, step: P.Step<T, R>, s': P.State<T, R>,
                        mem: seq<seq<byte>>, mem': seq<seq<byte>>)
    requires P.Next(s, step, s') && MemOk(l, s, mem) && MemStep(l, s, step, mem, mem')
    ensures MemOk(l, s', mem')
  {
    assert step.Write? ==> P.DoWrite(s, step.c, step.req, s');
    assert step.StoreRequest? ==> P.DoStoreRequest(s, step.c, s');
    hide P.Next, P.DoWrite, P.DoStoreRequest, SlotOk;
    if step.Write? {
      hide MemOk, MemStep;
      WriteOk(l, s, step.c, step.req, s', mem, mem');
    } else if step.StoreRequest? {
      hide MemOk, MemStep;
      StoreOk(l, s, step.c, s', mem, mem');
    } else if Registers(step) {
      hide MemOk, MemStep;
      RegisterOk(l, s, step, s', mem, mem');
    } else {
      OthersKeepSides(s, step, s');
      SidesOk(l, s, s', mem);
    }
  }

  lemma SidesOk<T, R>(l: Layout<T, R>, s: P.State<T, R>, s': P.State<T, R>, mem: seq<seq<byte>>)
    requires SidesSame(s, s') && MemOk(l, s, mem)
    ensures MemOk(l, s', mem)
  {
    hide Holds, WordIs;
    forall d | 0 <= d < |mem| ensures SlotOk(l, d, s'.chans[d], mem[d]) {
      assert SlotOk(l, d, s.chans[d], mem[d]);
    }
  }

  // ---- whole runs ------------------------------------------------------------------------

  /** A run of the protocol together with its request slots. */
  ghost predicate SlotRun<T, R>(l: Layout<T, R>, v: T, states: seq<P.State<T, R>>, steps: seq<P.Step<T, R>>,
                                mems: seq<seq<seq<byte>>>)
  {
    && Run(v, states, steps) && |mems| == |states| == |steps| + 1
    && |mems[0]| == 1 && |mems[0][0]| == SLOT_BYTES && WordIs(mems[0][0], P.Word(false, 0))
    && forall i :: 0 <= i < |steps| ==> MemStep(l, states[i], steps[i], mems[i], mems[i + 1])
  }

  lemma {:induction false} SlotsAgree<T, R>(l: Layout<T, R>, v: T, states: seq<P.State<T, R>>, steps: seq<P.Step<T, R>>,
                                            mems: seq<seq<seq<byte>>>, n: nat)
    requires SlotRun(l, v, states, steps, mems) && n < |states|
    ensures MemOk(l, states[n], mems[n])
    decreases n
  {
    hide P.Next, Holds, WordIs, MemStep;
    if n > 0 {
      SlotsAgree(l, v, states, steps, mems, n - 1);
      assert MemStep(l, states[n - 1], steps[n - 1], mems[n - 1], mems[n]);
      RunStep(v, states, steps, n - 1);
      hide Run, MemOk;
      MemStepOk(l, states[n - 1], steps[n - 1], states[n], mems[n - 1], mems[n]);
    }
  }

  /** Whenever the trustee is at a record, from its decision to the last execution, the record
      it decodes from the slot is the one the client wrote for this request, and the word it
      loaded is the one in the slot: an abstract request stands for its bytes. */
  lemma TrusteeDecodesRequest<T(!new), R(!new)>(l: Layout<T, R>, v: T, states: seq<P.State<T, R>>,
                                                steps: seq<P.Step<T, R>>, mems: seq<seq<seq<byte>>>, n: nat)
    requires SlotRun(l, v, states, steps, mems) && Sound(l) && n < |states| && P.AtRecord(states[n])
    ensures var s := states[n];
            var c := s.trustee.c;
            && c < |mems[n]| && |mems[n][c]| == SLOT_BYTES
            && WordIs(mems[n][c], s.trustee.w)
            && ReadRecord(mems[n][c], l.base(c), l.vtables) == Some(l.enc(s.chans[c].record.value))
  {
    SlotsAgree(l, v, states, steps, mems, n);
    ReachableInv(v, states, steps, n);
    var s, c := states[n], states[n].trustee.c;
    hide Run, P.Next, Holds, ReadRecord, WordIs, MemStep;
    LoadedIsCurrent(s);
    assert SlotOk(l, c, s.chans[c], mems[n][c]);
    FlagIsSeparate(mems[n][c], mems[n][c], l.base(c), l.vtables, l.enc(s.chans[c].record.value));
  }

  lemma LoadedIsCurrent<T, R>(s: P.State<T, R>)
    requires I.Inv(s) && s.trustee.Serving?
    ensures s.trustee.c < |s.chans| && s.trustee.w == s.chans[s.trustee.c].req
  {
    hide I.ChansOk, I.FibersOk, I.ShutdownOk, I.OwnersOk, I.RegistryOk;
  }

  /** And a job handed to a fiber carries a copy of the record that the slot still holds when
      it runs. */
  lemma FiberDecodesRequest<T(!new), R(!new)>(l: Layout<T, R>, v: T, states: seq<P.State<T, R>>,
                                              steps: seq<P.Step<T, R>>, mems: seq<seq<seq<byte>>>, n: nat, f: nat)
    requires SlotRun(l, v, states, steps, mems) && Sound(l) && n < |states|
    requires f < |states[n].fibers| && states[n].fibers[f].pc.Running? && states[n].fibers[f].pc.job.Execute?
    ensures var job := states[n].fibers[f].pc.job;
            && job.chan < |mems[n]| && |mems[n][job.chan]| == SLOT_BYTES
            && ReadRecord(mems[n][job.chan], l.base(job.chan), l.vtables) == Some(l.enc(job.hdr))
  {
    SlotsAgree(l, v, states, steps, mems, n);
    ReachableInv(v, states, steps, n);
    var s, job := states[n], states[n].fibers[f].pc.job;
    hide Run, P.Next, Holds, ReadRecord, WordIs, MemStep;
    JobIsRecord(s, f);
    assert SlotOk(l, job.chan, s.chans[job.chan], mems[n][job.chan]);
    FlagIsSeparate(mems[n][job.chan], mems[n][job.chan], l.base(job.chan), l.vtables, l.enc(job.hdr));
  }

  lemma JobIsRecord<T, R>(s: P.State<T, R>, f: nat)
    requires I.Inv(s) && f < |s.fibers| && s.fibers[f].pc.Running? && s.fibers[f].pc.job.Execute?
    ensures var job := s.fibers[f].pc.job; job.chan < |s.chans| && s.chans[job.chan].record == Some(job.hdr)
  {
    assert I.FiberOk(s, f);
  }

  // ---- what the bytes make the trustee do -----------------------------------------------

  /** The code behind the vtables: what each does to the property with an environment and
      argument bytes. */
  datatype Shims<!T, !R> = Shims(unit: (nat, seq<byte>, T) -> T, call: (nat, seq<byte>, T, seq<byte>) -> (T, R))

  /** The record of a request stands for it: its tag, count and argument bytes, and an
      environment on which the code behind the vtable acts as the closure. */
  ghost predicate Stands<T(!new), R(!new)>(l: Layout<T, R>, shims: Shims<T, R>, req: Request<T, R>)
  {
    var r := l.enc(req);
    match req
    case CallMutRetUnit(f, n) =>
      r.property == Codec.CallMutRetUnit && r.repeat == n && forall v: T :: shims.unit(r.vtable, r.env, v) == f(v)
    case CallMutOutPtr(g) =>
      r.property == Codec.CallMutOutPtr && forall v: T :: shims.call(r.vtable, r.env, v, r.args) == g(v)
    case CallMutArgsOutPtr(h, args) =>
      && r.property == Codec.CallMutArgsOutPtr && r.args == args
      && forall v: T, a: seq<byte> :: shims.call(r.vtable, r.env, v, a) == h(v, a)
    case IntoInner => r.property == Codec.IntoInner
    case Launch(g) => r.property == Codec.Launch && forall v: T :: shims.call(r.vtable, r.env, v, r.args) == g(v)
    case Terminate => r.property == Codec.Terminate
  }

  /** One execution of a decoded record. */
  ghost predicate Ran<T, R>(shims: Shims<T, R>, r: Record, v: T, v': T, reply: Reply<T, R>)
  {
    match r.property
    case CallMutRetUnit => v' == shims.unit(r.vtable, r.env, v)
    case CallMutOutPtr => reply.Result? && (v', reply.r) == shims.call(r.vtable, r.env, v, r.args)
    case CallMutArgsOutPtr => reply.Result? && (v', reply.r) == shims.call(r.vtable, r.env, v, r.args)
    case IntoInner => v' == v && reply == Inner(v)
    case Launch => reply.Result? && (v', reply.r) == shims.call(r.vtable, r.env, v, r.args)
    case Terminate => v' == v
  }

  lemma StandsRan<T(!new), R(!new)>(l: Layout<T, R>, shims: Shims<T, R>, req: Request<T, R>, v: T, v': T, reply: Reply<T, R>,
                                    data: Reply<T, R>)
    requires Stands(l, shims, req) && Executes(req, v, v', reply) && (!req.CallMutRetUnit? ==> reply == data)
    ensures Ran(shims, l.enc(req), v, v', data)
  {
  }

  /** The record read at channel c. */
  ghost predicate Reads<T, R>(l: Layout<T, R>, mem: seq<seq<byte>>, c: nat, r: Record)
  {
    c < |mem| && |mem[c]| == SLOT_BYTES && ReadRecord(mem[c], l.base(c), l.vtables) == Some(r)
  }

  lemma SlotReads<T(!new), R(!new)>(l: Layout<T, R>, s: P.State<T, R>, mem: seq<seq<byte>>, c: nat, req: Request<T, R>)
    requires Sound(l) && MemOk(l, s, mem) && c < |s.chans| && s.chans[c].record == Some(req)
    ensures Reads(l, mem, c, l.enc(req))
  {
    hide Holds, ReadRecord, WordIs;
    assert SlotOk(l, c, s.chans[c], mem[c]);
    FlagIsSeparate(mem[c], mem[c], l.base(c), l.vtables, l.enc(req));
  }

  /** Every execution in a run, by the trustee or by a fiber, is the one the bytes then in
      the slot describe, if the requests written were encoded as records that stand for them. */
  lemma ExecutesDecoded<T(!new), R(!new)>(l: Layout<T, R>, shims: Shims<T, R>, v: T, states: seq<P.State<T, R>>,
                                          steps: seq<P.Step<T, R>>, mems: seq<seq<seq<byte>>>, n: nat)
    returns (c: nat, r: Record)
    requires SlotRun(l, v, states, steps, mems) && Sound(l) && n < |steps| && LabelOf(states[n], steps[n]).Effect?
    requires forall k :: 0 <= k < n && steps[k].Write? ==> Stands(l, shims, steps[k].req)
    ensures c == LabelOf(states[n], steps[n]).c && Reads(l, mems[n], c, r)
    ensures c < |states[n + 1].chans| && Ran(shims, r, states[n].value, states[n + 1].value, states[n + 1].chans[c].data)
  {
    hide Run, P.Next, I.Inv, LabelOf, MemStep, MemOk, Stands, Ran, Executes, Reads;
    SlotsAgree(l, v, states, steps, mems, n);
    ReachableInv(v, states, steps, n);
    RunStep(v, states, steps, n);
    Runs.EffectExecutes(states[n], steps[n], states[n + 1]);
    c := LabelOf(states[n], steps[n]).c;
    var req := states[n].chans[c].record.value;
    SlotReads(l, states[n], mems[n], c, req);
    Runs.RecordsAreWritten((q: Request<T, R>) => Stands(l, shims, q), v, states, steps, n);
    StandsRan(l, shims, req, states[n].value, states[n + 1].value,
              if req.CallMutRetUnit? then Nothing else states[n + 1].chans[c].data, states[n + 1].chans[c].data);
    r := l.enc(req);
  }

  /** In particular a call with arguments gets those the trustee finds in the slot. */
  lemma CallGetsSlotBytes<T(!new), R(!new)>(l: Layout<T, R>, v: T, states: seq<P.State<T, R>>, steps: seq<P.Step<T, R>>,
                                            mems: seq<seq<seq<byte>>>, n: nat, h: (T, seq<byte>) -> (T, R), args: seq<byte>)
    returns (bytes: seq<byte>)
    requires SlotRun(l, v, states, steps, mems) && Sound(l) && n < |steps| && steps[n].ExecCall?
    requires P.AtRecord(states[n]) && states[n].chans[states[n].trustee.c].record == Some(CallMutArgsOutPtr(h, args))
    requires l.enc(CallMutArgsOutPtr(h, args)).args == args
    ensures var c := states[n].trustee.c;
            && c < |mems[n]| && |mems[n][c]| == SLOT_BYTES
            && var r := ReadRecord(mems[n][c], l.base(c), l.vtables);
            && r.Some? && bytes == r.value.args && c < |states[n + 1].chans|
            && states[n + 1].value == h(states[n].value, bytes).0
            && states[n + 1].chans[c].data == Result(h(states[n].value, bytes).1)
  {
    hide Run, P.Next, ReadRecord, MemStep, MemOk;
    SlotsAgree(l, v, states, steps, mems, n);
    RunStep(v, states, steps, n);
    Runs.TrusteeExecutes(states[n], steps[n], states[n + 1]);
    SlotReads(l, states[n], mems[n], states[n].trustee.c, CallMutArgsOutPtr(h, args));
    bytes := args;
  }
}
