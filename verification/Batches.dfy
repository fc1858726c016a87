/** apply_batch_mut on the trustee: the repeat loop in whole runs. */
module Batches {
  import opened Wrappers
  import opened Operations
  import opened Protocol
  import opened Invariant
  import opened Refinement
  import opened Summary
  import Runs
  import ClientSteps
  import TrusteeSteps

  /** The trustee has run `f` `done` times for the batch of channel c. */
  ghost predicate InBatch<T, R>(s: State<T, R>, at: Trustee, done: nat, f: T -> T, n: nat)
    requires at.Serving?
  {
    && s.trustee == at.(done := done) && at.c < |s.chans|
    && s.chans[at.c].record == Some(CallMutRetUnit(f, n))
  }

  lemma BatchClient<T, R>(s: State<T, R>, step: Step<T, R>, s': State<T, R>, at: Trustee, done: nat, f: T -> T, n: nat)
    requires ChansOk(s) && TrusteeOk(s) && Next(s, step, s') && ClientSteps.ClientStep(step)
    requires at.Serving? && InBatch(s, at, done, f, n)
    ensures InBatch(s', at, done, f, n) && s'.value == s.value
  {
    assert ChanOk(s.chans[at.c]);
    hide Next, ChansOk;
    ClientSummary(s, step, s');
    if Registers(step) {
      assert s'.chans[at.c] == s'.chans[..|s.chans|][at.c] == s.chans[at.c];
    }
  }

  lemma BatchService<T, R>(s: State<T, R>, step: Step<T, R>, s': State<T, R>, at: Trustee, done: nat, f: T -> T, n: nat)
    requires Next(s, step, s') && TrusteeSteps.ServiceStep(step)
    requires at.Serving? && InBatch(s, at, done, f, n) && !step.EndBatch?
    ensures step.ExecRepeat? && InBatch(s', at, done + 1, f, n) && s'.value == f(s.value)
  {
  }

  lemma BatchOther<T, R>(s: State<T, R>, step: Step<T, R>, s': State<T, R>, at: Trustee, done: nat, f: T -> T, n: nat)
    requires Next(s, step, s') && !ClientSteps.ClientStep(step) && !TrusteeSteps.ServiceStep(step)
    requires at.Serving? && InBatch(s, at, done, f, n)
    ensures InBatch(s', at, done, f, n) && (step.FiberEffect? || s'.value == s.value)
  {
    OtherSummary(s, step, s');
    if step.FiberEffect? || step.FiberComplete? || step.BeginTerminate? {
    } else {
      OtherTrustee(s, step, s');
    }
  }

  lemma OtherTrustee<T, R>(s: State<T, R>, step: Step<T, R>, s': State<T, R>)
    requires Next(s, step, s') && !ClientSteps.ClientStep(step) && !TrusteeSteps.ServiceStep(step)
    requires !step.BeginTerminate? && s.trustee.Serving?
    ensures s'.trustee == s.trustee
  {
  }

  /** How often steps i..j ran the batch's function. */
  ghost function Repeated<T, R>(steps: seq<Step<T, R>>, i: nat, j: nat): nat
    requires i <= j <= |steps|
  {
    if i == j then 0 else Repeated(steps, i, j - 1) + (if steps[j - 1].ExecRepeat? then 1 else 0)
  }

  /** Steps i..j do not contain the end of the batch, and if `quiet`, the launches that run
      meanwhile leave the value as it is. */
  ghost predicate Within<T, R>(states: seq<State<T, R>>, steps: seq<Step<T, R>>, i: nat, j: nat, quiet: bool)
    requires i <= j <= |steps| < |states|
  {
    forall k :: i <= k < j ==>
      !steps[k].EndBatch? && (quiet && steps[k].FiberEffect? ==> states[k + 1].value == states[k].value)
  }

  /** From the start of a batch to its end the trustee serves nobody else, the function in
      the slot stays the same, and with quiet launches the value is its iterate. */
  lemma {:induction false} BatchRuns<T, R>(v: T, states: seq<State<T, R>>, steps: seq<Step<T, R>>, i: nat, j: nat,
                                           at: Trustee, f: T -> T, n: nat, quiet: bool)
    requires Run(v, states, steps) && i <= j <= |steps| < |states| && Within(states, steps, i, j, quiet)
    requires at.Serving? && InBatch(states[i], at, 0, f, n)
    ensures InBatch(states[j], at, Repeated(steps, i, j), f, n)
    ensures forall k :: i <= k < j && TrusteeSteps.ServiceStep(steps[k]) ==> steps[k].ExecRepeat?
    ensures quiet ==> states[j].value == Iterate(f, Repeated(steps, i, j), states[i].value)
    decreases j - i
  {
    hide Next, Inv, Run, InBatch, TrusteeSteps.ServiceStep;
    if i < j {
      RunStep(v, states, steps, j - 1);
      BatchRuns(v, states, steps, i, j - 1, at, f, n, quiet);
      ReachableInv(v, states, steps, j - 1);
      BatchStep(states[j - 1], steps[j - 1], states[j], at, Repeated(steps, i, j - 1), f, n);
    }
  }

  lemma BatchStep<T, R>(s: State<T, R>, step: Step<T, R>, s': State<T, R>, at: Trustee, done: nat, f: T -> T, n: nat)
    requires Inv(s) && Next(s, step, s') && at.Serving? && InBatch(s, at, done, f, n) && !step.EndBatch?
    ensures InBatch(s', at, if step.ExecRepeat? then done + 1 else done, f, n)
    ensures TrusteeSteps.ServiceStep(step) ==> step.ExecRepeat?
    ensures if step.ExecRepeat? then s'.value == f(s.value) else step.FiberEffect? || s'.value == s.value
  {
    hide Next, InBatch, ChansOk, FibersOk, RegistryOk, TrusteeOk, ShutdownOk, OwnersOk;
    if ClientSteps.ClientStep(step) {
      BatchClient(s, step, s', at, done, f, n);
    } else if TrusteeSteps.ServiceStep(step) {
      BatchService(s, step, s', at, done, f, n);
    } else {
      BatchOther(s, step, s', at, done, f, n);
    }
  }

  /** A whole batch of n, for every n the u8 can hold and 0 too: exactly n executions, no
      other trustee-served operation inside, and f iterated n times if the launches that run
      meanwhile leave the value as it is. */
  lemma BatchIsIterate<T, R>(v: T, states: seq<State<T, R>>, steps: seq<Step<T, R>>, i: nat, j: nat,
                             at: Trustee, f: T -> T, n: nat, quiet: bool)
    requires Run(v, states, steps) && i <= j < |steps| < |states| && Within(states, steps, i, j, quiet) && steps[j].EndBatch?
    requires at.Serving? && InBatch(states[i], at, 0, f, n)
    ensures Repeated(steps, i, j) == n
    ensures forall k :: i <= k < j && TrusteeSteps.ServiceStep(steps[k]) ==> steps[k].ExecRepeat?
    ensures quiet ==> states[j].value == Iterate(f, n, states[i].value)
  {
    BatchRuns(v, states, steps, i, j, at, f, n, quiet);
    RunStep(v, states, steps, j);
    ReachableInv(v, states, steps, j);
    hide Run, ChansOk, FibersOk, RegistryOk, ShutdownOk, OwnersOk, Iterate, Repeated;
  }

  /** A launch whose closure only reads, as its type says: it gets a shared reference. */
  ghost predicate ReadsOnly<T(!new), R>(req: Request<T, R>)
  {
    req.Launch? ==> forall x: T :: Apply(req, x).0 == x
  }

  lemma ReadingEffect<T(!new), R(!new)>(s: State<T, R>, step: Step<T, R>, s': State<T, R>)
    requires FibersOk(s) && Next(s, step, s') && step.FiberEffect?
    requires Runs.AllRecords((req: Request<T, R>) => ReadsOnly(req), s)
    ensures s'.value == s.value
  {
    hide Apply;
    assert FiberOk(s, step.f);
    var job := s.fibers[step.f].pc.job;
    assert ReadsOnly(s.chans[job.chan].record.value);
  }

  /** When all launches only read, the launches that run inside a batch are always quiet, and
      a batch of n is f iterated n times, whatever else is going on. */
  lemma BatchAmongReaders<T(!new), R(!new)>(v: T, states: seq<State<T, R>>, steps: seq<Step<T, R>>, i: nat, j: nat,
                                            at: Trustee, f: T -> T, n: nat)
    requires Run(v, states, steps) && i <= j < |steps| < |states|
    requires forall k :: 0 <= k < |steps| && steps[k].Write? ==> ReadsOnly(steps[k].req)
    requires steps[j].EndBatch? && forall k :: i <= k < j ==> !steps[k].EndBatch?
    requires at.Serving? && InBatch(states[i], at, 0, f, n)
    ensures states[j].value == Iterate(f, n, states[i].value)
  {
    hide Run, Next, Inv, ReadsOnly, InBatch, FibersOk, Iterate;
    forall k | i <= k < j && steps[k].FiberEffect?
      ensures states[k + 1].value == states[k].value
    {
      RunStep(v, states, steps, k);
      ReachableInv(v, states, steps, k);
      Runs.RecordsAreWritten((req: Request<T, R>) => ReadsOnly(req), v, states, steps, k);
      InvHasChans(states[k]);
      ReadingEffect(states[k], steps[k], states[k + 1]);
    }
    BatchIsIterate(v, states, steps, i, j, at, f, n, true);
  }
}
