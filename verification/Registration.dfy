/** Registration: order and conservation, and how many rounds a new channel waits, under
    throttled draining and a round counter that wraps around. */
module Registration {
  import opened Operations
  import opened Protocol
  import opened Invariant
  import opened Refinement
  import opened Summary
  import ClientSteps
  import TrusteeSteps

  /** No registration is lost, duplicated or reordered. */
  lemma RegistrationOrder<T, R>(v: T, states: seq<State<T, R>>, steps: seq<Step<T, R>>, n: nat)
    requires Run(v, states, steps) && n < |states|
    ensures states[n].clients + states[n].queue == seq(|states[n].chans|, i => i)
  {
    ReachableInv(v, states, steps, n);
  }

  function CeilDiv(a: nat, b: nat): nat
    requires b > 0
  {
    (a + b - 1) / b
  }

  /** Entries to pop until channel c has joined; 0 once it has. */
  function Ahead<T, R>(s: State<T, R>, c: nat): nat
  {
    if c < |s.clients| then 0 else c - |s.clients| + 1
  }

  /** An upper bound on the rounds that must still begin before channel c joins. */
  function RoundsLeft<T, R>(s: State<T, R>, c: nat): int
  {
    if s.trustee.Draining? && s.counter % DRAIN_PERIOD == 0 then
      DRAIN_PERIOD * CeilDiv(Ahead(s, c) + s.trustee.drained, DRAIN_LIMIT) - DRAIN_PERIOD
    else
      DRAIN_PERIOD * CeilDiv(Ahead(s, c), DRAIN_LIMIT) - s.counter % DRAIN_PERIOD
  }

  lemma CeilStep(a: nat)
    ensures CeilDiv(a + DRAIN_LIMIT, DRAIN_LIMIT) == CeilDiv(a, DRAIN_LIMIT) + 1
    ensures a > 0 ==> CeilDiv(a, DRAIN_LIMIT) >= 1
  {
  }

  lemma CeilMono(a: nat, b: nat)
    requires a <= b
    ensures CeilDiv(a, DRAIN_LIMIT) <= CeilDiv(b, DRAIN_LIMIT)
  {
  }

  /** The wrapping counter still hits every sixteenth round. */
  lemma WrapKeepsPeriod(counter: nat)
    requires counter < USIZE
    ensures ((counter + 1) % USIZE) % DRAIN_PERIOD == (counter + 1) % DRAIN_PERIOD
  {
    if counter + 1 == USIZE {
      assert USIZE % DRAIN_PERIOD == 0;
    }
  }

  /** Which rounds drain: all without clients, and otherwise every sixteenth of the counter,
      which wraps after 2^64 - 1. */
  lemma DrainsExactly<T, R>(s: State<T, R>, s': State<T, R>)
    requires Inv(s) && DoBeginRound(s, s')
    ensures s'.counter == if s.counter == 0xFFFF_FFFF_FFFF_FFFF then 0 else s.counter + 1
    ensures s'.trustee.Draining? <==> s.clients == [] || s'.counter % 16 == 0
    ensures s'.clients == s.clients && s'.queue == s.queue
  {
    hide ChansOk, FibersOk, ShutdownOk, OwnersOk;
  }

  /** A drain goes on exactly while it has joined less than 256 and the queue has an entry,
      and joins the oldest. */
  lemma DrainGoesOnExactly<T, R>(s: State<T, R>)
    requires Inv(s) && s.trustee.Draining?
    ensures (exists s' :: DoDrainPop(s, s')) <==> s.trustee.drained < 256 && s.queue != []
    ensures (exists s' :: DoDrainEnd(s, s')) <==> s.trustee.drained == 256 || s.queue == []
    ensures forall s' :: DoDrainPop(s, s') ==> s'.clients == s.clients + s.queue[..1] && s'.queue == s.queue[1..]
  {
    hide ChansOk, FibersOk, ShutdownOk, OwnersOk;
    if s.trustee.drained < 256 && s.queue != [] {
      assert DoDrainPop(s, s.(clients := s.clients + [s.queue[0]], queue := s.queue[1..],
                              trustee := Draining(s.trustee.drained + 1)));
    } else {
      assert DoDrainEnd(s, BeginScan(s));
    }
  }

  /** Joined already, or on time. */
  ghost predicate OnTime<T, R>(s: State<T, R>, c: nat, rounds: nat, bound: int)
  {
    c < |s.clients| || RoundsLeft(s, c) + rounds <= bound
  }

  lemma BeginRoundOnTime<T, R>(s: State<T, R>, s': State<T, R>, c: nat, rounds: nat, bound: int)
    requires RegistryOk(s) && DoBeginRound(s, s') && OnTime(s, c, rounds, bound)
    ensures OnTime(s', c, rounds + 1, bound)
  {
    WrapKeepsPeriod(s.counter);
    CeilStep(Ahead(s, c));
  }

  lemma DrainPopOnTime<T, R>(s: State<T, R>, s': State<T, R>, c: nat, rounds: nat, bound: int)
    requires RegistryOk(s) && DoDrainPop(s, s') && OnTime(s, c, rounds, bound)
    ensures OnTime(s', c, rounds, bound)
  {
    if c >= |s'.clients| {
      CeilMono(Ahead(s', c), Ahead(s, c));
      assert Ahead(s', c) + s'.trustee.drained == Ahead(s, c) + s.trustee.drained;
    }
  }

  lemma DrainEndOnTime<T, R>(s: State<T, R>, s': State<T, R>, c: nat, rounds: nat, bound: int)
    requires RegistryOk(s) && PlaceOk(s) && c < |s.chans| && DoDrainEnd(s, s') && OnTime(s, c, rounds, bound)
    ensures OnTime(s', c, rounds, bound)
  {
    CeilStep(Ahead(s, c));
  }

  /** All other steps leave clients, counter and draining alone. */
  predicate Unconcerned<T, R>(step: Step<T, R>)
  {
    !step.BeginRound? && !step.DrainPop? && !step.DrainEnd?
  }

  lemma ClientOnTime<T, R>(s: State<T, R>, step: Step<T, R>, s': State<T, R>)
    requires Next(s, step, s') && ClientSteps.ClientStep(step)
    ensures s'.clients == s.clients && s'.counter == s.counter && s'.trustee == s.trustee
  {
    hide NoHandles, MaySend;
  }

  lemma OtherOnTime<T, R>(s: State<T, R>, step: Step<T, R>, s': State<T, R>)
    requires Next(s, step, s') && !ClientSteps.ClientStep(step) && !TrusteeSteps.ServiceStep(step)
    ensures s'.clients == s.clients && s'.counter == s.counter
    ensures s'.trustee.Draining? || s.trustee.Draining? ==> s'.trustee == s.trustee
  {
    hide Apply, NoHandles, MaySend;
  }

  lemma PlanningOnTime<T, R>(s: State<T, R>, step: Step<T, R>, s': State<T, R>)
    requires Next(s, step, s') && Unconcerned(step) && Planning(step)
    ensures s'.clients == s.clients && s'.counter == s.counter
    ensures !s'.trustee.Draining? && !s.trustee.Draining?
  {
  }

  lemma ServiceOnTime<T, R>(s: State<T, R>, step: Step<T, R>, s': State<T, R>)
    requires Next(s, step, s') && TrusteeSteps.ServiceStep(step) && !Planning(step)
    ensures s'.clients == s.clients && s'.counter == s.counter
    ensures !s'.trustee.Draining? && !s.trustee.Draining?
  {
    hide Next;
    ServiceSummary(s, step, s');
  }

  predicate Begins<T, R>(step: Step<T, R>)
  {
    step.BeginRound?
  }

  lemma StepOnTime<T, R>(s: State<T, R>, step: Step<T, R>, s': State<T, R>, c: nat, rounds: nat, bound: int)
    requires Inv(s) && Next(s, step, s') && c < |s.chans| && OnTime(s, c, rounds, bound)
    ensures OnTime(s', c, if Begins(step) then rounds + 1 else rounds, bound)
  {
    assert step.BeginRound? ==> DoBeginRound(s, s');
    assert step.DrainPop? ==> DoDrainPop(s, s');
    assert step.DrainEnd? ==> DoDrainEnd(s, s');
    hide ChansOk, FibersOk, ShutdownOk, OwnersOk, Next, DoBeginRound, DoDrainPop, DoDrainEnd;
    if step.BeginRound? {
      BeginRoundOnTime(s, s', c, rounds, bound);
    } else if step.DrainPop? {
      DrainPopOnTime(s, s', c, rounds, bound);
    } else if step.DrainEnd? {
      DrainEndOnTime(s, s', c, rounds, bound);
    } else {
      hide Next, Inv;
      if Planning(step) {
        PlanningOnTime(s, step, s');
      } else if TrusteeSteps.ServiceStep(step) {
        ServiceOnTime(s, step, s');
      } else if ClientSteps.ClientStep(step) {
        ClientOnTime(s, step, s');
      } else {
        OtherOnTime(s, step, s');
      }
    }
  }

  ghost function Rounds<T, R>(steps: seq<Step<T, R>>, i: nat, j: nat): nat
    requires i <= j <= |steps|
  {
    if i == j then 0 else Rounds(steps, i, j - 1) + (if Begins(steps[j - 1]) then 1 else 0)
  }

  lemma ChansGrow<T, R>(s: State<T, R>, step: Step<T, R>, s': State<T, R>)
    requires Next(s, step, s')
    ensures |s.chans| <= |s'.chans|
  {
    hide Next;
    if ClientSteps.ClientStep(step) {
      ClientSummary(s, step, s');
    } else if Planning(step) {
      PlanningSame(s, step, s');
    } else if TrusteeSteps.ServiceStep(step) {
      ServiceSummary(s, step, s');
    } else {
      OtherSummary(s, step, s');
    }
  }

  lemma {:induction false} RunOnTime<T, R>(v: T, states: seq<State<T, R>>, steps: seq<Step<T, R>>, c: nat, i: nat, j: nat)
    requires Run(v, states, steps) && i <= j < |states| && c < |states[i].chans|
    ensures c < |states[j].chans|
    ensures OnTime(states[j], c, Rounds(steps, i, j), RoundsLeft(states[i], c))
    decreases j - i
  {
    hide Next, Inv, Run, OnTime, RoundsLeft;
    if i < j {
      RunStep(v, states, steps, j - 1);
      RunOnTime(v, states, steps, c, i, j - 1);
      ReachableInv(v, states, steps, j - 1);
      StepOnTime(states[j - 1], steps[j - 1], states[j], c, Rounds(steps, i, j - 1), RoundsLeft(states[i], c));
      ChansGrow(states[j - 1], steps[j - 1], states[j]);
    } else {
      StartsOnTime(states[i], c);
    }
  }

  lemma StartsOnTime<T, R>(s: State<T, R>, c: nat)
    ensures OnTime(s, c, 0, RoundsLeft(s, c))
  {
  }

  /** The registration bound: a channel with p entries ahead of it in the queue at the top
      of a round has joined the clients by the end of the drain of the
      16 * ceil((p + 1) / 256)-th round from there, whatever else is registered meanwhile. */
  lemma JoinsInTime<T, R>(v: T, states: seq<State<T, R>>, steps: seq<Step<T, R>>, c: nat, p: nat, i: nat, j: nat)
    requires Run(v, states, steps) && i <= j < |states|
    requires states[i].trustee == RoundTop && p < |states[i].queue| && states[i].queue[p] == c
    requires Rounds(steps, i, j) >= 16 * ((p + 256) / 256) && !states[j].trustee.Draining?
    ensures c in states[j].clients
  {
    assert DRAIN_PERIOD * CeilDiv(p + 1, DRAIN_LIMIT) == 16 * ((p + 256) / 256);
    ReachableInv(v, states, steps, i);
    ReachableInv(v, states, steps, j);
    hide Run, CeilDiv;
    StartBound(states[i], c, p);
    RunOnTime(v, states, steps, c, i, j);
    LateMeansJoined(states[j], c, Rounds(steps, i, j), RoundsLeft(states[i], c));
  }

  lemma StartBound<T, R>(s: State<T, R>, c: nat, p: nat)
    requires Inv(s) && s.trustee == RoundTop && p < |s.queue| && s.queue[p] == c
    ensures c < |s.chans| && RoundsLeft(s, c) <= DRAIN_PERIOD * CeilDiv(p + 1, DRAIN_LIMIT)
  {
    hide ChansOk, FibersOk, ShutdownOk, OwnersOk, TrusteeOk;
    assert Ahead(s, c) == p + 1;
  }

  lemma LateMeansJoined<T, R>(s: State<T, R>, c: nat, rounds: nat, bound: int)
    requires Inv(s) && OnTime(s, c, rounds, bound) && !s.trustee.Draining? && bound <= rounds
    ensures c in s.clients
  {
    hide ChansOk, FibersOk, ShutdownOk, OwnersOk, TrusteeOk;
    CeilStep(Ahead(s, c));
    if c < |s.clients| {
      assert s.clients[c] == c;
    }
  }
}
