/** The worker loop of src/runtime/runtime.rs as the imperative program it is: the
    registration drain, the scan with its moving start index, the idle strategy, and
    the hand-out of jobs to pooled fibers. What other threads leave in shared memory
    enters as parameters: the words each visit loads, and which fibers are still alive. */
module Workers {
  import opened Wrappers
  import opened Schedule
  import P = Protocol

  /** SegQueue, used first in, first out. */
  class Queue<T> {
    var items: seq<T>

    constructor ()
      ensures items == []
    {
      items := [];
    }

    method Push(x: T)
      modifies this
      ensures items == old(items) + [x]
    {
      items := items + [x];
    }

    method Pop() returns (x: Option<T>)
      modifies this
      ensures old(items) == [] ==> x == None && items == []
      ensures old(items) != [] ==> x == Some(old(items)[0]) && items == old(items)[1..]
    {
      if items == [] {
        x := None;
      } else {
        x := Some(items[0]);
        items := items[1..];
      }
    }
  }

  datatype ClientPair = ClientPair(chan: nat, pending: bool, launchReady: bool)

  /** What the record asks the loop to do: execute it, hand it to a fiber, or leave (Terminate
      and IntoInner). */
  datatype Kind = Call | LaunchCall | Stop

  /** What one visit finds: the two words, and the kind of the record. */
  datatype Load = Load(req: P.Word, resp: P.Word, kind: Kind)

  /** The client pair after a visit. */
  function Visited(cp: ClientPair, l: Load): ClientPair
  {
    match Classify(cp.pending, cp.launchReady, l.req.ready, l.resp.ready)
    case StillRunning => cp
    case Settled => cp.(pending := false)
    case Serve => if l.kind.LaunchCall? then cp.(pending := true, launchReady := l.req.ready) else cp.(pending := false)
  }

  predicate Serves(cp: ClientPair, l: Load)
  {
    Classify(cp.pending, cp.launchReady, l.req.ready, l.resp.ready) == Serve
  }

  /** A scan after k visits. */
  datatype Progress = Progress(clients: seq<ClientPair>, served: seq<bool>)

  function ScanTo(clients: seq<ClientPair>, start: nat, loads: nat -> Load, k: nat): (p: Progress)
    requires start < |clients| && k <= |clients|
    ensures |p.clients| == |clients| && |p.served| == k
  {
    if k == 0 then Progress(clients, [])
    else
      var before := ScanTo(clients, start, loads, k - 1);
      var at := VisitIndex(StartAt(start, before.served, |clients|, k - 1), k - 1, |clients|);
      var cp := before.clients[at];
      Progress(before.clients[at := Visited(cp, loads(k - 1))], before.served + [Serves(cp, loads(k - 1))])
  }

  lemma {:induction false} StartAtPrefix(start: nat, served: seq<bool>, more: seq<bool>, n: nat, k: nat)
    requires start < n && k <= n && k <= |served|
    ensures StartAt(start, served + more, n, k) == StartAt(start, served, n, k)
    decreases k
  {
    if k > 0 {
      StartAtPrefix(start, served, more, n, k - 1);
    }
  }

  lemma StartAtNext(start: nat, served: seq<bool>, last: bool, n: nat)
    requires start < n && |served| < n
    ensures StartAt(start, served + [last], n, |served| + 1)
         == if last then NextStart(VisitIndex(StartAt(start, served, n, |served|), |served|, n), n)
            else StartAt(start, served, n, |served|)
  {
    StartAtPrefix(start, served, [last], n, |served|);
  }

  lemma ScanNone(clients: seq<ClientPair>, start: nat, loads: nat -> Load)
    requires start < |clients|
    ensures ScanTo(clients, start, loads, 0) == Progress(clients, []) && StartAt(start, [], |clients|, 0) == start
  {
  }

  lemma ScanNext(clients: seq<ClientPair>, start: nat, loads: nat -> Load, k: nat, p: Progress)
    requires start < |clients| && k < |clients| && ScanTo(clients, start, loads, k) == p
    ensures |p.clients| == |clients| && |p.served| == k
    ensures var at := VisitIndex(StartAt(start, p.served, |clients|, k), k, |clients|);
            var cp := p.clients[at];
            ScanTo(clients, start, loads, k + 1) ==
              Progress(p.clients[at := Visited(cp, loads(k))], p.served + [Serves(cp, loads(k))])
  {
  }

  /** Visits keep the channels in their registration order. */
  lemma {:induction false} ScanKeepsOrder(clients: seq<ClientPair>, start: nat, loads: nat -> Load, k: nat, i: nat)
    requires start < |clients| && k <= |clients| && i < |clients|
    ensures ScanTo(clients, start, loads, k).clients[i].chan == clients[i].chan
    decreases k
  {
    if k > 0 {
      ScanKeepsOrder(clients, start, loads, k - 1, i);
    }
  }

  /** The visits begun, a stopping one included. */
  function Begun(served: seq<bool>, stopped: bool): nat
  {
    |served| + (if stopped then 1 else 0)
  }

  class Worker {
    var clients: seq<ClientPair>
    var startIdx: nat
    var idleRounds: nat
    var loopCounter: nat

    ghost predicate Valid()
      reads this
    {
      && loopCounter < P.USIZE && idleRounds <= 8
      && (if clients == [] then startIdx == 0 else startIdx < |clients|)
    }

    constructor ()
      ensures Valid() && clients == [] && loopCounter == 0
    {
      clients, startIdx, idleRounds, loopCounter := [], 0, 0, 0;
    }

    /** Move at most 256 registrations, oldest first. */
    method DrainRegistrations(reg: Queue<ClientPair>)
      modifies this`clients, reg
      ensures old(|reg.items|) <= 256 ==> clients == old(clients) + old(reg.items) && reg.items == []
      ensures old(|reg.items|) > 256 ==>
        clients == old(clients) + old(reg.items)[..256] && reg.items == old(reg.items)[256..]
    {
      var drained := 0;
      ghost var waiting := reg.items;
      while drained < P.DRAIN_LIMIT
        invariant drained <= P.DRAIN_LIMIT && drained <= |waiting|
        invariant reg.items == waiting[drained..] && clients == old(clients) + waiting[..drained]
      {
        var cp := reg.Pop();
        match cp {
          case Some(pair) =>
            clients := clients + [pair];
            drained := drained + 1;
            assert waiting[..drained] == waiting[..drained - 1] + [pair];
          case None =>
            break;
        }
      }
    }

    /** Spin eight times, then yield. */
    method Idle() returns (yielded: bool)
      requires idleRounds <= 8
      modifies this`idleRounds
      ensures yielded == (old(idleRounds) == 8)
      ensures idleRounds == if yielded then 0 else old(idleRounds) + 1
    {
      if idleRounds < 8 {
        idleRounds := idleRounds + 1;
        yielded := false;
      } else {
        idleRounds := 0;
        yielded := true;
      }
    }

    /** One visit: the pending-launch test, the equality test, and the launch flags. */
    method Visit(idx: nat, l: Load) returns (serve: bool)
      requires idx < |clients|
      modifies this`clients
      ensures clients == old(clients)[idx := Visited(old(clients)[idx], l)]
      ensures serve == Serves(old(clients)[idx], l)
    {
      var cp := clients[idx];
      var reqReady, respReady := l.req.ready, l.resp.ready;
      if cp.pending {
        if reqReady == respReady {
          // the fiber has flipped the bit
          clients := clients[idx := clients[idx].(pending := false)];
        } else if reqReady != cp.launchReady {
          // the client has already gone on, so the fiber was done
          clients := clients[idx := clients[idx].(pending := false)];
        } else {
          return false;
        }
      }
      if reqReady == respReady {
        return false;
      }
      if l.kind.LaunchCall? {
        clients := clients[idx := clients[idx].(pending := true, launchReady := reqReady)];
      }
      return true;
    }

    /** One pass over the clients, up to one that asks to stop. `served` are the visits that
        were completed; a visit that stops is begun and not completed. */
    method Scan(loads: nat -> Load) returns (served: seq<bool>, progressed: bool, stopped: bool)
      requires Valid() && clients != []
      modifies this`clients, this`startIdx
      ensures |clients| == old(|clients|) && |served| <= |clients| && stopped == (|served| < |clients|)
      ensures ScanTo(old(clients), old(startIdx), loads, |served|).served == served
      ensures ScanTo(old(clients), old(startIdx), loads, Begun(served, stopped)).clients == clients
      ensures forall k :: 0 <= k < |served| && served[k] ==> !loads(k).kind.Stop?
      ensures stopped ==> loads(|served|).kind.Stop?
      ensures stopped ==> ScanTo(old(clients), old(startIdx), loads, |served| + 1).served == served + [true]
      ensures progressed == (true in served)
      ensures startIdx == StartAt(old(startIdx), served, |clients|, |served|) < |clients|
    {
      hide Visited, Serves, Classify, NextStart, ScanTo, StartAt;
      var n := |clients|;
      ghost var clients0, start0 := clients, startIdx;
      ScanNone(clients, startIdx, loads);
      progressed := false;
      served := [];
      for offs := 0 to n
        invariant |clients| == n && |served| == offs && startIdx < n
        invariant ScanTo(clients0, start0, loads, offs) == Progress(clients, served)
        invariant startIdx == StartAt(start0, served, n, offs)
        invariant progressed == (true in served)
        invariant forall k :: 0 <= k < offs && served[k] ==> !loads(k).kind.Stop?
      {
        var idx := startIdx + offs;
        if idx >= n {
          idx := idx - n;
        }
        ScanNext(clients0, start0, loads, offs, Progress(clients, served));
        var serve := Visit(idx, loads(offs));
        if serve && loads(offs).kind.Stop? {
          stopped := true;
          return;
        }
        StartAtNext(start0, served, serve, n);
        served := served + [serve];
        if serve {
          progressed := true;
          startIdx := NextIndex(idx, n);
        }
      }
      stopped := false;
    }

    /** (idx + 1) % n */
    static method NextIndex(idx: nat, n: nat) returns (next: nat)
      requires idx < n
      ensures next == NextStart(idx, n) < n
    {
      next := (idx + 1) % n;
    }

    /** One turn of the worker loop; `stopped` says that it was the last. */
    method Round(reg: Queue<ClientPair>, loads: nat -> Load) returns (served: seq<bool>, yielded: bool, stopped: bool)
      requires Valid()
      modifies this, reg
      ensures Valid()
      ensures loopCounter == if old(loopCounter) == 0xFFFF_FFFF_FFFF_FFFF then 0 else old(loopCounter) + 1
      ensures var due := old(clients) == [] || loopCounter % 16 == 0;
              var m := if !due then 0 else if old(|reg.items|) <= 256 then old(|reg.items|) else 256;
              var joined := old(clients) + old(reg.items)[..m];
              && reg.items == old(reg.items)[m..]
              && |clients| == |joined|
              && (joined == [] ==> served == [] && !stopped)
              && (joined != [] ==>
                    && old(startIdx) < |joined| && |served| <= |joined| && stopped == (|served| < |joined|)
                    && ScanTo(joined, old(startIdx), loads, |served|).served == served
                    && ScanTo(joined, old(startIdx), loads, Begun(served, stopped)).clients == clients
                    && startIdx == StartAt(old(startIdx), served, |joined|, |served|))
      ensures forall k :: 0 <= k < |served| && served[k] ==> !loads(k).kind.Stop?
      ensures stopped ==> loads(|served|).kind.Stop? && !yielded && idleRounds == old(idleRounds)
      ensures !stopped ==> yielded == (true !in served && old(idleRounds) == 8)
      ensures !stopped ==> idleRounds == if true in served || yielded then 0 else old(idleRounds) + 1
    {
      hide ScanTo, StartAt;
      served, yielded, stopped := [], false, false;
      loopCounter := (loopCounter + 1) % P.USIZE;
      if clients == [] || loopCounter % P.DRAIN_PERIOD == 0 {
        DrainRegistrations(reg);
      } else {
        assert clients == clients + reg.items[..0];
      }
      ghost var joined := clients;
      ghost var due := old(clients) == [] || loopCounter % 16 == 0;
      ghost var m := if !due then 0 else if old(|reg.items|) <= 256 then old(|reg.items|) else 256;
      assert joined == old(clients) + old(reg.items)[..m];
      if clients == [] {
        yielded := Idle();
        return;
      }
      var progressed;
      served, progressed, stopped := Scan(loads);
      assert ScanTo(joined, old(startIdx), loads, |served|).served == served;
      assert ScanTo(joined, old(startIdx), loads, Begun(served, stopped)).clients == clients;
      if stopped {
        return;
      }
      if progressed {
        idleRounds := 0;
      } else {
        yielded := Idle();
      }
    }
  }

  predicate Senders(pool: seq<nat>, n: nat)
  {
    forall f :: f in pool ==> f < n
  }

  predicate AllDead(pool: seq<nat>, live: seq<bool>)
  {
    forall f :: f in pool ==> f < |live| && !live[f]
  }

  predicate AllLive(pool: seq<nat>, live: seq<bool>)
  {
    forall f :: f in pool ==> f < |live| && live[f]
  }

  lemma DeadIsSeen(dead: seq<nat>, rest: seq<nat>, live: seq<bool>)
    requires AllDead(dead, live) && dead != []
    ensures !AllLive(dead + rest, live)
  {
    assert dead[0] in dead + rest && dead[0] in dead;
  }

  lemma OneMoreDead(dead: seq<nat>, f: nat, live: seq<bool>)
    requires AllDead(dead, live) && f < |live| && !live[f]
    ensures AllDead(dead + [f], live)
  {
  }

  lemma SendersSplit(f: nat, rest: seq<nat>, n: nat)
    requires Senders([f] + rest, n)
    ensures f < n && Senders(rest, n)
  {
    assert f in [f] + rest;
    assert forall g :: g in rest ==> g in [f] + rest;
  }

  /** The loop that finds a fiber for a job: pop until a send succeeds, or spawn. */
  method Dispatch(pool: Queue<nat>, live: seq<bool>) returns (target: nat)
    requires Senders(pool.items, |live|)
    modifies pool
    ensures target == |live| ==> pool.items == [] && AllDead(old(pool.items), live)
    ensures target != |live| ==>
      exists dead: seq<nat> ::
        old(pool.items) == dead + [target] + pool.items && target < |live| && live[target] && AllDead(dead, live)
    ensures old(pool.items) != [] && AllLive(old(pool.items), live) ==>
      target == old(pool.items)[0] && pool.items == old(pool.items)[1..]
  {
    hide Senders, AllDead, AllLive;
    ghost var all: seq<nat>, dead: seq<nat> := pool.items, [];
    NothingIsDead(live);
    while true
      invariant all == dead + pool.items
      invariant AllDead(dead, live) && Senders(pool.items, |live|)
      decreases |pool.items|
    {
      ghost var left := pool.items;
      var tx := pool.Pop();
      match tx {
        case None =>
          assert all == dead == dead + [];
          if dead != [] {
            DeadIsSeen(dead, [], live);
          }
          return |live|;
        case Some(f) =>
          assert left == [f] + pool.items;
          SendersSplit(f, pool.items, |live|);
          assert all == dead + [f] + pool.items;
          if live[f] {
            assert all == dead + ([f] + pool.items);
            if dead != [] {
              DeadIsSeen(dead, [f] + pool.items, live);
            }
            return f;
          }
          OneMoreDead(dead, f, live);
          dead := dead + [f];
      }
    }
  }

  lemma NothingIsDead(live: seq<bool>)
    ensures AllDead([], live)
  {
  }
}
