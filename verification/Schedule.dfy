/** The trustee's decisions that involve no memory: which client the scan visits next,
    and what a pair of loaded ready bits means (src/runtime/runtime.rs). */
module Schedule {
  import Bits
  import opened Sets

  /** What one visit does with the bits it loaded. */
  datatype Verdict = StillRunning | Settled | Serve

  /** The three-way `pending_launch` test followed by the equality test. */
  function Classify(pending: bool, launchReady: bool, req: bool, resp: bool): Verdict
  {
    if pending then
      if req == resp then Settled
      else if req != launchReady then Serve
      else StillRunning
    else if req == resp then Settled
    else Serve
  }

  /** The client visited at offset `offs`, with a conditional subtraction for the modulus. */
  function VisitIndex(start: nat, offs: nat, n: nat): nat
    requires start < n && offs < n
  {
    if start + offs >= n then start + offs - n else start + offs
  }

  function NextStart(idx: nat, n: nat): nat
    requires n > 0
  {
    (idx + 1) % n
  }

  // ---- the exact schedule of a scan ---------------------------------------------

  /** `start_idx` before the k-th visit, given which visits served. */
  function StartAt(start: nat, served: seq<bool>, n: nat, k: nat): (r: nat)
    requires start < n && k <= n && k <= |served|
    ensures r < n
  {
    if k == 0 then start
    else
      var before := StartAt(start, served, n, k - 1);
      if served[k - 1] then NextStart(VisitIndex(before, k - 1, n), n) else before
  }

  /** Each visit j that served moves the start by j + 1. */
  function Shift(served: seq<bool>, k: nat): nat
    requires k <= |served|
  {
    if k == 0 then 0 else Shift(served, k - 1) + (if served[k - 1] then k else 0)
  }

  /** Conditional subtraction is reduction modulo n. */
  lemma VisitIndexIsMod(start: nat, offs: nat, n: nat)
    requires start < n && offs < n
    ensures VisitIndex(start, offs, n) == (start + offs) % n
  {
    if start + offs >= n {
      Bits.EuclidUnique(start + offs, n, 1, start + offs - n);
    } else {
      Bits.EuclidUnique(start + offs, n, 0, start + offs);
    }
  }

  lemma AddMod(a: nat, b: nat, n: nat)
    requires n > 0
    ensures (a % n + b) % n == (a + b) % n
  {
    var q := a / n;
    assert a + b == n * q + (a % n + b);
    Bits.ModShift(a % n + b, q, n);
  }

  lemma NextStartMoves(shifted: nat, offs: nat, n: nat)
    requires offs < n
    ensures NextStart(VisitIndex(shifted % n, offs, n), n) == (shifted + offs + 1) % n
  {
    VisitIndexIsMod(shifted % n, offs, n);
    AddMod(shifted, offs, n);
    AddMod(shifted + offs, 1, n);
  }

  lemma {:induction false} StartFormula(start: nat, served: seq<bool>, n: nat, k: nat)
    requires start < n && k <= n && k <= |served|
    ensures StartAt(start, served, n, k) == (start + Shift(served, k)) % n
    decreases k
  {
    if k > 0 {
      StartFormula(start, served, n, k - 1);
      NextStartMoves(start + Shift(served, k - 1), k - 1, n);
    }
  }

  /** The k-th visit of a scan goes to start + k plus the shifts of the earlier visits. */
  lemma VisitFormula(start: nat, served: seq<bool>, n: nat, k: nat)
    requires start < n && k < n && k <= |served|
    ensures VisitIndex(StartAt(start, served, n, k), k, n) == (start + k + Shift(served, k)) % n
  {
    StartFormula(start, served, n, k);
    VisitIndexIsMod(StartAt(start, served, n, k), k, n);
    AddMod(start + Shift(served, k), k, n);
  }

  lemma {:induction false} ShiftAllServed(served: seq<bool>, k: nat)
    requires k <= |served| && forall j :: 0 <= j < k ==> served[j]
    ensures 2 * Shift(served, k) == k * (k + 1)
  {
    if k > 0 {
      ShiftAllServed(served, k - 1);
      assert (k - 1) * k + 2 * k == k * (k + 1);
    }
  }

  /** When every visit serves, the k-th goes to start + k(k + 3)/2. */
  lemma AllServedSchedule(start: nat, served: seq<bool>, n: nat, k: nat)
    requires start < n && k < n && k <= |served| && forall j :: 0 <= j < k ==> served[j]
    ensures VisitIndex(StartAt(start, served, n, k), k, n) == (start + k * (k + 3) / 2) % n
  {
    VisitFormula(start, served, n, k);
    ShiftAllServed(served, k);
    assert k * (k + 3) == 2 * (k + Shift(served, k));
  }

  lemma {:induction false} IdleStart(start: nat, served: seq<bool>, n: nat, k: nat)
    requires start < n && k <= n && k <= |served| && forall j :: 0 <= j < k ==> !served[j]
    ensures StartAt(start, served, n, k) == start
  {
    if k > 0 {
      IdleStart(start, served, n, k - 1);
    }
  }

  // ---- when a scan is fair --------------------------------------------------------

  /** The clients visited by the first k visits of a scan, in order. */
  function VisitOrder(start: nat, served: seq<bool>, n: nat, k: nat): (order: seq<nat>)
    requires start < n && k <= n && k <= |served| + 1
    ensures |order| == k
    ensures forall j :: 0 <= j < k ==> order[j] == VisitIndex(StartAt(start, served, n, j), j, n)
  {
    if k == 0 then []
    else VisitOrder(start, served, n, k - 1) + [VisitIndex(StartAt(start, served, n, k - 1), k - 1, n)]
  }

  /** A scan in which nothing is served before its last visit goes round exactly once. */
  lemma QuietScanVisitsAll(start: nat, served: seq<bool>, n: nat, c: nat) returns (k: nat)
    requires start < n && |served| == n && c < n && forall j :: 0 <= j < n - 1 ==> !served[j]
    ensures k < n && VisitOrder(start, served, n, n)[k] == c
    ensures forall j :: 0 <= j < n && VisitOrder(start, served, n, n)[j] == c ==> j == k
  {
    k := if c >= start then c - start else c + n - start;
    forall j | 0 <= j < n
      ensures StartAt(start, served, n, j) == start
    {
      IdleStart(start, served, n, j);
    }
  }

  lemma {:induction false} ShiftQuiet(served: seq<bool>, j: nat, k: nat)
    requires j <= k <= |served| && forall i :: j <= i < k ==> !served[i]
    ensures Shift(served, k) == Shift(served, j)
    decreases k
  {
    if j < k {
      ShiftQuiet(served, j, k - 1);
    }
  }

  /** If visit j serves and none after it, the last visit goes to the same client again. */
  lemma LastVisitRepeats(start: nat, served: seq<bool>, n: nat, j: nat)
    requires start < n && |served| == n && j < n - 1 && served[j]
    requires forall i :: j < i < n - 1 ==> !served[i]
    ensures VisitOrder(start, served, n, n)[n - 1] == VisitOrder(start, served, n, n)[j]
  {
    VisitFormula(start, served, n, j);
    VisitFormula(start, served, n, n - 1);
    ShiftQuiet(served, j + 1, n - 1);
    Bits.ModShift(start + j + Shift(served, j), 1, n);
  }

  lemma {:induction false} LastServing(served: seq<bool>, i: nat, n: nat) returns (j: nat)
    requires i < n <= |served| && served[i]
    ensures j < n && served[j] && forall k :: j < k < n ==> !served[k]
    decreases n
  {
    if served[n - 1] {
      j := n - 1;
    } else {
      j := LastServing(served, i, n - 1);
    }
  }

  /** A scan visits every client if and only if no visit before its last one serves, that
      is, if `start_idx` is not stored before the last visit; and then it visits every
      client exactly once. */
  lemma ScanIsFairExactly(start: nat, served: seq<bool>, n: nat)
    requires start < n && |served| == n
    ensures (forall c: nat :: c < n ==> c in VisitOrder(start, served, n, n))
       <==> (forall j :: 0 <= j < n - 1 ==> !served[j])
    ensures (forall j :: 0 <= j < n - 1 ==> !served[j]) ==>
              forall j, k :: 0 <= j < k < n ==>
                VisitOrder(start, served, n, n)[j] != VisitOrder(start, served, n, n)[k]
  {
    var order := VisitOrder(start, served, n, n);
    if forall j :: 0 <= j < n - 1 ==> !served[j] {
      forall c: nat | c < n
        ensures c in order
      {
        var k := QuietScanVisitsAll(start, served, n, c);
      }
      forall j, k | 0 <= j < k < n
        ensures order[j] != order[k]
      {
        CoverIsInjective(order, j, k);
      }
    } else {
      var i :| 0 <= i < n - 1 && served[i];
      var j := LastServing(served, i, n - 1);
      LastVisitRepeats(start, served, n, j);
      if forall c: nat :: c < n ==> c in order {
        CoverIsInjective(order, j, n - 1);
      }
    }
  }

  /** Three busy clients, and one of them is not visited at all. */
  lemma BusyScanSkipsClient()
    ensures VisitOrder(0, [true, true, true], 3, 3) == [0, 2, 2]
  {
    var served := [true, true, true];
    assert StartAt(0, served, 3, 1) == 1;
    assert StartAt(0, served, 3, 2) == 0;
  }
}
