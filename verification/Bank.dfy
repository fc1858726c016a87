/** examples/remote_complex.rs: a bank behind a remote trust. Balances are exact numbers;
    user ids and timestamps are u64. */
module Bank {
  import opened Bytes
  import opened Operations
  import opened Protocol
  import opened Refinement
  import Runs
  import opened Locals
  import A = Atomic

  const U64: nat := 0x1_0000_0000_0000_0000

  type u64 = n: nat | n < U64

  datatype User = User(id: u64, name: string, balance: real, lastLogin: u64)

  datatype Transaction = Transaction(from: u64, to: u64, amount: real, timestamp: nat)

  datatype Error = NotFound(id: u64) | Insufficient(balance: real)

  datatype Outcome = Ok | Err(error: Error)

  /** The fields of BankState. */
  datatype Books = Books(users: map<u64, User>, transactions: seq<Transaction>, nextUserId: u64, totalBalance: real)

  const EMPTY: Books := Books(map[], [], 1, 0.0)

  // ---- the operations on values ------------------------------------------------

  /** `next_user_id += 1` wraps at 2^64. */
  function Created(b: Books, name: string, initial: real): Books
  {
    var user := User(b.nextUserId, name, initial, 0);
    b.(users := b.users[b.nextUserId := user],
       nextUserId := (b.nextUserId + 1) % U64,
       totalBalance := b.totalBalance + initial)
  }

  function AddTo(users: map<u64, User>, id: u64, amount: real): map<u64, User>
    requires id in users
  {
    users[id := users[id].(balance := users[id].balance + amount)]
  }

  function Transferred(b: Books, from: u64, to: u64, amount: real): (Books, Outcome)
  {
    if from !in b.users then (b, Err(NotFound(from)))
    else if to !in b.users then (b, Err(NotFound(to)))
    else if b.users[from].balance < amount then (b, Err(Insufficient(b.users[from].balance)))
    else
      (b.(users := AddTo(AddTo(b.users, from, 0.0 - amount), to, amount),
          transactions := b.transactions + [Transaction(from, to, amount, |b.transactions|)]), Ok)
  }

  // ---- what they promise, account by account ------------------------------------------

  /** A transfer is accepted if and only if both users exist and the sender has the amount.
      It then takes the amount from the sender and gives it to the receiver, changes nothing
      else of any user and logs one entry; refused, it names what is missing. */
  ghost predicate MovesMoney(b: Books, from: u64, to: u64, amount: real, b': Books, outcome: Outcome)
  {
    && (outcome == Ok <==> from in b.users && to in b.users && b.users[from].balance >= amount)
    && (from !in b.users ==> outcome == Err(NotFound(from)))
    && (from in b.users && to !in b.users ==> outcome == Err(NotFound(to)))
    && (outcome.Err? && from in b.users && to in b.users ==> outcome == Err(Insufficient(b.users[from].balance)))
    && (outcome.Err? ==> b' == b)
    && (outcome == Ok ==>
          && b'.users.Keys == b.users.Keys && b'.nextUserId == b.nextUserId && b'.totalBalance == b.totalBalance
          && b'.transactions == b.transactions + [Transaction(from, to, amount, |b.transactions|)]
          && (from == to ==> b'.users == b.users)
          && (from != to ==> b'.users[from] == b.users[from].(balance := b.users[from].balance - amount))
          && (from != to ==> b'.users[to] == b.users[to].(balance := b.users[to].balance + amount))
          && (forall id :: id in b.users && id != from && id != to ==> b'.users[id] == b.users[id]))
  }

  /** A creation adds one user with the given name and balance, who has never logged in, under
      the next id, and changes no other user unless that id was taken. */
  ghost predicate AddsUser(b: Books, name: string, initial: real, b': Books)
  {
    && b'.users.Keys == b.users.Keys + {b.nextUserId}
    && b'.users[b.nextUserId] == User(b.nextUserId, name, initial, 0)
    && (forall id :: id in b.users && id != b.nextUserId ==> b'.users[id] == b.users[id])
    && b'.nextUserId == (if b.nextUserId == 0xFFFF_FFFF_FFFF_FFFF then 0 else b.nextUserId + 1)
    && b'.totalBalance == b.totalBalance + initial && b'.transactions == b.transactions
  }

  lemma TransferMoves(b: Books, from: u64, to: u64, amount: real)
    ensures var (b', outcome) := Transferred(b, from, to, amount); MovesMoney(b, from, to, amount, b', outcome)
  {
    if from == to && from in b.users && b.users[from].balance >= amount {
      assert b.users[from].balance - amount + amount == b.users[from].balance;
      assert Transferred(b, from, to, amount).0.users == b.users;
    }
  }

  lemma CreateAdds(b: Books, name: string, initial: real)
    ensures AddsUser(b, name, initial, Created(b, name, initial))
  {
  }

  // ---- the invariant -------------------------------------------------------------

  /** The sum of all balances. */
  ghost function Total(users: map<u64, User>): real
  {
    if users == map[] then 0.0
    else
      var id: u64 :| id in users;
      users[id].balance + Total(users - {id})
  }

  lemma {:induction false} TotalWithout(users: map<u64, User>, id: u64)
    requires id in users
    ensures Total(users) == users[id].balance + Total(users - {id})
    decreases |users|
  {
    var pick: u64 :| pick in users && Total(users) == users[pick].balance + Total(users - {pick});
    if pick != id {
      TotalWithout(users - {pick}, id);
      TotalWithout(users - {id}, pick);
      assert users - {pick} - {id} == users - {id} - {pick};
    }
  }

  lemma TotalAdd(users: map<u64, User>, id: u64, user: User)
    requires id !in users
    ensures Total(users[id := user]) == Total(users) + user.balance
  {
    TotalWithout(users[id := user], id);
    assert users[id := user] - {id} == users;
  }

  lemma TotalChange(users: map<u64, User>, id: u64, amount: real)
    requires id in users
    ensures Total(AddTo(users, id, amount)) == Total(users) + amount
  {
    TotalWithout(users, id);
    TotalWithout(AddTo(users, id, amount), id);
    assert AddTo(users, id, amount) - {id} == users - {id};
  }

  /** `total_balance` is the sum of the balances, every user is filed under its own id,
      ids are positive and below `next_user_id`, and timestamps are 0, 1, 2, ... */
  ghost predicate Consistent(b: Books)
  {
    && b.totalBalance == Total(b.users)
    && (forall id :: id in b.users ==> b.users[id].id == id && 0 < id < b.nextUserId)
    && (forall i :: 0 <= i < |b.transactions| ==> b.transactions[i].timestamp == i)
    && 0 < b.nextUserId
  }

  lemma EmptyConsistent()
    ensures Consistent(EMPTY)
  {
  }

  /** Creating a user keeps the books consistent if and only if the id counter does not wrap. */
  lemma CreateKeepsExactly(b: Books, name: string, initial: real)
    requires Consistent(b)
    ensures Consistent(Created(b, name, initial)) <==> b.nextUserId + 1 < U64
    ensures AddsUser(b, name, initial, Created(b, name, initial)) && b.nextUserId !in b.users
  {
    CreateAdds(b, name, initial);
    var user := User(b.nextUserId, name, initial, 0);
    TotalAdd(b.users, b.nextUserId, user);
  }

  /** A transfer keeps them always, whether it succeeds or not, whatever the sign of the
      amount and even from a user to itself; the total never changes. */
  lemma TransferKeeps(b: Books, from: u64, to: u64, amount: real)
    requires Consistent(b)
    ensures var (b', outcome) := Transferred(b, from, to, amount);
            Consistent(b') && b'.totalBalance == b.totalBalance && MovesMoney(b, from, to, amount, b', outcome)
  {
    TransferMoves(b, from, to, amount);
    hide MovesMoney;
    if from in b.users && to in b.users && b.users[from].balance >= amount {
      TotalChange(b.users, from, 0.0 - amount);
      TotalChange(AddTo(b.users, from, 0.0 - amount), to, amount);
    }
  }

  // ---- behind a remote trust ---------------------------------------------------------

  /** What the calls return: a new user's id, the outcome of a transfer, or a reading. */
  datatype Answer = UserId(id: u64) | Moved(outcome: Outcome) | Reading(balance: real)

  type BankRequest = Request<Books, Answer>

  ghost predicate CreatesUser(req: BankRequest, name: string, initial: real)
  {
    forall b :: Apply(req, b).0 == Created(b, name, initial) && Apply(req, b).1 == Result(UserId(b.nextUserId))
  }

  ghost predicate IsCreate(req: BankRequest)
  {
    exists name, initial :: CreatesUser(req, name, initial)
  }

  ghost predicate Moves(req: BankRequest, from: u64, to: u64, amount: real)
  {
    forall b :: Apply(req, b).0 == Transferred(b, from, to, amount).0
             && Apply(req, b).1 == Result(Moved(Transferred(b, from, to, amount).1))
  }

  ghost predicate IsTransfer(req: BankRequest)
  {
    exists from, to, amount :: Moves(req, from, to, amount)
  }

  ghost predicate IsReading(req: BankRequest)
  {
    forall b :: Apply(req, b).0 == b
  }

  ghost predicate IsBankCall(req: BankRequest)
  {
    IsCreate(req) || IsTransfer(req) || IsReading(req)
  }

  /** How many users the calls create. */
  ghost function Creates(ops: seq<BankRequest>): (n: nat)
    ensures n <= |ops|
    decreases |ops|
  {
    if ops == [] then 0
    else Creates(ops[..|ops| - 1]) + (if IsCreate(ops[|ops| - 1]) then 1 else 0)
  }

  lemma CreatedAs(req: BankRequest, b: Books) returns (name: string, initial: real)
    requires IsCreate(req)
    ensures Apply(req, b).0 == Created(b, name, initial) && Apply(req, b).1 == Result(UserId(b.nextUserId))
  {
    hide Apply, Created;
    name, initial :| CreatesUser(req, name, initial);
  }

  lemma CreateCallKeeps(b: Books, req: BankRequest)
    requires Consistent(b) && IsCreate(req) && b.nextUserId + 1 < U64
    ensures Consistent(Apply(req, b).0)
    ensures Apply(req, b).0.nextUserId == b.nextUserId + 1 && Apply(req, b).1 == Result(UserId(b.nextUserId))
  {
    hide Apply, Consistent, IsCreate;
    var name, initial := CreatedAs(req, b);
    CreateKeepsExactly(b, name, initial);
  }

  lemma OtherCallKeeps(b: Books, req: BankRequest)
    requires Consistent(b) && (IsTransfer(req) || IsReading(req))
    ensures Consistent(Apply(req, b).0)
    ensures Apply(req, b).0.nextUserId == b.nextUserId && Apply(req, b).0.totalBalance == b.totalBalance
  {
    hide Apply, Consistent;
    if IsTransfer(req) {
      var from, to, amount :| Moves(req, from, to, amount);
      TransferKeeps(b, from, to, amount);
    }
  }

  lemma {:induction false} FoldIsConsistent(ops: seq<BankRequest>)
    requires forall i :: 0 <= i < |ops| ==> IsBankCall(ops[i])
    requires Creates(ops) + 1 < U64
    ensures Consistent(Fold(EMPTY, ops)) && Fold(EMPTY, ops).nextUserId == 1 + Creates(ops)
    decreases |ops|
  {
    if ops == [] {
      EmptyConsistent();
    } else {
      var n := |ops| - 1;
      FoldIsConsistent(ops[..n]);
      hide Apply, Consistent, IsCreate, IsTransfer, IsReading;
      if IsCreate(ops[n]) {
        CreateCallKeeps(Fold(EMPTY, ops[..n]), ops[n]);
      } else {
        OtherCallKeeps(Fold(EMPTY, ops[..n]), ops[n]);
      }
    }
  }

  /** The call of apply_with that creates one user: the name travels as argument bytes, and
      the closure decodes what it is given. */
  function CreateCall(decode: seq<byte> -> string, bytes: seq<byte>, initial: real): BankRequest
  {
    CallMutArgsOutPtr((b: Books, args: seq<byte>) => (Created(b, decode(args), initial), UserId(b.nextUserId)), bytes)
  }

  /** It creates the user whose name the bytes encode. */
  lemma CreateCallAs(decode: seq<byte> -> string, bytes: seq<byte>, initial: real)
    ensures CreatesUser(CreateCall(decode, bytes, initial), decode(bytes), initial)
  {
    hide Created;
    var req, name := CreateCall(decode, bytes, initial), decode(bytes);
    forall b
      ensures Apply(req, b).0 == Created(b, name, initial) && Apply(req, b).1 == Result(UserId(b.nextUserId))
    {
    }
  }

  lemma {:induction false} CopiesCreate(req: BankRequest, n: nat)
    requires IsCreate(req)
    ensures Creates(Copies(req, n)) == n
    decreases n
  {
    if n > 0 {
      hide IsCreate;
      CopiesCreate(req, n - 1);
      assert Copies(req, n)[..n - 1] == Copies(req, n - 1);
    }
  }

  /** Calls alone get there: after 2^64 - 2 creations, each of which kept the books
      consistent, the next one wraps the id counter and breaks them. */
  lemma CreateMayWrap(decode: seq<byte> -> string, bytes: seq<byte>, n: nat)
    requires n + 2 == U64
    ensures Consistent(Fold(EMPTY, Copies(CreateCall(decode, bytes, 0.0), n)))
    ensures !Consistent(Fold(EMPTY, Copies(CreateCall(decode, bytes, 0.0), n + 1)))
  {
    var req := CreateCall(decode, bytes, 0.0);
    CreateCallAs(decode, bytes, 0.0);
    CopiesReach(req, decode(bytes), n);
  }

  lemma CopiesReach(req: BankRequest, name: string, n: nat)
    requires n + 2 == U64 && CreatesUser(req, name, 0.0)
    ensures Consistent(Fold(EMPTY, Copies(req, n))) && !Consistent(Fold(EMPTY, Copies(req, n + 1)))
  {
    var ops := Copies(req, n + 1);
    hide *;
    CreatesIsBankCall(req, name);
    assert ops[..n] == Copies(req, n);
    CopiesCreate(req, n);
    LastWraps(ops, name, n);
  }

  lemma CreatesIsBankCall(req: BankRequest, name: string)
    requires CreatesUser(req, name, 0.0)
    ensures IsCreate(req) && IsBankCall(req)
  {
    hide CreatesUser;
  }

  lemma LastWraps(ops: seq<BankRequest>, name: string, n: nat)
    requires n + 2 == U64 && |ops| == n + 1 && CreatesUser(ops[n], name, 0.0)
    requires Creates(ops[..n]) == n && forall k :: 0 <= k < n ==> IsBankCall(ops[k])
    ensures Consistent(Fold(EMPTY, ops[..n])) && !Consistent(Fold(EMPTY, ops))
  {
    hide *;
    FoldIsConsistent(ops[..n]);
    FoldCreates(ops, n, name, 0.0);
    assert ops[..n + 1] == ops;
    CreateKeepsExactly(Fold(EMPTY, ops[..n]), name, 0.0);
  }

  /** In every state of every run of bank calls from any number of handles, the books are
      consistent and the next id is one more than the number of users created, as long as
      the 64-bit id counter has not been used up. */
  lemma BankStaysConsistent(states: seq<State<Books, Answer>>, steps: seq<Step<Books, Answer>>, n: nat)
    requires Run(EMPTY, states, steps) && n <= |steps|
    requires forall k :: 0 <= k < n && steps[k].Write? ==> IsBankCall(steps[k].req)
    requires Creates(A.Effects(Trace(states, steps)[..n])) + 1 < U64
    ensures Consistent(states[n].value)
    ensures states[n].value.nextUserId == 1 + Creates(A.Effects(Trace(states, steps)[..n]))
  {
    ValueIsFoldOfExecutions(EMPTY, states, steps, n);
    hide Run, IsBankCall, Consistent;
    Runs.EffectsAreWritten((req: BankRequest) => IsBankCall(req), EMPTY, states, steps, n);
    FoldIsConsistent(A.Effects(Trace(states, steps)[..n]));
  }

  lemma {:induction false} CreatesGrow(ops: seq<BankRequest>, i: nat)
    requires i <= |ops|
    ensures Creates(ops[..i]) <= Creates(ops)
    decreases |ops|
  {
    if i < |ops| {
      var n := |ops| - 1;
      CreatesGrow(ops[..n], i);
      assert ops[..n][..i] == ops[..i];
    } else {
      assert ops[..i] == ops;
    }
  }

  lemma CreateCounts(ops: seq<BankRequest>, i: nat)
    requires i < |ops| && IsCreate(ops[i])
    ensures Creates(ops[..i]) + 1 == Creates(ops[..i + 1]) <= Creates(ops)
  {
    hide IsCreate;
    CreatesGrow(ops, i + 1);
    assert ops[..i + 1][..i] == ops[..i];
  }

  /** What the i-th execution of a run answers. */
  ghost function AnswerAt(ops: seq<BankRequest>, i: nat): Reply<Books, Answer>
    requires i < |ops|
  {
    Apply(ops[i], Fold(EMPTY, ops[..i])).1
  }

  predicate AnswersId(reply: Reply<Books, Answer>, id: nat)
  {
    reply.Result? && reply.r.UserId? && reply.r.id == id
  }

  /** An execution that creates a user returns one more than the number of users created
      before it. */
  lemma IdIsCount(ops: seq<BankRequest>, i: nat)
    requires forall k :: 0 <= k < |ops| ==> IsBankCall(ops[k])
    requires Creates(ops) + 1 < U64 && i < |ops| && IsCreate(ops[i])
    ensures AnswersId(AnswerAt(ops, i), 1 + Creates(ops[..i]))
  {
    hide Apply, Consistent, IsCreate, IsTransfer, IsReading, IsBankCall, Fold, Creates;
    CreateCounts(ops, i);
    FoldIsConsistent(ops[..i]);
    CreateCallKeeps(Fold(EMPTY, ops[..i]), ops[i]);
  }

  /** Two executions that create users answer different ids. */
  lemma IdsAreDistinct(ops: seq<BankRequest>, i: nat, j: nat)
    requires forall k :: 0 <= k < |ops| ==> IsBankCall(ops[k])
    requires Creates(ops) + 1 < U64
    requires i < j < |ops| && IsCreate(ops[i]) && IsCreate(ops[j])
    ensures AnswerAt(ops, i) != AnswerAt(ops, j)
  {
    hide Apply, Consistent, IsCreate, IsTransfer, IsReading, IsBankCall, Fold, Creates, AnswerAt;
    IdIsCount(ops, i);
    IdIsCount(ops, j);
    CreateCounts(ops, i);
    CreatesGrow(ops[..j], i + 1);
    assert ops[..j][..i + 1] == ops[..i + 1];
  }

  /** Creating calls answer. */
  lemma CreateIsNoBatch(req: BankRequest)
    requires IsCreate(req)
    ensures !req.CallMutRetUnit?
  {
    var name, initial :| CreatesUser(req, name, initial);
    assert Apply(req, EMPTY).1.Result?;
  }

  /** Of two returns from creating calls, the later one returns another id. */
  lemma ReturnedIdsDiffer(objs: seq<A.Object<Books, Answer>>, labels: seq<A.Label<Books, Answer>>,
                          i: nat, c: nat, req: BankRequest, reply: Reply<Books, Answer>,
                          j: nat, d: nat, req': BankRequest, reply': Reply<Books, Answer>)
    requires A.ObjectRun(objs, labels) && objs[0] == A.Object(EMPTY, [A.Free]) && i < j < |labels|
    requires labels[i] == A.Return(c, reply) && A.Finished(objs, i, c, req, reply)
    requires labels[j] == A.Return(d, reply') && A.Finished(objs, j, d, req', reply')
    requires forall k :: 0 <= k < |A.Effects(labels)| ==> IsBankCall(A.Effects(labels)[k])
    requires Creates(A.Effects(labels)) + 1 < U64
    requires IsCreate(req) && IsCreate(req')
    ensures reply != reply'
  {
    hide A.ObjectRun, IsBankCall, IsCreate, Creates, Apply;
    CreateIsNoBatch(req);
    CreateIsNoBatch(req');
    var at, e := A.FinishedHasExecution(objs, labels, c, req, reply, i);
    var at', e' := A.FinishedHasExecution(objs, labels, d, req', reply', j);
    A.ExecutionsDiffer(labels, c, req, e, i, d, req', at', e', j);
    A.EffectPlace(labels, e);
    A.EffectPlace(labels, e');
    var ops, p, p' := A.Effects(labels), A.Place(labels, e), A.Place(labels, e');
    assert AnswerAt(ops, p) == reply && AnswerAt(ops, p') == reply';
    hide AnswerAt;
    if e < e' {
      A.PlacesGrow(labels, e, e');
      IdsAreDistinct(ops, p, p');
    } else {
      A.PlacesGrow(labels, e', e);
      IdsAreDistinct(ops, p', p);
    }
  }

  lemma AllAreBankCalls(states: seq<State<Books, Answer>>, steps: seq<Step<Books, Answer>>)
    requires Run(EMPTY, states, steps) && |states| == |steps| + 1
    requires forall k :: 0 <= k < |steps| && steps[k].Write? ==> IsBankCall(steps[k].req)
    ensures forall k :: 0 <= k < |A.Effects(Trace(states, steps))| ==> IsBankCall(A.Effects(Trace(states, steps))[k])
  {
    hide Run, IsBankCall;
    Runs.EffectsAreWritten((req: BankRequest) => IsBankCall(req), EMPTY, states, steps, |steps|);
    assert Trace(states, steps)[..|steps|] == Trace(states, steps);
  }

  /** No id is handed out twice: in any run of bank calls from any handles, two different
      reads of the replies to creating calls read different ids, as long as the id counter
      has not been used up. */
  lemma ReadIdsAreDistinct(states: seq<State<Books, Answer>>, steps: seq<Step<Books, Answer>>, i: nat, j: nat)
    requires Run(EMPTY, states, steps) && |states| == |steps| + 1
    requires i < j < |steps| && steps[i].ReadBack? && steps[j].ReadBack?
    requires forall k :: 0 <= k < |steps| && steps[k].Write? ==> IsBankCall(steps[k].req)
    requires Creates(A.Effects(Trace(states, steps))) + 1 < U64
    requires IsCreate(RecordOf(states[i], steps[i].c)) && IsCreate(RecordOf(states[j], steps[j].c))
    ensures ReplyAt(states[i], steps[i].c) != ReplyAt(states[j], steps[j].c)
  {
    hide Run, IsBankCall, IsCreate, Creates, RecordOf, ReplyAt, A.ObjectRun, A.Finished;
    AllAreBankCalls(states, steps);
    RunRefines(EMPTY, states, steps);
    Runs.ReadInHistory(EMPTY, states, steps, i);
    Runs.ReadInHistory(EMPTY, states, steps, j);
    ReturnedIdsDiffer(Objects(states), Trace(states, steps),
      i, steps[i].c, RecordOf(states[i], steps[i].c), ReplyAt(states[i], steps[i].c),
      j, steps[j].c, RecordOf(states[j], steps[j].c), ReplyAt(states[j], steps[j].c));
  }

  // ---- every account over a run ------------------------------------------------------

  /** What an account received minus what it paid. */
  function Net(log: seq<Transaction>, id: u64): real
    decreases |log|
  {
    if log == [] then 0.0
    else
      var t := log[|log| - 1];
      Net(log[..|log| - 1], id) + (if t.to == id then t.amount else 0.0) - (if t.from == id then t.amount else 0.0)
  }

  lemma {:induction false} NetAdds(log: seq<Transaction>, more: seq<Transaction>, id: u64)
    ensures Net(log + more, id) == Net(log, id) + Net(more, id)
    decreases |more|
  {
    if more == [] {
      assert log + more == log;
    } else {
      NetAdds(log, more[..|more| - 1], id);
      assert (log + more)[..|log + more| - 1] == log + more[..|more| - 1];
    }
  }

  /** The log mentions users only. */
  ghost predicate LogOk(b: Books)
  {
    forall i :: 0 <= i < |b.transactions| ==> b.transactions[i].from in b.users && b.transactions[i].to in b.users
  }

  lemma {:induction false} NetOfStranger(log: seq<Transaction>, id: u64)
    requires forall i :: 0 <= i < |log| ==> log[i].from != id && log[i].to != id
    ensures Net(log, id) == 0.0
    decreases |log|
  {
    if log != [] {
      NetOfStranger(log[..|log| - 1], id);
    }
  }

  /** From b to b', no user is lost or renamed, the log only grows, and every balance moves by
      exactly what the new entries say. */
  ghost predicate Evolves(b: Books, b': Books)
  {
    && b.transactions <= b'.transactions
    && forall id :: id in b.users ==> id in b'.users && Accounted(b, b', id)
  }

  ghost predicate Accounted(b: Books, b': Books, id: u64)
    requires id in b.users && id in b'.users && b.transactions <= b'.transactions
  {
    && b'.users[id].name == b.users[id].name && b'.users[id].lastLogin == b.users[id].lastLogin
    && b'.users[id].balance == b.users[id].balance + Net(b'.transactions[|b.transactions|..], id)
  }

  lemma EvolvesSame(b: Books)
    ensures Evolves(b, b)
  {
    assert b.transactions[|b.transactions|..] == [];
  }

  lemma EvolvesOn(a: Books, b: Books, c: Books)
    requires Evolves(a, b) && Evolves(b, c)
    ensures Evolves(a, c)
  {
    var na, nb := |a.transactions|, |b.transactions|;
    assert c.transactions[na..] == b.transactions[na..] + c.transactions[nb..] by {
      assert c.transactions[..nb] == b.transactions;
    }
    forall id | id in a.users
      ensures id in c.users && Accounted(a, c, id)
    {
      assert Accounted(a, b, id) && Accounted(b, c, id);
      NetAdds(b.transactions[na..], c.transactions[nb..], id);
    }
  }

  lemma CreateEvolves(b: Books, name: string, initial: real, b': Books)
    requires AddsUser(b, name, initial, b') && b.nextUserId !in b.users && LogOk(b)
    ensures Evolves(b, b') && LogOk(b')
    ensures Net(b'.transactions, b.nextUserId) == 0.0
  {
    assert b'.transactions[|b.transactions|..] == [];
    NetOfStranger(b.transactions, b.nextUserId);
  }

  lemma TransferEvolves(b: Books, from: u64, to: u64, amount: real, b': Books, outcome: Outcome)
    requires MovesMoney(b, from, to, amount, b', outcome) && LogOk(b)
    ensures Evolves(b, b') && LogOk(b')
  {
    if outcome == Ok {
      var t := Transaction(from, to, amount, |b.transactions|);
      assert b'.transactions[|b.transactions|..] == [t];
      forall id | id in b.users
        ensures id in b'.users && Accounted(b, b', id)
      {
        assert Net([t], id) == (if to == id then amount else 0.0) - (if from == id then amount else 0.0);
      }
    } else {
      EvolvesSame(b);
    }
  }

  lemma CallEvolves(b: Books, req: BankRequest)
    requires Consistent(b) && LogOk(b) && IsBankCall(req)
    ensures Evolves(b, Apply(req, b).0) && LogOk(Apply(req, b).0)
  {
    hide Apply, Consistent, LogOk, Evolves, AddsUser, MovesMoney, Created, Transferred, IsCreate;
    if IsCreate(req) {
      var name, initial := CreatedAs(req, b);
      CreateKeepsExactly(b, name, initial);
      CreateEvolves(b, name, initial, Created(b, name, initial));
    } else if IsTransfer(req) {
      var from, to, amount :| Moves(req, from, to, amount);
      TransferMoves(b, from, to, amount);
      TransferEvolves(b, from, to, amount, Transferred(b, from, to, amount).0, Transferred(b, from, to, amount).1);
    } else {
      EvolvesSame(b);
    }
  }

  lemma {:induction false} FoldLogOk(ops: seq<BankRequest>)
    requires forall k :: 0 <= k < |ops| ==> IsBankCall(ops[k])
    requires Creates(ops) + 1 < U64
    ensures LogOk(Fold(EMPTY, ops))
    decreases |ops|
  {
    if ops != [] {
      var n := |ops| - 1;
      FoldIsConsistent(ops[..n]);
      FoldLogOk(ops[..n]);
      hide Apply, Consistent, LogOk, IsBankCall, IsCreate;
      CallEvolves(Fold(EMPTY, ops[..n]), ops[n]);
    }
  }

  lemma {:induction false} FoldEvolves(ops: seq<BankRequest>, i: nat)
    requires forall k :: 0 <= k < |ops| ==> IsBankCall(ops[k])
    requires Creates(ops) + 1 < U64 && i <= |ops|
    ensures Evolves(Fold(EMPTY, ops[..i]), Fold(EMPTY, ops))
    decreases |ops|
  {
    hide Apply, Consistent, LogOk, Evolves, IsBankCall, IsCreate;
    if i < |ops| {
      var n := |ops| - 1;
      FoldEvolves(ops[..n], i);
      assert ops[..n][..i] == ops[..i];
      FoldIsConsistent(ops[..n]);
      FoldLogOk(ops[..n]);
      CallEvolves(Fold(EMPTY, ops[..n]), ops[n]);
      EvolvesOn(Fold(EMPTY, ops[..i]), Fold(EMPTY, ops[..n]), Fold(EMPTY, ops));
    } else {
      assert ops[..i] == ops;
      EvolvesSame(Fold(EMPTY, ops));
    }
  }

  lemma FoldEvolvesOn(before: seq<BankRequest>, ops: seq<BankRequest>)
    requires before <= ops && forall k :: 0 <= k < |ops| ==> IsBankCall(ops[k])
    requires Creates(ops) + 1 < U64
    ensures Evolves(Fold(EMPTY, before), Fold(EMPTY, ops))
  {
    FoldEvolves(ops, |before|);
    assert ops[..|before|] == before;
  }

  /** The account has this name, and its opening balance plus what it received minus what it
      paid. */
  ghost predicate HasAccount(b: Books, id: nat, name: string, opening: real)
  {
    && id < U64 && id in b.users && b.users[id].name == name
    && b.users[id].balance == opening + Net(b.transactions, id)
  }

  lemma AccountKept(before: Books, name: string, initial: real, b: Books)
    requires Consistent(before) && LogOk(before) && Evolves(Created(before, name, initial), b)
    ensures HasAccount(b, before.nextUserId, name, initial)
  {
    var after, id := Created(before, name, initial), before.nextUserId;
    CreateKeepsExactly(before, name, initial);
    CreateEvolves(before, name, initial, after);
    hide Created, Consistent, LogOk;
    assert Accounted(after, b, id);
    NetAdds(after.transactions, b.transactions[|after.transactions|..], id);
    assert after.transactions + b.transactions[|after.transactions|..] == b.transactions;
  }

  lemma FoldCreates(ops: seq<BankRequest>, e: nat, name: string, initial: real)
    requires e < |ops| && CreatesUser(ops[e], name, initial)
    ensures IsCreate(ops[e]) && Fold(EMPTY, ops[..e + 1]) == Created(Fold(EMPTY, ops[..e]), name, initial)
  {
    hide Apply, Created;
    assert ops[..e + 1][..e] == ops[..e];
  }

  /** The account that the e-th execution opened, after all of `ops`. */
  lemma AccountAfter(ops: seq<BankRequest>, e: nat, name: string, initial: real)
    requires forall k :: 0 <= k < |ops| ==> IsBankCall(ops[k])
    requires Creates(ops) + 1 < U64 && e < |ops| && CreatesUser(ops[e], name, initial)
    ensures HasAccount(Fold(EMPTY, ops), 1 + Creates(ops[..e]), name, initial)
  {
    hide *;
    FoldCreates(ops, e, name, initial);
    CreateCounts(ops, e);
    FoldIsConsistent(ops[..e]);
    FoldLogOk(ops[..e]);
    FoldEvolves(ops, e + 1);
    AccountKept(Fold(EMPTY, ops[..e]), name, initial, Fold(EMPTY, ops));
  }

  /** In every state of every run of bank calls from any number of handles, an account opened by
      an execution so far has its opening balance plus the incoming minus the outgoing amounts
      of the log, as long as the id counter has not been used up. */
  lemma BalanceIsAccounted(states: seq<State<Books, Answer>>, steps: seq<Step<Books, Answer>>, n: nat, e: nat,
                           name: string, initial: real)
    requires Run(EMPTY, states, steps) && n <= |steps|
    requires forall k :: 0 <= k < n && steps[k].Write? ==> IsBankCall(steps[k].req)
    requires Creates(A.Effects(Trace(states, steps)[..n])) + 1 < U64
    requires e < |A.Effects(Trace(states, steps)[..n])|
    requires CreatesUser(A.Effects(Trace(states, steps)[..n])[e], name, initial)
    ensures HasAccount(states[n].value, 1 + Creates(A.Effects(Trace(states, steps)[..n])[..e]), name, initial)
  {
    hide *;
    RunLength(EMPTY, states, steps);
    ValueIsFoldOfExecutions(EMPTY, states, steps, n);
    Runs.EffectsAreWritten((req: BankRequest) => IsBankCall(req), EMPTY, states, steps, n);
    AccountAfter(A.Effects(Trace(states, steps)[..n]), e, name, initial);
  }

  /** And between any two states of a run every balance moves by exactly the transfers logged
      in between. */
  lemma BalanceMovesByLog(states: seq<State<Books, Answer>>, steps: seq<Step<Books, Answer>>, i: nat, n: nat, id: u64)
    requires Run(EMPTY, states, steps) && i <= n <= |steps| && id in states[i].value.users
    requires forall k :: 0 <= k < n && steps[k].Write? ==> IsBankCall(steps[k].req)
    requires Creates(A.Effects(Trace(states, steps)[..n])) + 1 < U64
    ensures states[i].value.transactions <= states[n].value.transactions && id in states[n].value.users
    ensures states[n].value.users[id].balance
         == states[i].value.users[id].balance
            + Net(states[n].value.transactions[|states[i].value.transactions|..], id)
  {
    hide Run, IsBankCall, Creates, Fold, LabelOf, Trace, A.Effects;
    RunLength(EMPTY, states, steps);
    ValueIsFoldOfExecutions(EMPTY, states, steps, i);
    ValueIsFoldOfExecutions(EMPTY, states, steps, n);
    Runs.EffectsAreWritten((req: BankRequest) => IsBankCall(req), EMPTY, states, steps, n);
    var labels := Trace(states, steps);
    assert labels[..n][..i] == labels[..i];
    A.EffectsPrefix(labels[..n], i);
    FoldEvolvesOn(A.Effects(labels[..i]), A.Effects(labels[..n]));
    assert Accounted(states[i].value, states[n].value, id);
  }

  // ---- the struct with its methods -------------------------------------------------

  class BankState {
    var users: map<u64, User>
    var transactions: seq<Transaction>
    var nextUserId: u64
    var totalBalance: real

    function Value(): Books
      reads this
    {
      Books(users, transactions, nextUserId, totalBalance)
    }

    constructor ()
      ensures Value() == EMPTY
    {
      users, transactions, nextUserId, totalBalance := map[], [], 1, 0.0;
    }

    method CreateUser(name: string, initialBalance: real) returns (userId: u64)
      modifies this
      ensures Value() == Created(old(Value()), name, initialBalance)
      ensures AddsUser(old(Value()), name, initialBalance, Value())
      ensures userId == old(nextUserId)
      ensures old(Consistent(Value())) && old(nextUserId) + 1 < U64 ==> Consistent(Value()) && userId !in old(users)
    {
      ghost var before := Value();
      userId := nextUserId;
      nextUserId := (nextUserId + 1) % U64;
      var user := User(userId, name, initialBalance, 0);
      totalBalance := totalBalance + initialBalance;
      users := users[userId := user];
      CreateAdds(before, name, initialBalance);
      if Consistent(before) {
        CreateKeepsExactly(before, name, initialBalance);
      }
    }

    method Transfer(from: u64, to: u64, amount: real) returns (outcome: Outcome)
      modifies this
      ensures (Value(), outcome) == Transferred(old(Value()), from, to, amount)
      ensures MovesMoney(old(Value()), from, to, amount, Value(), outcome)
      ensures old(Consistent(Value())) ==> Consistent(Value())
    {
      ghost var before := Value();
      TransferMoves(before, from, to, amount);
      if Consistent(before) {
        TransferKeeps(before, from, to, amount);
      }
      if from !in users {
        return Err(NotFound(from));
      }
      if to !in users {
        return Err(NotFound(to));
      }
      if users[from].balance < amount {
        return Err(Insufficient(users[from].balance));
      }
      users := users[from := users[from].(balance := users[from].balance - amount)];
      users := users[to := users[to].(balance := users[to].balance + amount)];
      transactions := transactions + [Transaction(from, to, amount, |transactions|)];
      outcome := Ok;
    }
  }
}
