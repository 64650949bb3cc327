/**
 * Transactions that take one advisory lock per user, in sorted order. Lock keys are taken to be
 * distinct for distinct users. A transaction holds what it has acquired until it ends.
 */
module LockOrder {
  type UserId = nat
  type TxId = nat

  predicate Sorted(s: seq<UserId>) {
    forall i, j :: 0 <= i < j < |s| ==> s[i] <= s[j]
  }

  function Insert(x: UserId, s: seq<UserId>): seq<UserId> {
    if s == [] || x <= s[0] then [x] + s else [s[0]] + Insert(x, s[1..])
  }

  function Sort(s: seq<UserId>): seq<UserId> {
    if s == [] then [] else Insert(s[0], Sort(s[1..]))
  }

  lemma {:induction false} InsertAdds(x: UserId, s: seq<UserId>)
    ensures multiset(Insert(x, s)) == multiset{x} + multiset(s)
  {
    if s != [] && x > s[0] {
      InsertAdds(x, s[1..]);
      assert s == [s[0]] + s[1..];
    }
  }

  lemma {:induction false} InsertSorts(x: UserId, s: seq<UserId>)
    requires Sorted(s)
    ensures Sorted(Insert(x, s))
  {
    if s != [] && x > s[0] {
      InsertSorts(x, s[1..]);
      InsertAdds(x, s[1..]);
      var rest := Insert(x, s[1..]);
      forall j | 0 <= j < |rest| ensures s[0] <= rest[j] {
        assert rest[j] in multiset(rest);
        if rest[j] != x { assert rest[j] in s[1..]; }
      }
    }
  }

  /** The lock order is sorted and asks for exactly the given users. */
  lemma {:induction false} SortSorts(s: seq<UserId>)
    ensures Sorted(Sort(s)) && multiset(Sort(s)) == multiset(s)
  {
    if s != [] {
      SortSorts(s[1..]);
      InsertSorts(s[0], Sort(s[1..]));
      InsertAdds(s[0], Sort(s[1..]));
      assert s == [s[0]] + s[1..];
    }
  }

  /** A transaction acquires `wants` from the left; `held` of them are acquired. */
  datatype Locker = Locker(wants: seq<UserId>, held: nat)

  datatype Op =
    | Begin(tx: TxId, users: seq<UserId>)
    | Acquire(tx: TxId)
    | Finish(tx: TxId)

  predicate Holds(l: Locker, user: UserId) {
    l.held <= |l.wants| && user in l.wants[..l.held]
  }

  predicate Asks(l: Locker) {
    l.held < |l.wants|
  }

  /** An advisory lock is granted unless another transaction holds it. */
  predicate Free(w: map<TxId, Locker>, tx: TxId, user: UserId) {
    forall other | other in w && other != tx :: !Holds(w[other], user)
  }

  function Do(w: map<TxId, Locker>, op: Op): map<TxId, Locker> {
    match op
    case Begin(tx, users) => if tx in w then w else w[tx := Locker(Sort(users), 0)]
    case Acquire(tx) =>
      if tx in w && Asks(w[tx]) && Free(w, tx, w[tx].wants[w[tx].held])
      then w[tx := w[tx].(held := w[tx].held + 1)] else w
    case Finish(tx) => w - {tx}
  }

  function Run(w: map<TxId, Locker>, ops: seq<Op>): map<TxId, Locker>
    decreases |ops|
  {
    if ops == [] then w else Run(Do(w, ops[0]), ops[1..])
  }

  ghost predicate Exclusive(w: map<TxId, Locker>) {
    && (forall tx | tx in w :: w[tx].held <= |w[tx].wants| && Sorted(w[tx].wants))
    && (forall a, b, user | a in w && b in w && Holds(w[a], user) && Holds(w[b], user) :: a == b)
  }

  lemma StepKeeps(w: map<TxId, Locker>, op: Op)
    requires Exclusive(w)
    ensures Exclusive(Do(w, op))
  {
    match op
    case Begin(tx, users) => SortSorts(users);
    case Acquire(tx) =>
      if tx in w && Asks(w[tx]) && Free(w, tx, w[tx].wants[w[tx].held]) {
        var before, after := w[tx], Do(w, op)[tx];
        assert after.wants[..after.held] == before.wants[..before.held] + [before.wants[before.held]];
      }
    case Finish(tx) =>
  }

  lemma {:induction false} RunKeeps(w: map<TxId, Locker>, ops: seq<Op>)
    requires Exclusive(w)
    ensures Exclusive(Run(w, ops))
    decreases |ops|
  {
    if ops != [] {
      StepKeeps(w, ops[0]);
      RunKeeps(Do(w, ops[0]), ops[1..]);
    }
  }

  /** `a` cannot go on before `b` has finished. */
  predicate Waits(w: map<TxId, Locker>, a: TxId, b: TxId) {
    && a in w && b in w && a != b
    && Asks(w[a]) && Holds(w[b], w[a].wants[w[a].held])
  }

  function Awaited(w: map<TxId, Locker>, a: TxId): UserId
    requires a in w && Asks(w[a])
  {
    w[a].wants[w[a].held]
  }

  /** Along a chain of waits the awaited user strictly grows. */
  lemma AwaitedGrows(w: map<TxId, Locker>, a: TxId, b: TxId, c: TxId)
    requires Exclusive(w) && Waits(w, a, b) && Waits(w, b, c)
    ensures Awaited(w, a) < Awaited(w, b)
  {
  }

  ghost predicate Chain(w: map<TxId, Locker>, txs: seq<TxId>) {
    forall i :: 0 <= i < |txs| - 1 ==> Waits(w, txs[i], txs[i + 1])
  }

  lemma {:induction false} ChainGrows(w: map<TxId, Locker>, txs: seq<TxId>, n: nat)
    requires Exclusive(w) && Chain(w, txs) && 0 < n < |txs| - 1
    ensures Waits(w, txs[0], txs[1]) && Waits(w, txs[n], txs[n + 1])
    ensures Awaited(w, txs[0]) < Awaited(w, txs[n])
    decreases n
  {
    assert Waits(w, txs[0], txs[0 + 1]) && Waits(w, txs[n - 1], txs[n - 1 + 1]);
    AwaitedGrows(w, txs[n - 1], txs[n], txs[n + 1]);
    if n > 1 { ChainGrows(w, txs, n - 1); }
  }

  /** No interleaving of any transactions closes a cycle of lock waits. */
  lemma NoDeadlock(ops: seq<Op>, txs: seq<TxId>)
    requires |txs| >= 2 && txs[0] == txs[|txs| - 1]
    ensures !Chain(Run(map[], ops), txs)
  {
    RunKeeps(map[], ops);
    var w := Run(map[], ops);
    if Chain(w, txs) {
      var again := txs + [txs[1]];
      assert Waits(w, txs[0], txs[0 + 1]);
      forall i | 0 <= i < |again| - 1 ensures Waits(w, again[i], again[i + 1]) {
        if i < |txs| - 1 { assert again[i] == txs[i] && again[i + 1] == txs[i + 1]; }
      }
      ChainGrows(w, again, |txs| - 1);
    }
  }

  ghost predicate Stuck(w: map<TxId, Locker>, a: TxId) {
    a in w && exists b :: Waits(w, a, b)
  }

  /** A transaction awaiting the greatest lock waits for one that can go on. */
  lemma {:induction false} SomebodyGoesOn(w: map<TxId, Locker>, a: TxId, bound: nat)
    requires Exclusive(w) && a in w
    requires forall tx | tx in w && Asks(w[tx]) :: Awaited(w, tx) <= bound
    ensures exists free :: free in w && !Stuck(w, free)
    decreases if Asks(w[a]) then bound - Awaited(w, a) + 1 else 0
  {
    if Stuck(w, a) {
      var b :| Waits(w, a, b);
      if Stuck(w, b) {
        var c :| Waits(w, b, c);
        AwaitedGrows(w, a, b, c);
        SomebodyGoesOn(w, b, bound);
      }
    }
  }

  lemma {:induction false} AwaitedBound(w: map<TxId, Locker>, txs: set<TxId>) returns (bound: nat)
    requires forall tx | tx in txs :: tx in w
    ensures forall tx | tx in txs && Asks(w[tx]) :: Awaited(w, tx) <= bound
    decreases txs
  {
    if txs == {} {
      bound := 0;
    } else {
      var tx :| tx in txs;
      bound := AwaitedBound(w, txs - {tx});
      if Asks(w[tx]) && Awaited(w, tx) > bound { bound := Awaited(w, tx); }
    }
  }

  /** Whatever has happened, some open transaction is not blocked. */
  lemma Progress(ops: seq<Op>)
    requires Run(map[], ops) != map[]
    ensures var w := Run(map[], ops); exists tx :: tx in w && !Stuck(w, tx)
  {
    RunKeeps(map[], ops);
    var w := Run(map[], ops);
    var a :| a in w;
    var bound := AwaitedBound(w, w.Keys);
    SomebodyGoesOn(w, a, bound);
  }
}
