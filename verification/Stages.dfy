/**
 * The abandon compensators of Stage 1 and Stage 3. Stage 1 is one SQL transaction. Stage 3 reverts
 * Redis in the middle of its transaction, which may still roll back and be retried.
 */
module Stages {
  import opened Sums
  import opened Domain
  import opened Options

  /** `tt` is a nullable column, `until` the end of the reservation. */
  datatype Row = Row(tt: Option<Uuid>, quantity: int, status: Status, until: int)

  datatype Pg = Pg(orders: map<Uuid, Row>, avail: map<Uuid, int>)

  datatype Result = Done | NotEligible | Failure

  /** Stage 1's whole effect, and its answer when nothing fails. */
  function Stage1(pg: Pg, id: Uuid): (Pg, Result) {
    if id !in pg.orders || pg.orders[id].tt.None? then (pg, Failure)
    else if pg.orders[id].status != AwaitingPayment then (pg, NotEligible)
    else (Returned(pg, id), Done)
  }

  /** The order compensated and its tickets returned, if their row exists. */
  function Returned(pg: Pg, id: Uuid): Pg
    requires id in pg.orders && pg.orders[id].tt.Some?
  {
    var o := pg.orders[id];
    Pg(pg.orders[id := o.(status := Compensated)],
       if o.tt.value in pg.avail then pg.avail[o.tt.value := pg.avail[o.tt.value] + o.quantity] else pg.avail)
  }

  /** How a store call ends: cleanly, failed without effect, or applied with the reply lost. */
  datatype Fault = Clean | Fails | Lost

  /** `guards` holds the orders whose revert key is set; `held` the row locks, with "Redis is reverted". */
  datatype State = State(pg: Pg, qty: map<Uuid, int>, guards: set<Uuid>, held: map<Uuid, bool>)

  datatype Action =
    | Begin(id: Uuid) | RevertRedis(id: Uuid, f: Fault) | Commit(id: Uuid, f: Fault) | Abort(id: Uuid) | Pay(id: Uuid)
    | GuardLost(id: Uuid)

  predicate Eligible(pg: Pg, id: Uuid) {
    id in pg.orders && pg.orders[id].status == AwaitingPayment && pg.orders[id].tt.Some?
  }

  /** SELECT ... FOR UPDATE and the checks on the row. */
  function DoBegin(s: State, id: Uuid): State {
    if id !in s.held && Eligible(s.pg, id) then s.(held := s.held[id := false]) else s
  }

  function Release(s: State, id: Uuid): State { s.(held := s.held - {id}) }

  function Reverted(s: State, id: Uuid): State
    requires id in s.pg.orders && s.pg.orders[id].tt.Some?
  {
    var o := s.pg.orders[id];
    if id in s.guards then s
    else s.(guards := s.guards + {id},
            qty := if o.tt.value in s.qty then s.qty[o.tt.value := s.qty[o.tt.value] + o.quantity] else s.qty)
  }

  function DoRevert(s: State, id: Uuid, f: Fault): State {
    if !(id in s.held && !s.held[id] && Eligible(s.pg, id)) then s
    else match f
      case Clean => Reverted(s, id).(held := s.held[id := true])
      case Fails => Release(s, id)
      case Lost => Release(Reverted(s, id), id)
  }

  /** Both updates and the commit; an increment that touches no row is an error. */
  function DoCommit(s: State, id: Uuid, f: Fault): State {
    if !(id in s.held && s.held[id] && Eligible(s.pg, id)) then s
    else if f.Fails? || s.pg.orders[id].tt.value !in s.pg.avail then Release(s, id)
    else Release(s.(pg := Returned(s.pg, id)), id)
  }

  /** Payment waits for the row lock. */
  function DoPay(s: State, id: Uuid): State {
    if id !in s.held && id in s.pg.orders && s.pg.orders[id].status == AwaitingPayment
    then s.(pg := s.pg.(orders := s.pg.orders[id := s.pg.orders[id].(status := Paid)]))
    else s
  }

  /** The revert key of an order expires. */
  function DoGuardLost(s: State, id: Uuid): State { s.(guards := s.guards - {id}) }

  function Next(s: State, a: Action): State {
    match a
    case Begin(id) => DoBegin(s, id)
    case RevertRedis(id, f) => DoRevert(s, id, f)
    case Commit(id, f) => DoCommit(s, id, f)
    case Abort(id) => Release(s, id)
    case Pay(id) => DoPay(s, id)
    case GuardLost(id) => DoGuardLost(s, id)
  }

  /** A revert key outlives the attempts on its order: it may expire once the order is compensated. */
  predicate Legal(s: State, a: Action) {
    a.GuardLost? ==> a.id in s.pg.orders && s.pg.orders[a.id].status == Compensated
  }

  predicate LegalRun(s: State, acts: seq<Action>)
    decreases |acts|
  {
    acts == [] || (Legal(s, acts[0]) && LegalRun(Next(s, acts[0]), acts[1..]))
  }

  function Run(s: State, acts: seq<Action>): State
    decreases |acts|
  {
    if acts == [] then s else Run(Next(s, acts[0]), acts[1..])
  }

  lemma RunEmpty(s: State)
    ensures Run(s, []) == s
  {}

  lemma {:induction false} RunConcat(s: State, a: seq<Action>, b: seq<Action>)
    ensures Run(s, a + b) == Run(Run(s, a), b)
    decreases |a|
  {
    hide Next;
    if a == [] {
      assert a + b == b;
    } else {
      assert (a + b)[1..] == a[1..] + b;
      RunConcat(Next(s, a[0]), a[1..], b);
    }
  }

  // ---- Refinement ----

  /** What the simple form may do in one step: nothing, one Stage 1 compensation, or one payment. */
  ghost predicate SimpleStep(a: Pg, b: Pg) {
    || b == a
    || (exists id :: Stage1(a, id).1 == Done && b == Stage1(a, id).0)
    || (exists id :: id in a.orders && a.orders[id].status == AwaitingPayment
                     && b == a.(orders := a.orders[id := a.orders[id].(status := Paid)]))
  }

  /** Each step of Stage 3, faults included, is a step of Stage 1's machine or invisible in Postgres. */
  lemma Refines(s: State, a: Action)
    ensures SimpleStep(s.pg, Next(s, a).pg)
  {
    if a.Commit? && Next(s, a).pg != s.pg {
      assert Stage1(s.pg, a.id).1 == Done && Next(s, a).pg == Stage1(s.pg, a.id).0;
    }
  }

  ghost predicate SimpleTrace(trace: seq<Pg>) {
    forall k :: 0 <= k < |trace| - 1 ==> SimpleStep(trace[k], trace[k + 1])
  }

  /** Every run of Stage 3, seen in Postgres, is a run of Stage 1's machine. */
  lemma {:induction false} RunRefines(s: State, acts: seq<Action>) returns (trace: seq<Pg>)
    ensures |trace| == |acts| + 1 && trace[0] == s.pg && trace[|acts|] == Run(s, acts).pg && SimpleTrace(trace)
    decreases |acts|
  {
    hide SimpleStep, Next;
    if acts == [] {
      trace := [s.pg];
    } else {
      var rest := RunRefines(Next(s, acts[0]), acts[1..]);
      Refines(s, acts[0]);
      trace := [s.pg] + rest;
    }
  }

  // ---- Redis ----

  /** A first state: nobody holds a lock, no abandoned order has been reverted, the stores agree. */
  ghost predicate Start(s: State, n: nat) {
    && s.held == map[] && s.guards == {} && (forall i :: i in s.pg.orders ==> i < n && s.pg.orders[i].quantity > 0)
    && (forall tt :: tt in s.pg.avail ==> tt in s.qty && s.qty[tt] == s.pg.avail[tt])
  }

  /** Order `i` has been compensated since `s0`. */
  predicate Since(s0: Pg, s: Pg, i: Uuid) {
    i in s.orders && i in s0.orders && s.orders[i].status == Compensated && s0.orders[i].status != Compensated
  }

  /** Units of `i` that Redis has back: its revert key is set, or was and has done its work. */
  ghost function BackInRedis(s0: Pg, s: State, tt: Uuid): nat -> int {
    (i: nat) => if i in s.pg.orders && s.pg.orders[i].tt == Some(tt) && (i in s.guards || Since(s0, s.pg, i)) then s.pg.orders[i].quantity else 0
  }

  /** Units of `i` that Postgres has back since `s0`. */
  ghost function BackInPg(s0: Pg, s: Pg, tt: Uuid): nat -> int {
    (i: nat) => if Since(s0, s, i) && s.orders[i].tt == Some(tt) then s.orders[i].quantity else 0
  }

  ghost predicate SameRows(a: Pg, b: Pg) {
    forall i :: i in b.orders <==> i in a.orders
  }

  ghost predicate RowOk(a: Row, b: Row) {
    a.tt == b.tt && a.quantity == b.quantity
    && (a.status == b.status || (a.status == AwaitingPayment && (b.status == Compensated || b.status == Paid)))
  }

  /** What every run keeps, relative to the state it started in. */
  ghost predicate Inv(s0: State, s: State, n: nat) {
    && SameRows(s0.pg, s.pg) && (forall i :: i in s.pg.orders ==> i < n && RowOk(s0.pg.orders[i], s.pg.orders[i]))
    && s.pg.avail.Keys == s0.pg.avail.Keys
    && (forall i :: i in s.held ==> Eligible(s.pg, i) && (s.held[i] ==> i in s.guards))
    && (forall i :: i in s.guards ==> i in s.pg.orders && s0.pg.orders[i].status == AwaitingPayment && s.pg.orders[i].tt.Some?)
  }

  /** The counters: each reverted order is in Redis once, each order compensated since is in Postgres once. */
  ghost predicate Counted(s0: State, s: State, n: nat) {
    && (forall tt :: tt in s0.qty ==> tt in s.qty && s.qty[tt] == s0.qty[tt] + Sum(n, BackInRedis(s0.pg, s, tt)))
    && (forall tt :: tt in s0.pg.avail ==> tt in s.pg.avail && s.pg.avail[tt] == s0.pg.avail[tt] + Sum(n, BackInPg(s0.pg, s.pg, tt)))
  }

  lemma InvBegin(s0: State, s: State, n: nat, id: Uuid)
    requires Inv(s0, s, n)
    ensures Inv(s0, DoBegin(s, id), n)
  {}

  lemma InvAbort(s0: State, s: State, n: nat, id: Uuid)
    requires Inv(s0, s, n)
    ensures Inv(s0, Release(s, id), n)
  {}

  lemma InvRevert(s0: State, s: State, n: nat, id: Uuid, f: Fault)
    requires Inv(s0, s, n)
    ensures Inv(s0, DoRevert(s, id, f), n)
  {}

  lemma InvCommit(s0: State, s: State, n: nat, id: Uuid, f: Fault)
    requires Inv(s0, s, n)
    ensures Inv(s0, DoCommit(s, id, f), n)
  {}

  lemma InvPay(s0: State, s: State, n: nat, id: Uuid)
    requires Inv(s0, s, n)
    ensures Inv(s0, DoPay(s, id), n)
  {}

  lemma InvGuardLost(s0: State, s: State, n: nat, id: Uuid)
    requires Inv(s0, s, n) && Legal(s, GuardLost(id))
    ensures Inv(s0, DoGuardLost(s, id), n)
  {}

  lemma InvStep(s0: State, s: State, n: nat, a: Action)
    requires Inv(s0, s, n) && Legal(s, a)
    ensures Inv(s0, Next(s, a), n)
  {
    hide Inv, DoBegin, DoRevert, DoCommit, DoPay, Release, DoGuardLost, Legal;
    match a {
      case Begin(id) => InvBegin(s0, s, n, id);
      case RevertRedis(id, f) => InvRevert(s0, s, n, id, f);
      case Commit(id, f) => InvCommit(s0, s, n, id, f);
      case Abort(id) => InvAbort(s0, s, n, id);
      case Pay(id) => InvPay(s0, s, n, id);
      case GuardLost(id) => InvGuardLost(s0, s, n, id);
    }
  }

  /** Neither counter nor what it counts moved. */
  lemma CountedSame(s0: State, s: State, t: State, n: nat)
    requires Counted(s0, s, n) && t.qty == s.qty && t.pg.avail == s.pg.avail
    requires forall tt, i: nat :: i < n ==> BackInRedis(s0.pg, t, tt)(i) == BackInRedis(s0.pg, s, tt)(i)
    requires forall tt, i: nat :: i < n ==> BackInPg(s0.pg, t.pg, tt)(i) == BackInPg(s0.pg, s.pg, tt)(i)
    ensures Counted(s0, t, n)
  {
    forall tt ensures Sum(n, BackInRedis(s0.pg, t, tt)) == Sum(n, BackInRedis(s0.pg, s, tt)) && Sum(n, BackInPg(s0.pg, t.pg, tt)) == Sum(n, BackInPg(s0.pg, s.pg, tt)) {
      SumEq(n, BackInRedis(s0.pg, s, tt), BackInRedis(s0.pg, t, tt));
      SumEq(n, BackInPg(s0.pg, s.pg, tt), BackInPg(s0.pg, t.pg, tt));
    }
  }

  lemma RevertCounts(s0: State, s: State, n: nat, id: Uuid)
    requires Inv(s0, s, n) && Counted(s0, s, n) && Eligible(s.pg, id)
    ensures Counted(s0, Reverted(s, id), n)
  {
    hide Inv;
    InvBound(s0, s, n, id);
    var t := Reverted(s, id);
    if id !in s.guards {
      forall tt | tt in s0.qty ensures tt in t.qty && t.qty[tt] == s0.qty[tt] + Sum(n, BackInRedis(s0.pg, t, tt)) {
        SumUpdate(n, BackInRedis(s0.pg, s, tt), BackInRedis(s0.pg, t, tt), id);
      }
    }
  }

  lemma InvBound(s0: State, s: State, n: nat, id: Uuid)
    requires Inv(s0, s, n) && id in s.pg.orders
    ensures id < n && id in s0.pg.orders && (s.pg.orders[id].status == AwaitingPayment ==> s0.pg.orders[id].status != Compensated)
  {
    assert RowOk(s0.pg.orders[id], s.pg.orders[id]);
  }

  lemma CommitCounts(s0: State, s: State, n: nat, id: Uuid)
    requires Inv(s0, s, n) && Counted(s0, s, n) && Eligible(s.pg, id) && s.pg.orders[id].tt.value in s.pg.avail && id in s.guards
    ensures Counted(s0, s.(pg := Returned(s.pg, id)), n)
  {
    hide Inv, Counted, BackInRedis, BackInPg;
    InvBound(s0, s, n, id);
    var t := s.(pg := Returned(s.pg, id));
    forall tt: Uuid ensures Sum(n, BackInRedis(s0.pg, t, tt)) == Sum(n, BackInRedis(s0.pg, s, tt)) {
      RedisUnmoved(s0, s, n, id, tt);
    }
    forall tt: Uuid ensures Sum(n, BackInPg(s0.pg, t.pg, tt)) == Sum(n, BackInPg(s0.pg, s.pg, tt)) + (if s.pg.orders[id].tt == Some(tt) then s.pg.orders[id].quantity else 0) {
      PgMoved(s0, s, n, id, tt);
    }
    CommitMoves(s0, s, n, id);
  }

  lemma RedisUnmoved(s0: State, s: State, n: nat, id: Uuid, tt: Uuid)
    requires id in s.pg.orders && s.pg.orders[id].tt.Some? && id in s.guards
    ensures Sum(n, BackInRedis(s0.pg, s.(pg := Returned(s.pg, id)), tt)) == Sum(n, BackInRedis(s0.pg, s, tt))
  {
    SumEq(n, BackInRedis(s0.pg, s, tt), BackInRedis(s0.pg, s.(pg := Returned(s.pg, id)), tt));
  }

  lemma PgMoved(s0: State, s: State, n: nat, id: Uuid, tt: Uuid)
    requires Eligible(s.pg, id) && id < n && id in s0.pg.orders && s0.pg.orders[id].status != Compensated
    ensures Sum(n, BackInPg(s0.pg, Returned(s.pg, id), tt))
            == Sum(n, BackInPg(s0.pg, s.pg, tt)) + (if s.pg.orders[id].tt == Some(tt) then s.pg.orders[id].quantity else 0)
  {
    SumUpdate(n, BackInPg(s0.pg, s.pg, tt), BackInPg(s0.pg, Returned(s.pg, id), tt), id);
  }

  lemma CommitMoves(s0: State, s: State, n: nat, id: Uuid)
    requires Counted(s0, s, n) && Eligible(s.pg, id) && s.pg.orders[id].tt.value in s.pg.avail
    requires forall tt: Uuid :: Sum(n, BackInRedis(s0.pg, s.(pg := Returned(s.pg, id)), tt)) == Sum(n, BackInRedis(s0.pg, s, tt))
    requires forall tt: Uuid :: Sum(n, BackInPg(s0.pg, Returned(s.pg, id), tt))
                          == Sum(n, BackInPg(s0.pg, s.pg, tt)) + (if s.pg.orders[id].tt == Some(tt) then s.pg.orders[id].quantity else 0)
    ensures Counted(s0, s.(pg := Returned(s.pg, id)), n)
  {
    hide BackInRedis, BackInPg;
  }

  lemma PayCounts(s0: State, s: State, n: nat, id: Uuid)
    requires Inv(s0, s, n) && Counted(s0, s, n)
    ensures Counted(s0, DoPay(s, id), n)
  {
    hide Inv, Counted;
    CountedSame(s0, s, DoPay(s, id), n);
  }

  lemma GuardCounts(s0: State, s: State, n: nat, id: Uuid)
    requires Inv(s0, s, n) && Counted(s0, s, n) && Legal(s, GuardLost(id))
    ensures Counted(s0, DoGuardLost(s, id), n)
  {
    hide Counted;
    CountedSame(s0, s, DoGuardLost(s, id), n);
  }

  lemma HeldKey(s0: State, s: State, n: nat, id: Uuid)
    requires Inv(s0, s, n) && id in s.held && s.held[id]
    ensures id in s.guards
  {}

  lemma LockFree(s0: State, s: State, n: nat, held: map<Uuid, bool>)
    requires Counted(s0, s, n)
    ensures Counted(s0, s.(held := held), n)
  {
    hide Counted;
    CountedSame(s0, s, s.(held := held), n);
  }

  lemma CountedStep(s0: State, s: State, n: nat, a: Action)
    requires Inv(s0, s, n) && Counted(s0, s, n) && Legal(s, a)
    ensures Counted(s0, Next(s, a), n)
  {
    hide Inv, Counted, DoPay, DoGuardLost;
    match a {
      case Begin(id) => LockFree(s0, s, n, s.held[id := false]);
      case RevertRedis(id, f) =>
        LockFree(s0, s, n, s.held - {id});
        if Eligible(s.pg, id) {
          RevertCounts(s0, s, n, id);
          LockFree(s0, Reverted(s, id), n, s.held[id := true]);
          LockFree(s0, Reverted(s, id), n, s.held - {id});
        }
      case Commit(id, f) =>
        LockFree(s0, s, n, s.held - {id});
        if id in s.held && s.held[id] && Eligible(s.pg, id) && s.pg.orders[id].tt.value in s.pg.avail {
          HeldKey(s0, s, n, id);
          CommitCounts(s0, s, n, id);
          LockFree(s0, s.(pg := Returned(s.pg, id)), n, s.held - {id});
        }
      case Abort(id) => LockFree(s0, s, n, s.held - {id});
      case Pay(id) => PayCounts(s0, s, n, id);
      case GuardLost(id) => GuardCounts(s0, s, n, id);
    }
  }

  lemma {:induction false} RunCounts(s0: State, s: State, n: nat, acts: seq<Action>)
    requires Inv(s0, s, n) && Counted(s0, s, n) && LegalRun(s, acts)
    ensures Inv(s0, Run(s, acts), n) && Counted(s0, Run(s, acts), n)
    decreases |acts|
  {
    hide Inv, Counted, Next, Legal;
    if acts != [] {
      InvStep(s0, s, n, acts[0]);
      CountedStep(s0, s, n, acts[0]);
      RunCounts(s0, Next(s, acts[0]), n, acts[1..]);
    }
  }

  lemma StartCounts(s: State, n: nat)
    requires Start(s, n)
    ensures Inv(s, s, n) && Counted(s, s, n)
  {
    forall tt ensures Sum(n, BackInRedis(s.pg, s, tt)) == 0 && Sum(n, BackInPg(s.pg, s.pg, tt)) == 0 {
      SumShrink(0, n, BackInRedis(s.pg, s, tt));
      SumShrink(0, n, BackInPg(s.pg, s.pg, tt));
    }
  }

  /** Units that Redis has back while Postgres does not: an attempt is under way or failed, or the order was paid in between. */
  ghost function Ahead(s: State, tt: Uuid): nat -> int {
    (i: nat) => if i in s.guards && i in s.pg.orders && s.pg.orders[i].tt == Some(tt) && s.pg.orders[i].status != Compensated
                then s.pg.orders[i].quantity else 0
  }

  /**
   * As long as revert keys outlive the attempts, after any run the stores differ by exactly the orders
   * whose revert key is set although they are not compensated. Each order is in Redis at most once,
   * however often it was retried.
   */
  lemma StoresDiffer(s: State, n: nat, acts: seq<Action>, tt: Uuid)
    requires Start(s, n) && tt in s.pg.avail && LegalRun(s, acts)
    ensures var t := Run(s, acts);
      tt in t.qty && tt in t.pg.avail && t.qty[tt] - t.pg.avail[tt] == Sum(n, Ahead(t, tt))
  {
    hide Start, Counted, LegalRun;
    var t := Run(s, acts);
    StartCounts(s, n);
    RunCounts(s, s, n, acts);
    StartAgrees(s, n, tt);
    CountedAt(s, t, n, tt);
    forall i: nat | i < n ensures BackInRedis(s.pg, t, tt)(i) == BackInPg(s.pg, t.pg, tt)(i) + Ahead(t, tt)(i) {
      if i in t.pg.orders { assert RowOk(s.pg.orders[i], t.pg.orders[i]); }
    }
    SumSplit(n, BackInPg(s.pg, t.pg, tt), Ahead(t, tt), BackInRedis(s.pg, t, tt));
  }

  lemma StartAgrees(s: State, n: nat, tt: Uuid)
    requires Start(s, n) && tt in s.pg.avail
    ensures tt in s.qty && s.qty[tt] == s.pg.avail[tt]
  {}

  lemma CountedAt(s0: State, t: State, n: nat, tt: Uuid)
    requires Counted(s0, t, n) && tt in s0.qty && tt in s0.pg.avail
    ensures tt in t.qty && tt in t.pg.avail
    ensures t.qty[tt] == s0.qty[tt] + Sum(n, BackInRedis(s0.pg, t, tt)) && t.pg.avail[tt] == s0.pg.avail[tt] + Sum(n, BackInPg(s0.pg, t.pg, tt))
  {}

  /** When every started compensation has gone through, the stores agree; only an order paid between two attempts can keep them apart. */
  lemma RetriesEndEqual(s: State, n: nat, acts: seq<Action>, tt: Uuid)
    requires Start(s, n) && tt in s.pg.avail && LegalRun(s, acts)
    requires forall i :: i in Run(s, acts).guards && i in Run(s, acts).pg.orders ==> Run(s, acts).pg.orders[i].status == Compensated
    ensures var t := Run(s, acts); tt in t.qty && tt in t.pg.avail && t.qty[tt] == t.pg.avail[tt]
  {
    hide Start, LegalRun;
    StoresDiffer(s, n, acts, tt);
    SumShrink(0, n, Ahead(Run(s, acts), tt));
  }

  /** `o` is what can have become of row `o0`, which awaited payment. */
  predicate Fate(o0: Row, o: Row) { o == o0 || o == o0.(status := Paid) || o == o0.(status := Compensated) }

  lemma {:induction false} RowFate(o0: Row, s: State, acts: seq<Action>, i: Uuid)
    requires o0.status == AwaitingPayment && i in s.pg.orders && Fate(o0, s.pg.orders[i])
    ensures i in Run(s, acts).pg.orders && Fate(o0, Run(s, acts).pg.orders[i])
    decreases |acts|
  {
    hide Next;
    if acts != [] {
      FateStep(o0, s, acts[0], i);
      RowFate(o0, Next(s, acts[0]), acts[1..], i);
    }
  }

  lemma FateStep(o0: Row, s: State, a: Action, i: Uuid)
    requires o0.status == AwaitingPayment && i in s.pg.orders && Fate(o0, s.pg.orders[i])
    ensures i in Next(s, a).pg.orders && Fate(o0, Next(s, a).pg.orders[i])
  {}

  /** An order about to be committed, or compensated, has its revert key. */
  predicate Keyed(s: State, i: Uuid) {
    (i in s.held && s.held[i]) || (i in s.pg.orders && s.pg.orders[i].status == Compensated) ==> i in s.guards
  }

  lemma {:induction false} KeyFate(s: State, acts: seq<Action>, i: Uuid)
    requires Keyed(s, i) && forall k :: 0 <= k < |acts| ==> acts[k] != GuardLost(i)
    ensures Keyed(Run(s, acts), i)
    decreases |acts|
  {
    hide Next, Keyed;
    if acts != [] {
      KeyedStep(s, acts[0], i);
      KeyFate(Next(s, acts[0]), acts[1..], i);
    }
  }

  lemma KeyedStep(s: State, a: Action, i: Uuid)
    requires Keyed(s, i) && a != GuardLost(i)
    ensures Keyed(Next(s, a), i)
  {}

  /**
   * Over any run, lost keys included, an order that awaited payment still does, was paid, or carries exactly
   * Stage 1's change. As long as its own key is not lost, Redis had its units back before that change.
   */
  lemma NothingElseHappens(s: State, n: nat, acts: seq<Action>, i: Uuid)
    requires Start(s, n) && i in s.pg.orders && s.pg.orders[i].status == AwaitingPayment
    ensures i in Run(s, acts).pg.orders && Fate(s.pg.orders[i], Run(s, acts).pg.orders[i])
    ensures Run(s, acts).pg.orders[i].status == Compensated && (forall k :: 0 <= k < |acts| ==> acts[k] != GuardLost(i)) ==>
              i in Run(s, acts).guards
  {
    RowFate(s.pg.orders[i], s, acts, i);
    if forall k :: 0 <= k < |acts| ==> acts[k] != GuardLost(i) { KeyFate(s, acts, i); }
  }

  // ---- One undisturbed attempt ----

  /** Lock, revert, commit, with nothing failing. */
  function Attempt(s: State, id: Uuid): State {
    DoCommit(DoRevert(DoBegin(s, id), id, Clean), id, Clean)
  }

  /** What Compensate answers for an undisturbed attempt. */
  function Answer(s: State, id: Uuid): Result {
    if !Eligible(s.pg, id) then NotEligible
    else if s.pg.orders[id].tt.value !in s.pg.avail then Failure
    else Done
  }

  /** With no lock held, an undisturbed attempt does what Stage 1 does, and answers the same, exactly on these rows. */
  lemma AgreesWithStage1(s: State, id: Uuid)
    requires id !in s.held
    ensures Attempt(s, id).pg == Stage1(s.pg, id).0 && Answer(s, id) == Stage1(s.pg, id).1
      <==> id in s.pg.orders && s.pg.orders[id].tt.Some?
           && (s.pg.orders[id].status == AwaitingPayment ==> s.pg.orders[id].tt.value in s.pg.avail)
  {
    if Eligible(s.pg, id) {
      AttemptOf(s, id);
      if s.pg.orders[id].tt.value !in s.pg.avail { assert Stage1(s.pg, id).1 == Done; }
    }
  }

  lemma AttemptOf(s: State, id: Uuid)
    requires id !in s.held && Eligible(s.pg, id)
    ensures Attempt(s, id).pg == (if s.pg.orders[id].tt.value in s.pg.avail then Returned(s.pg, id) else s.pg)
    ensures id in Attempt(s, id).guards && id !in Attempt(s, id).held
  {
    var s1 := DoBegin(s, id);
    assert id in s1.held && !s1.held[id];
    var s2 := DoRevert(s1, id, Clean);
    assert id in s2.held && s2.held[id] && s2.pg == s.pg;
  }

  /** Why the key must outlive the attempts: lost between two of them, the units go back to Redis twice. */
  lemma KeyMustLast(s: State, n: nat, id: Uuid, tt: Uuid)
    requires Start(s, n) && Eligible(s.pg, id) && s.pg.orders[id].tt == Some(tt) && tt in s.pg.avail
    ensures var t := Run(s, [Begin(id), RevertRedis(id, Lost), GuardLost(id)] + [Begin(id), RevertRedis(id, Clean), Commit(id, Clean)]);
      && id in t.pg.orders && t.pg.orders[id].status == Compensated
      && tt in t.qty && tt in t.pg.avail && t.pg.avail[tt] == s.pg.avail[tt] + s.pg.orders[id].quantity
      && t.qty[tt] == t.pg.avail[tt] + s.pg.orders[id].quantity
  {
    hide Run, LegalRun;
    var first, last := [Begin(id), RevertRedis(id, Lost), GuardLost(id)], [Begin(id), RevertRedis(id, Clean), Commit(id, Clean)];
    RunConcat(s, first, last);
    RunThree(s, first[0], first[1], first[2]);
    var u := DoGuardLost(DoRevert(DoBegin(s, id), id, Lost), id);
    RunThree(u, last[0], last[1], last[2]);
    LosesKey(s, n, id, tt);
    Completes(u, id, tt);
  }

  lemma LosesKey(s: State, n: nat, id: Uuid, tt: Uuid)
    requires Start(s, n) && Eligible(s.pg, id) && s.pg.orders[id].tt == Some(tt) && tt in s.pg.avail
    ensures var u := DoGuardLost(DoRevert(DoBegin(s, id), id, Lost), id);
      && u.pg == s.pg && id !in u.held && id !in u.guards && tt in u.qty && u.qty[tt] == s.pg.avail[tt] + s.pg.orders[id].quantity
  {
    var s1 := DoBegin(s, id);
    assert id in s1.held && !s1.held[id] && s1.pg == s.pg;
  }

  lemma Completes(s: State, id: Uuid, tt: Uuid)
    requires id !in s.held && id !in s.guards && Eligible(s.pg, id) && s.pg.orders[id].tt == Some(tt) && tt in s.pg.avail && tt in s.qty
    ensures var t := DoCommit(DoRevert(DoBegin(s, id), id, Clean), id, Clean);
      t.pg == Returned(s.pg, id) && tt in t.qty && t.qty[tt] == s.qty[tt] + s.pg.orders[id].quantity
  {
    var s1 := DoBegin(s, id);
    assert id in s1.held && !s1.held[id];
    var s2 := DoRevert(s1, id, Clean);
    assert id in s2.held && s2.held[id] && s2.pg == s.pg;
  }

  /** Paid between two attempts: Redis keeps the units of an order that was sold after all. */
  lemma PaidInBetweenOversells(s: State, n: nat, id: Uuid, tt: Uuid)
    requires Start(s, n) && Eligible(s.pg, id) && s.pg.orders[id].tt == Some(tt) && tt in s.pg.avail
    ensures var t := Run(s, [Begin(id), RevertRedis(id, Lost), Pay(id)]);
      && id in t.pg.orders && t.pg.orders[id].status == Paid
      && tt in t.qty && tt in t.pg.avail && t.qty[tt] == t.pg.avail[tt] + s.pg.orders[id].quantity
  {
    hide Run;
    var acts := [Begin(id), RevertRedis(id, Lost), Pay(id)];
    var s1 := DoBegin(s, id);
    var s2 := DoRevert(s1, id, Lost);
    assert Run(s, acts) == DoPay(s2, id) by { RunThree(s, acts[0], acts[1], acts[2]); }
    assert s1.held == map[id := false];
    assert s2.pg == s.pg && s2.qty[tt] == s.qty[tt] + s.pg.orders[id].quantity && id !in s2.held;
  }

  lemma RunThree(s: State, a: Action, b: Action, c: Action)
    ensures Run(s, [a, b, c]) == Next(Next(Next(s, a), b), c)
  {
    hide Next;
    assert [a, b, c][1..] == [b, c] && [b, c][1..] == [c] && [c][1..] == [];
    assert Run(Next(s, a), [b, c]) == Run(Next(Next(s, a), b), [c]);
  }
}
