/**
 * Where every unit taken from Redis went. As long as nobody rewrites Redis behind the program's
 * back, the counter equals the total minus what each reservation took plus every revert of it,
 * whatever fails, crashes, is lost or is delivered twice.
 */
module Ledger {
  import opened Sums
  import opened Domain
  import opened Options
  import opened Store
  import opened Protocol
  import opened DbSafety
  import opened PgSafety
  import opened PgSteps
  import opened Guarantees

  type Entries = map<Uuid, Entry>

  /** Units reservation `e` keeps out of the counter: taken once, given back once per revert. */
  function Net(e: Entry): int { e.quantity * (1 - e.early - e.saga) }

  ghost function NetOf(ledger: Entries, tt: Uuid): nat -> int {
    (i: nat) => if i in ledger && ledger[i].tt == tt then Net(ledger[i]) else 0
  }

  ghost predicate Balanced(qty: map<Uuid, int>, ledger: Entries, total: map<Uuid, int>, n: nat) {
    forall tt :: tt in total ==> tt in qty && qty[tt] + Sum(n, NetOf(ledger, tt)) == total[tt]
  }

  ghost predicate Fits(ledger: Entries, i: Uuid, tt: Uuid, quantity: int) {
    i in ledger && ledger[i].tt == tt && ledger[i].quantity == quantity
  }

  ghost predicate EntriesOk(ledger: Entries, n: nat) {
    forall i :: i in ledger ==> i < n && ledger[i].quantity > 0
  }

  ghost predicate MsgsFit(msgs: map<Uuid, Msg>, ledger: Entries) {
    forall i :: i in msgs ==> msgs[i].id == i && Fits(ledger, i, msgs[i].tt, msgs[i].quantity)
  }

  ghost predicate RowsFit(orders: Orders, ledger: Entries) {
    forall i :: i in orders ==> Fits(ledger, i, orders[i].tt, orders[i].quantity)
  }

  ghost predicate IntakesFit(procs: map<nat, Proc>, ledger: Entries) {
    forall p :: p in procs && procs[p].Intake? ==> Fits(ledger, procs[p].msg.id, procs[p].msg.tt, procs[p].msg.quantity)
  }

  ghost predicate Booked(s: State) {
    && EntriesOk(s.ledger, s.next) && MsgsFit(s.msgs, s.ledger) && RowsFit(s.db.orders, s.ledger)
    && IntakesFit(s.procs, s.ledger) && Balanced(s.redis.qty, s.ledger, s.db.total, s.next)
  }

  lemma BookedParts(s: State)
    requires Booked(s)
    ensures EntriesOk(s.ledger, s.next) && MsgsFit(s.msgs, s.ledger) && RowsFit(s.db.orders, s.ledger)
    ensures IntakesFit(s.procs, s.ledger) && Balanced(s.redis.qty, s.ledger, s.db.total, s.next)
  {}

  // ---- One entry changes ----

  lemma BalancedGrows(qty: map<Uuid, int>, ledger: Entries, total: map<Uuid, int>, n: nat, m: nat)
    requires Balanced(qty, ledger, total, n) && EntriesOk(ledger, n) && n <= m
    ensures Balanced(qty, ledger, total, m)
  {
    forall tt | tt in total ensures tt in qty && qty[tt] + Sum(m, NetOf(ledger, tt)) == total[tt] {
      SumShrink(n, m, NetOf(ledger, tt));
    }
  }

  ghost predicate Moved(qty: map<Uuid, int>, qty2: map<Uuid, int>, total: map<Uuid, int>, tt: Uuid, d: int) {
    forall x :: x in total ==> x in qty && x in qty2 && qty2[x] == qty[x] + (if x == tt then d else 0)
  }

  lemma BalancedUpdate(qty: map<Uuid, int>, ledger: Entries, total: map<Uuid, int>, n: nat, i: Uuid, e: Entry, qty2: map<Uuid, int>)
    requires Balanced(qty, ledger, total, n) && i < n && (i in ledger ==> ledger[i].tt == e.tt)
    requires Moved(qty, qty2, total, e.tt, (if i in ledger then Net(ledger[i]) else 0) - Net(e))
    ensures Balanced(qty2, ledger[i := e], total, n)
  {
    hide Net;
    forall tt | tt in total ensures tt in qty2 && qty2[tt] + Sum(n, NetOf(ledger[i := e], tt)) == total[tt] {
      SumUpdate(n, NetOf(ledger, tt), NetOf(ledger[i := e], tt), i);
    }
  }

  lemma FitsUpdate(s: State, i: Uuid, e: Entry)
    requires Booked(s) && i < s.next && e.quantity > 0
    requires i in s.ledger ==> s.ledger[i].tt == e.tt && s.ledger[i].quantity == e.quantity
    ensures EntriesOk(s.ledger[i := e], s.next) && MsgsFit(s.msgs, s.ledger[i := e]) && RowsFit(s.db.orders, s.ledger[i := e])
    ensures IntakesFit(s.procs, s.ledger[i := e])
  {
    hide Balanced;
  }

  lemma NetRevert(e: Entry)
    ensures Net(e.(early := e.early + 1)) == Net(e) - e.quantity
    ensures Net(e.(saga := e.saga + 1)) == Net(e) - e.quantity
  {
    var q, k := e.quantity, 1 - e.early - e.saga;
    assert q * (k - 1) == q * k - q;
  }

  lemma DeductMoves(r: Redis, total: map<Uuid, int>, tt: Uuid, n: int)
    requires forall x :: x in total ==> x in r.qty
    ensures var d := Deduct(r, tt, n); Moved(r.qty, d.redis.qty, total, tt, if d.error == Ok then -n else 0) && d.redis.guards == r.guards
    ensures Deduct(r, tt, n).error == Ok ==> tt in r.meta
  {}

  lemma RevertMoves(r: Redis, total: map<Uuid, int>, tt: Uuid, n: int, key: GuardKey)
    requires forall x :: x in total ==> x in r.qty
    ensures Moved(r.qty, Revert(r, tt, n, key).qty, total, tt, if key in r.guards then 0 else n)
  {}

  lemma KeysIn(qty: map<Uuid, int>, ledger: Entries, total: map<Uuid, int>, n: nat)
    requires Balanced(qty, ledger, total, n)
    ensures forall x :: x in total ==> x in qty
  {}

  /** One entry, the counter and possibly the handlers moved; the difference balances. */
  lemma EntryStep(s: State, t: State, i: Uuid)
    requires Booked(s) && i in s.ledger && i in t.ledger && t.ledger == s.ledger[i := t.ledger[i]]
    requires t.ledger[i].tt == s.ledger[i].tt && t.ledger[i].quantity == s.ledger[i].quantity
    requires t.next == s.next && t.db == s.db && MsgsFit(t.msgs, s.ledger)
    requires Moved(s.redis.qty, t.redis.qty, s.db.total, s.ledger[i].tt, Net(s.ledger[i]) - Net(t.ledger[i]))
    requires forall p :: p in t.procs && t.procs[p].Intake? ==> p in s.procs && s.procs[p].Intake? && s.procs[p].msg == t.procs[p].msg
    ensures Booked(t)
  {
    hide Net, Balanced, Moved;
    BookedParts(s);
    FitsUpdate(s, i, t.ledger[i]);
    FitsUpdate(s.(msgs := t.msgs), i, t.ledger[i]);
    BalancedUpdate(s.redis.qty, s.ledger, s.db.total, s.next, i, t.ledger[i], t.redis.qty);
  }

  /** A new reservation under a fresh identifier. */
  lemma NewEntryStep(s: State, t: State, e: Entry)
    requires Booked(s) && t.next == s.next + 1 && t.ledger == s.ledger[s.next := e] && e.quantity > 0 && t.db == s.db
    requires Moved(s.redis.qty, t.redis.qty, s.db.total, e.tt, -Net(e))
    requires forall i :: i in t.msgs ==> t.msgs[i].id == i && ((i in s.msgs && s.msgs[i] == t.msgs[i])
                                           || (i == s.next && t.msgs[i].tt == e.tt && t.msgs[i].quantity == e.quantity))
    requires forall p :: p in t.procs && t.procs[p].Intake? ==>
               (p in s.procs && s.procs[p] == t.procs[p])
               || (t.procs[p].msg.id == s.next && t.procs[p].msg.tt == e.tt && t.procs[p].msg.quantity == e.quantity)
    ensures Booked(t)
  {
    hide Net, Balanced, Moved;
    BookedParts(s);
    BalancedGrows(s.redis.qty, s.ledger, s.db.total, s.next, t.next);
    BalancedUpdate(s.redis.qty, s.ledger, s.db.total, t.next, s.next, e, t.redis.qty);
  }

  lemma NetFresh(e: Entry)
    requires e.early == 0 && e.saga == 0
    ensures Net(e) == e.quantity
  {}

  lemma NetEqual(a: Entry, b: Entry)
    requires a.quantity == b.quantity && a.early == b.early && a.saga == b.saga
    ensures Net(a) == Net(b)
  {}

  /** Only what the counter does not count changed. */
  lemma QtySame(s: State, t: State)
    requires Booked(s) && t.ledger == s.ledger && t.next == s.next && t.db == s.db && t.msgs == s.msgs && t.procs == s.procs
    requires Moved(s.redis.qty, t.redis.qty, s.db.total, 0, 0)
    ensures Booked(t)
  {}
}
