/**
 * The two stores against each other: what the drift detector measures, split into the reservations
 * it consists of, and why it is never negative.
 */
module Drift {
  import opened Sums
  import opened Domain
  import opened Options
  import opened Store
  import opened Protocol
  import opened Steps
  import opened DbSafety
  import opened PgSafety
  import opened PgSteps
  import opened Guarantees
  import opened Ledger
  import opened LedgerSteps
  import opened Once
  import opened OnceSteps

  // ---- Units that were deducted and not yet published are in somebody's hands ----

  ghost predicate HeldBy(procs: map<nat, Proc>, i: Uuid) {
    exists p :: p in procs && procs[p].Intake? && procs[p].msg.id == i
  }

  ghost predicate Held(s: State) {
    forall i :: i in s.ledger && s.ledger[i].stage == Deducted ==> HeldBy(s.procs, i)
  }

  lemma HeldKept(s: State, t: State)
    requires Held(s) && KeepsIntakes(s.procs, t.procs)
    requires forall i :: i in t.ledger && t.ledger[i].stage == Deducted ==> i in s.ledger && s.ledger[i].stage == Deducted
    ensures Held(t)
  {
    forall i | i in t.ledger && t.ledger[i].stage == Deducted ensures HeldBy(t.procs, i) {
      var p :| p in s.procs && s.procs[p].Intake? && s.procs[p].msg.id == i;
      assert p in t.procs && t.procs[p].Intake?;
    }
  }

  /** The holder `p` let go of its reservation, which is no longer `Deducted`. */
  lemma LetGo(s: State, t: State, p: nat)
    requires Held(s) && p in s.procs && (s.procs[p].Intake? ==> s.procs[p].msg.id in t.ledger ==> t.ledger[s.procs[p].msg.id].stage != Deducted)
    requires t.procs == s.procs - {p}
    requires forall i :: i in t.ledger && t.ledger[i].stage == Deducted ==> i in s.ledger && s.ledger[i].stage == Deducted
    ensures Held(t)
  {
    forall i | i in t.ledger && t.ledger[i].stage == Deducted ensures HeldBy(t.procs, i) {
      var q :| q in s.procs && s.procs[q].Intake? && s.procs[q].msg.id == i;
      assert q in t.procs && t.procs[q].Intake?;
    }
  }

  lemma KafkaDeductHeld(s: State, p: nat, tt: Uuid, quantity: int, user: int, until: int, f: Fault)
    requires Held(s)
    ensures Held(DoKafkaDeduct(s, p, tt, quantity, user, until, f))
  {
    hide Deduct, MsgOf;
    var t := DoKafkaDeduct(s, p, tt, quantity, user, until, f);
    DeductGuards(s.redis, tt, quantity);
    if t.procs == s.procs {
      HeldKept(s, t);
    } else {
      forall i | i in t.ledger && t.ledger[i].stage == Deducted ensures HeldBy(t.procs, i) {
        if i == s.next {
          assert p in t.procs && t.procs[p].Intake? && t.procs[p].msg.id == i;
        } else {
          var q :| q in s.procs && s.procs[q].Intake? && s.procs[q].msg.id == i;
          assert q in t.procs && t.procs[q].Intake?;
        }
      }
    }
  }

  lemma KafkaPublishHeld(s: State, p: nat, f: Fault)
    requires Held(s)
    ensures Held(DoKafkaPublish(s, p, f))
  {
    var t := DoKafkaPublish(s, p, f);
    if p in s.procs && s.procs[p].Intake? && !s.procs[p].reverting && s.procs[p].msg.id in s.ledger {
      if f.Clean? {
        LetGo(s, t, p);
      } else {
        forall i | i in t.ledger && t.ledger[i].stage == Deducted ensures HeldBy(t.procs, i) {
          var q :| q in s.procs && s.procs[q].Intake? && s.procs[q].msg.id == i;
          assert q in t.procs && t.procs[q].Intake? && t.procs[q].msg.id == i;
        }
      }
    }
  }

  lemma KafkaRevertHeld(s: State, p: nat, f: Fault)
    requires Held(s) && OnceInv(s)
    ensures Held(DoKafkaRevert(s, p, f))
  {
    hide OnceInv, Held, Revert;
    if p in s.procs && s.procs[p].Intake? && s.procs[p].reverting && s.procs[p].msg.id in s.ledger {
      HeldView(s, p);
      LetGo(s, DoKafkaRevert(s, p, f), p);
    }
  }

  lemma CrashHeld(s: State, p: nat)
    requires Held(s)
    ensures Held(DoCrash(s, p))
  {
    hide Held;
    if p in s.procs { LetGo(s, DoCrash(s, p), p); }
  }

  lemma CompRevertIntakes(s: State, p: nat, f: Fault)
    ensures KeepsIntakes(s.procs, DoCompRevert(s, p, f).procs)
    ensures var t := DoCompRevert(s, p, f); forall i :: i in t.ledger ==> i in s.ledger && t.ledger[i].stage == s.ledger[i].stage
  {
    hide Revert;
  }

  lemma QueueHeld(s: State, a: Action)
    requires Held(s) && (a.BookStream? || a.WorkerTx? || a.WorkerGiveUp? || a.WorkerAck?)
    ensures Held(Next(s, a))
  {
    hide Held, Deduct, MsgOf, BookTx, Revert, Reserve, DoKafkaDeduct, DoKafkaPublish, DoKafkaRevert, DoCompRead, DoCompWrite, DoCompCheck,
         DoCompRevert, DoCompMark, DoHookRead, DoHookTx, DoCrash, DoJobTx, DoPaySet;
    HeldKept(s, Next(s, a));
  }

  lemma IntakeHeld(s: State, a: Action)
    requires Held(s) && OnceInv(s) && (a.KafkaDeduct? || a.KafkaPublish? || a.KafkaRevert? || a.Crash?)
    ensures Held(Next(s, a))
  {
    hide Held, OnceInv, DoKafkaDeduct, DoKafkaPublish, DoKafkaRevert, DoCrash;
    match a {
      case KafkaDeduct(p, tt, q, user, until, f) => KafkaDeductHeld(s, p, tt, q, user, until, f);
      case KafkaPublish(p, f) => KafkaPublishHeld(s, p, f);
      case KafkaRevert(p, f) => KafkaRevertHeld(s, p, f);
      case Crash(p) => CrashHeld(s, p);
      case _ =>
    }
  }

  lemma UntouchedHeld(s: State, t: State)
    requires Held(s) && BooksUntouched(s, t)
    ensures Held(t)
  {
    hide Held;
    HeldKept(s, t);
  }

  lemma CompRevertHeld(s: State, p: nat, f: Fault)
    requires Held(s)
    ensures Held(DoCompRevert(s, p, f))
  {
    hide Held, DoCompRevert;
    CompRevertIntakes(s, p, f);
    HeldKept(s, DoCompRevert(s, p, f));
  }

  lemma CallHeld(s: State, a: Action)
    requires Held(s) && (a.CompWrite? || a.CompCheck? || a.CompMark? || a.CompRevert? || a.GuardLost?)
    ensures Held(Next(s, a))
  {
    hide Held, BooksUntouched, DoCompWrite, DoCompCheck, DoCompRevert, DoCompMark, DoGuardLost;
    match a {
      case CompWrite(p, f) => CompWriteBooks(s, p, f); UntouchedHeld(s, DoCompWrite(s, p, f));
      case CompCheck(p, f) => CompCheckBooks(s, p, f); UntouchedHeld(s, DoCompCheck(s, p, f));
      case CompMark(p, f) => CompMarkBooks(s, p, f); UntouchedHeld(s, DoCompMark(s, p, f));
      case CompRevert(p, f) => CompRevertHeld(s, p, f);
      case GuardLost(key) => GuardBooks(s, key); UntouchedHeld(s, DoGuardLost(s, key));
      case _ =>
    }
  }

  lemma NextHeld(s: State, a: Action)
    requires Held(s) && OnceInv(s) && !a.Chaos?
    ensures Held(Next(s, a))
  {
    hide Held, OnceInv, Next, Steady;
    if Calm(a) {
      CalmSteps(s, a);
      HeldKept(s, Next(s, a));
    } else if a.KafkaDeduct? || a.KafkaPublish? || a.KafkaRevert? || a.Crash? {
      IntakeHeld(s, a);
    } else if IsIntakeAction(a) {
      QueueHeld(s, a);
    } else {
      CallHeld(s, a);
    }
  }

  lemma {:induction false} RunHeld(s: State, acts: seq<Action>)
    requires Held(s) && OnceInv(s) && Booked(s) && PgInv(s) && LegalRun(s, acts)
    ensures Held(Run(s, acts))
    decreases |acts|
  {
    hide Held, OnceInv, Booked, PgInv, Next, Legal, Advances;
    if acts != [] {
      LegalHasNoChaos(s, acts[0]);
      NextKeeps(s, acts[0]);
      NextBooks(s, acts[0]);
      NextOnce(s, acts[0]);
      NextHeld(s, acts[0]);
      RunHeld(Next(s, acts[0]), acts[1..]);
    }
  }

  // ---- The drift, reservation by reservation ----

  /** Taken from Redis, no order row yet, and not given back. */
  ghost function InFlight(s: State, tt: Uuid): nat -> int {
    (i: nat) => if i in s.ledger && s.ledger[i].tt == tt && i !in s.db.orders && s.ledger[i].stage != Leaked
                   && s.ledger[i].early + s.ledger[i].saga == 0 then s.ledger[i].quantity else 0
  }

  /** Taken from Redis and in nobody's hands any more. */
  ghost function LeakedUnits(s: State, tt: Uuid): nat -> int {
    (i: nat) => if i in s.ledger && s.ledger[i].tt == tt && i !in s.db.orders && s.ledger[i].stage == Leaked
                   && s.ledger[i].early + s.ledger[i].saga == 0 then s.ledger[i].quantity else 0
  }

  /** Given back in Postgres and not yet in Redis. */
  ghost function Pending(s: State, tt: Uuid): nat -> int {
    (i: nat) => if i in s.ledger && s.ledger[i].tt == tt && Compensates(s.db.orders, i)
                   && s.ledger[i].early + s.ledger[i].saga == 0 then s.ledger[i].quantity else 0
  }

  /** How many reverts of `i` were one too many. */
  ghost function Surplus(s: State, i: Uuid): int
    requires i in s.ledger
  {
    var n := s.ledger[i].early + s.ledger[i].saga;
    if i in s.db.orders && s.db.orders[i].status != Compensated then n else if n == 0 then 0 else n - 1
  }

  ghost function Excess(s: State, tt: Uuid): nat -> int {
    (i: nat) => if i in s.ledger && s.ledger[i].tt == tt then s.ledger[i].quantity * Surplus(s, i) else 0
  }

  ghost function DriftOf(s: State, tt: Uuid): int
    requires tt in s.db.avail && tt in s.redis.qty
  {
    s.db.avail[tt] - s.redis.qty[tt]
  }

  lemma OneReservation(s: State, tt: Uuid, i: nat)
    requires RowsFit(s.db.orders, s.ledger)
    ensures NetOf(s.ledger, tt)(i) - PgHeld(s.db.orders, tt)(i)
            == InFlight(s, tt)(i) + LeakedUnits(s, tt)(i) + Pending(s, tt)(i) - Excess(s, tt)(i)
  {
    if i in s.ledger {
      var q, n := s.ledger[i].quantity, s.ledger[i].early + s.ledger[i].saga;
      assert q * (1 - n) == q - q * n && q * (n - 1) == q * n - q;
      assert s.ledger[i].quantity * (1 - s.ledger[i].early - s.ledger[i].saga) == q * (1 - n);
    }
  }

  lemma {:induction false} SumOfFive(n: nat, a: nat -> int, b: nat -> int, c: nat -> int, d: nat -> int, e: nat -> int, f: nat -> int)
    requires forall i: nat :: i < n ==> a(i) - b(i) == c(i) + d(i) + e(i) - f(i)
    ensures Sum(n, a) - Sum(n, b) == Sum(n, c) + Sum(n, d) + Sum(n, e) - Sum(n, f)
  {
    if n != 0 { SumOfFive(n - 1, a, b, c, d, e, f); }
  }

  /**
   * The drift identity, after any run without outside writes to Redis: what Postgres shows over
   * Redis is in flight, leaked, or compensated and not yet reverted, less what was reverted twice.
   */
  lemma DriftIdentity(s: State, acts: seq<Action>, tt: Uuid)
    requires Start(s) && NoChaos(acts) && tt in s.db.total
    ensures var t := Run(s, acts);
      && tt in t.db.avail && tt in t.redis.qty
      && DriftOf(t, tt) == Sum(t.next, InFlight(t, tt)) + Sum(t.next, LeakedUnits(t, tt)) + Sum(t.next, Pending(t, tt))
                           - Sum(t.next, Excess(t, tt))
  {
    hide Start, PgInv, Booked, Conserved;
    var t := Run(s, acts);
    NoOversell(s, acts, tt);
    StartHolds(s);
    StartBooked(s);
    RunBooks(s, acts);
    Identity(t, tt);
  }

  lemma Identity(t: State, tt: Uuid)
    requires Booked(t) && tt in t.db.total && tt in t.db.avail
    requires Conserved(t.db.orders, t.db.avail[tt], t.db.total[tt], t.next, tt)
    ensures tt in t.redis.qty
    ensures DriftOf(t, tt) == Sum(t.next, InFlight(t, tt)) + Sum(t.next, LeakedUnits(t, tt)) + Sum(t.next, Pending(t, tt))
                              - Sum(t.next, Excess(t, tt))
  {
    hide EntriesOk, MsgsFit, IntakesFit;
    forall i: nat | i < t.next
      ensures NetOf(t.ledger, tt)(i) - PgHeld(t.db.orders, tt)(i)
              == InFlight(t, tt)(i) + LeakedUnits(t, tt)(i) + Pending(t, tt)(i) - Excess(t, tt)(i)
    {
      OneReservation(t, tt, i);
    }
    SumOfFive(t.next, NetOf(t.ledger, tt), PgHeld(t.db.orders, tt), InFlight(t, tt), LeakedUnits(t, tt), Pending(t, tt), Excess(t, tt));
  }

  // ---- Legal runs ----

  lemma LegalNoChaos(s: State, acts: seq<Action>)
    requires LegalRun(s, acts)
    ensures NoChaos(acts)
    decreases |acts|
  {
    hide Next;
    if acts != [] {
      LegalNoChaos(Next(s, acts[0]), acts[1..]);
      assert forall k :: 1 <= k < |acts| ==> acts[k] == acts[1..][k - 1];
    }
  }

  lemma ReachedLegally(s: State, acts: seq<Action>)
    requires Start(s) && LegalRun(s, acts)
    ensures OnceInv(Run(s, acts)) && Booked(Run(s, acts)) && PgInv(Run(s, acts)) && Held(Run(s, acts))
  {
    hide Start, OnceInv, Booked, PgInv, Held;
    StartHolds(s);
    StartBooked(s);
    StartOnce(s);
    StartHeld(s);
    RunOnce(s, acts);
    RunHeld(s, acts);
  }

  lemma StartHeld(s: State)
    requires Start(s)
    ensures Held(s)
  {}

  lemma NoSurplus(t: State, tt: Uuid)
    requires OnceInv(t)
    ensures Sum(t.next, Excess(t, tt)) == 0
  {
    hide OnceInv;
    forall i: nat | i < t.next ensures Excess(t, tt)(i) == 0 {
      if i in t.ledger { ViewFact(t, i); }
    }
    SumShrink(0, t.next, Excess(t, tt));
  }

  lemma PartsNonNegative(t: State, tt: Uuid)
    requires Booked(t)
    ensures Sum(t.next, InFlight(t, tt)) >= 0 && Sum(t.next, LeakedUnits(t, tt)) >= 0 && Sum(t.next, Pending(t, tt)) >= 0
  {
    hide Balanced, MsgsFit, RowsFit, IntakesFit;
    SumNonNegative(t.next, InFlight(t, tt));
    SumNonNegative(t.next, LeakedUnits(t, tt));
    SumNonNegative(t.next, Pending(t, tt));
  }

  // ---- The same parts, read off the stores, the queue and the live handlers ----

  /** A queued message without a row, not given up either. */
  ghost function Queued(s: State, tt: Uuid): nat -> int {
    (i: nat) => if i in s.msgs && s.msgs[i].tt == tt && i !in s.db.orders && EntryKey(i) !in s.redis.guards then s.msgs[i].quantity else 0
  }

  ghost predicate HoldsFor(procs: map<nat, Proc>, p: nat, i: Uuid, tt: Uuid) {
    p in procs && procs[p].Intake? && procs[p].msg.id == i && procs[p].msg.tt == tt
  }

  /** Units in the hands of a request between deduction and publication. */
  ghost function InHand(s: State, tt: Uuid): nat -> int {
    (i: nat) => if exists p :: HoldsFor(s.procs, p, i, tt) then var p :| HoldsFor(s.procs, p, i, tt); s.procs[p].msg.quantity else 0
  }

  /** A compensated row with neither the guard key nor the flag. */
  ghost function Unreverted(s: State, tt: Uuid): nat -> int {
    (i: nat) => if Compensates(s.db.orders, i) && s.db.orders[i].tt == tt && OrderKey(i) !in s.redis.guards && !WasRedisReverted(s.db, i)
                then s.db.orders[i].quantity else 0
  }

  lemma HolderFits(t: State, p: nat, i: Uuid, tt: Uuid)
    requires OnceInv(t) && Booked(t) && HoldsFor(t.procs, p, i, tt)
    ensures i in t.ledger && t.ledger[i].tt == tt && t.ledger[i].quantity == t.procs[p].msg.quantity && t.ledger[i].stage == Deducted
  {
    hide ViewsOk, KeysKnown, IntakesDiffer, Balanced;
  }

  lemma HolderOf(t: State, i: Uuid) returns (p: nat)
    requires Held(t) && OnceInv(t) && Booked(t) && i in t.ledger && t.ledger[i].stage == Deducted
    ensures HoldsFor(t.procs, p, i, t.ledger[i].tt)
  {
    hide OnceInv, Balanced;
    assert HeldBy(t.procs, i);
    p :| p in t.procs && t.procs[p].Intake? && t.procs[p].msg.id == i;
  }

  lemma QueuedFits(t: State, i: Uuid)
    requires Booked(t)
    ensures i in t.msgs ==> Fits(t.ledger, i, t.msgs[i].tt, t.msgs[i].quantity)
    ensures i in t.db.orders ==> Fits(t.ledger, i, t.db.orders[i].tt, t.db.orders[i].quantity)
  {
    hide Balanced;
  }

  lemma InHandIs(t: State, tt: Uuid, i: nat)
    requires OnceInv(t) && Booked(t) && Held(t)
    ensures InHand(t, tt)(i) == if i in t.ledger && t.ledger[i].tt == tt && t.ledger[i].stage == Deducted then t.ledger[i].quantity else 0
  {
    hide OnceInv, Booked, Held;
    if i in t.ledger && t.ledger[i].stage == Deducted { var p := HolderOf(t, i); }
    if p :| HoldsFor(t.procs, p, i, tt) {
      HolderFits(t, p, i, tt);
      forall q | HoldsFor(t.procs, q, i, tt) ensures t.procs[q].msg.quantity == t.ledger[i].quantity { HolderFits(t, q, i, tt); }
    }
  }

  lemma OneInFlight(t: State, tt: Uuid, i: nat)
    requires OnceInv(t) && Booked(t) && Held(t)
    ensures InFlight(t, tt)(i) == Queued(t, tt)(i) + InHand(t, tt)(i) && Pending(t, tt)(i) == Unreverted(t, tt)(i)
  {
    hide OnceInv, Booked, Held, InHand;
    InHandIs(t, tt, i);
    QueuedFits(t, i);
    if i in t.ledger { ViewFact(t, i); }
  }

  lemma OpenUnits(t: State, tt: Uuid)
    requires OnceInv(t) && Booked(t) && Held(t)
    ensures Sum(t.next, InFlight(t, tt)) == Sum(t.next, Queued(t, tt)) + Sum(t.next, InHand(t, tt))
    ensures Sum(t.next, Pending(t, tt)) == Sum(t.next, Unreverted(t, tt))
  {
    hide OnceInv, Booked, Held, InFlight, Queued, InHand, Pending, Unreverted;
    forall i: nat | i < t.next
      ensures InFlight(t, tt)(i) == Queued(t, tt)(i) + InHand(t, tt)(i) && Pending(t, tt)(i) == Unreverted(t, tt)(i)
    {
      OneInFlight(t, tt, i);
    }
    SumSplit(t.next, Queued(t, tt), InHand(t, tt), InFlight(t, tt));
    SumEq(t.next, Pending(t, tt), Unreverted(t, tt));
  }

  /**
   * Redis never shows more than Postgres: the detector's `cache_high` anomaly is unreachable. The drift is
   * what is queued without a row, in the hands of a request, leaked, or compensated and not yet reverted.
   */
  lemma CacheNeverHigh(s: State, acts: seq<Action>, tt: Uuid)
    requires Start(s) && LegalRun(s, acts) && tt in s.db.total
    ensures var t := Run(s, acts);
      && tt in t.db.avail && tt in t.redis.qty && DriftOf(t, tt) >= 0
      && DriftOf(t, tt) == Sum(t.next, Queued(t, tt)) + Sum(t.next, InHand(t, tt)) + Sum(t.next, LeakedUnits(t, tt)) + Sum(t.next, Unreverted(t, tt))
  {
    hide Start, OnceInv, Booked, PgInv, Held, LegalRun, Queued, InHand, Unreverted, InFlight, Pending, LeakedUnits, Excess;
    LegalNoChaos(s, acts);
    DriftIdentity(s, acts, tt);
    ReachedLegally(s, acts);
    NoSurplus(Run(s, acts), tt);
    PartsNonNegative(Run(s, acts), tt);
    OpenUnits(Run(s, acts), tt);
  }

  /** Every order is reverted in Redis at most once, never before Postgres has given it up, and exactly once when it is settled. */
  lemma ExactlyOnce(s: State, acts: seq<Action>, i: Uuid)
    requires Start(s) && LegalRun(s, acts) && i in Run(s, acts).db.orders
    ensures var t := Run(s, acts);
      && i in t.ledger && t.ledger[i].early == 0 && t.ledger[i].saga <= 1
      && (t.ledger[i].saga == 1 <==> t.db.orders[i].status == Compensated && (OrderKey(i) in t.redis.guards || WasRedisReverted(t.db, i)))
      && (Settled(t.db, i) ==> t.ledger[i].saga == 1)
  {
    hide Start, OnceInv, Booked, PgInv, Held, LegalRun;
    ReachedLegally(s, acts);
    RowFit(Run(s, acts), i);
    ViewFact(Run(s, acts), i);
  }

  /** Nothing is running, queued or owed. */
  ghost predicate Quiescent(t: State) {
    t.procs == map[] && t.msgs == map[] && forall i :: i in t.db.orders && IsTriggered(t.db.orders[i].status) ==> Settled(t.db, i)
  }

  /** At rest, Redis plus the leak is what Postgres has available, and that is the total less the live orders. */
  lemma QuiescentBalance(s: State, acts: seq<Action>, tt: Uuid)
    requires Start(s) && LegalRun(s, acts) && tt in s.db.total && Quiescent(Run(s, acts))
    ensures var t := Run(s, acts);
      && tt in t.db.avail && tt in t.redis.qty
      && t.redis.qty[tt] + Sum(t.next, LeakedUnits(t, tt)) == t.db.avail[tt]
      && t.db.avail[tt] == s.db.total[tt] - Sum(t.next, PgHeld(t.db.orders, tt))
  {
    hide Start, OnceInv, Booked, PgInv, Held, LegalRun, Quiescent;
    CacheNeverHigh(s, acts, tt);
    NoOversell(s, acts, tt);
    ReachedLegally(s, acts);
    NothingOpen(Run(s, acts), tt);
    OpenUnits(Run(s, acts), tt);
  }

  lemma NothingOpen(t: State, tt: Uuid)
    requires OnceInv(t) && Held(t) && Quiescent(t)
    ensures Sum(t.next, InFlight(t, tt)) == 0 && Sum(t.next, Pending(t, tt)) == 0
  {
    hide OnceInv;
    forall i: nat | i < t.next ensures InFlight(t, tt)(i) == 0 && Pending(t, tt)(i) == 0 {
      if i in t.ledger { ViewFact(t, i); }
    }
    SumShrink(0, t.next, InFlight(t, tt));
    SumShrink(0, t.next, Pending(t, tt));
  }

  // ---- Postgres, once ----

  lemma IntakeKeepsTickets(s: State, p: nat, tt: Uuid, quantity: int, user: int, until: int, f: Fault)
    ensures DoKafkaDeduct(s, p, tt, quantity, user, until, f).db == s.db
    ensures DoKafkaPublish(s, p, f).db == s.db && DoKafkaRevert(s, p, f).db == s.db
  {
    hide Deduct, MsgOf, Revert;
  }

  lemma CallKeepsTickets(s: State, p: nat, f: Fault)
    ensures DoCrash(s, p).db == s.db && DoCompCheck(s, p, f).db == s.db && DoCompRevert(s, p, f).db == s.db
  {
    hide Revert, WasRedisReverted;
  }

  lemma MarkKeepsTickets(s: State, p: nat, f: Fault)
    ensures DoCompMark(s, p, f).db.avail == s.db.avail
  {}

  lemma QueueKeepsTickets(s: State, a: Action)
    requires a.BookStream? || a.WorkerGiveUp? || a.WorkerAck? || a.GuardLost? || a.Chaos?
    ensures Next(s, a).db == s.db
  {
    hide Deduct, MsgOf, Revert, DoKafkaDeduct, DoKafkaPublish, DoKafkaRevert, DoCompRead, DoCompWrite, DoCompCheck, DoCompRevert, DoCompMark,
         DoHookRead, DoHookTx, DoCrash, DoJobTx, DoPaySet, DoWorkerTx;
  }

  lemma BookTakesTickets(db: Db, o: Order, tt: Uuid)
    requires tt in db.avail && o.quantity > 0
    ensures tt in BookTx(db, o).db.avail && BookTx(db, o).db.avail[tt] <= db.avail[tt]
  {
    hide CreateOrder;
    CreateKeepsTickets(DecrementTicket(db, o.tt, o.quantity).db, o);
  }

  lemma ReservedUnits(m: Msg, clock: int)
    ensures Reserve(m, clock).Accepted? ==> Reserve(m, clock).order.quantity > 0
  {}

  lemma WorkerTakesTickets(s: State, id: Uuid, clock: int, f: Fault, tt: Uuid)
    requires tt in s.db.avail
    ensures tt in DoWorkerTx(s, id, clock, f).db.avail && DoWorkerTx(s, id, clock, f).db.avail[tt] <= s.db.avail[tt]
  {
    hide BookTx, Reserve;
    if id in s.msgs && Reserve(s.msgs[id], clock).Accepted? {
      ReservedUnits(s.msgs[id], clock);
      BookTakesTickets(s.db, Reserve(s.msgs[id], clock).order, tt);
    }
  }

  lemma CreateKeepsTickets(db: Db, o: Order)
    ensures CreateOrder(db, o).db.avail == db.avail
  {
    hide UserHolds;
  }

  /** What one step may return to `tt`: nothing, or the units of the one order it compensates. */
  ghost predicate ReturnsOnce(s: State, a: Action, t: State, tt: Uuid) {
    tt in t.db.avail
    && tt in s.db.avail
    && (t.db.avail[tt] > s.db.avail[tt] ==>
          && a.CompWrite? && AtComp(s, a.p)
          && var i := s.procs[a.p].ev.order;
             && !Compensates(s.db.orders, i) && Compensates(t.db.orders, i)
             && t.db.orders[i].tt == tt && t.db.avail[tt] == s.db.avail[tt] + t.db.orders[i].quantity)
  }

  lemma WriteCommits(s: State, p: nat, f: Fault)
    requires AtComp(s, p) && s.procs[p].cpc.CWrite? && s.procs[p].cpc.tt == s.procs[p].ev.tt && !f.Fails?
    requires CompensateTx(s.db, s.procs[p].ev, s.procs[p].ev.tt).error == Ok
    ensures DoCompWrite(s, p, f).db == CompensateTx(s.db, s.procs[p].ev, s.procs[p].ev.tt).db
  {
    hide CompensateTx;
  }

  lemma CompensatingReturns(s: State, p: nat, f: Fault, tt: Uuid)
    requires AtComp(s, p) && tt in s.db.avail && s.procs[p].ev.order in s.db.orders
    requires var o := s.db.orders[s.procs[p].ev.order];
      o.tt in s.db.avail && IsFailure(o.status) && DoCompWrite(s, p, f).db == Compensating(s.db, s.procs[p].ev.order)
    ensures ReturnsOnce(s, CompWrite(p, f), DoCompWrite(s, p, f), tt)
  {
    hide DoCompWrite;
  }

  lemma WriteReturns(s: State, p: nat, f: Fault, tt: Uuid)
    requires PgInv(s) && tt in s.db.avail
    ensures ReturnsOnce(s, CompWrite(p, f), DoCompWrite(s, p, f), tt)
  {
    hide PgInv, DbInv, CompensateTx, ReturnsOnce;
    NoRise(s, CompWrite(p, f), DoCompWrite(s, p, f), tt);
    if AtComp(s, p) && s.procs[p].cpc.CWrite? {
      ProcFact(s, p);
      CompensateTxKeeps(s.db, s.next, s.procs[p].ev);
      if Compensable(s.db, s.procs[p].ev.order) && !f.Fails? {
        WriteCommits(s, p, f);
        CompensatingReturns(s, p, f, tt);
      }
    }
  }

  lemma IntakeTickets(s: State, a: Action, tt: Uuid)
    requires tt in s.db.avail && (a.KafkaDeduct? || a.KafkaPublish? || a.KafkaRevert? || a.Crash? || a.WorkerTx?)
    ensures tt in Next(s, a).db.avail && Next(s, a).db.avail[tt] <= s.db.avail[tt]
  {
    hide DoKafkaDeduct, DoKafkaPublish, DoKafkaRevert, DoCrash, DoWorkerTx;
    match a {
      case KafkaDeduct(p, x, q, user, until, f) => IntakeKeepsTickets(s, p, x, q, user, until, f);
      case KafkaPublish(p, f) => IntakeKeepsTickets(s, p, 0, 0, 0, 0, f);
      case KafkaRevert(p, f) => IntakeKeepsTickets(s, p, 0, 0, 0, 0, f);
      case Crash(p) => CallKeepsTickets(s, p, Clean);
      case WorkerTx(id, clock, f) => WorkerTakesTickets(s, id, clock, f, tt);
      case _ =>
    }
  }

  lemma CompTickets(s: State, a: Action, tt: Uuid)
    requires tt in s.db.avail && (a.CompCheck? || a.CompRevert? || a.CompMark?)
    ensures tt in Next(s, a).db.avail && Next(s, a).db.avail[tt] <= s.db.avail[tt]
  {
    hide DoCompCheck, DoCompRevert, DoCompMark;
    match a {
      case CompCheck(p, f) => CallKeepsTickets(s, p, f);
      case CompRevert(p, f) => CallKeepsTickets(s, p, f);
      case CompMark(p, f) => MarkKeepsTickets(s, p, f);
      case _ =>
    }
  }

  /** Tickets come back to Postgres only when the step compensates an order, and then exactly its own units. */
  lemma TicketsComeBackOnce(s: State, a: Action, tt: Uuid)
    requires PgInv(s) && tt in s.db.avail
    ensures ReturnsOnce(s, a, Next(s, a), tt)
  {
    hide PgInv, ReturnsOnce, Next, Plain, SameBooks, NoNewClaims, KeepsIntakes;
    NoRise(s, a, Next(s, a), tt);
    if Calm(a) {
      CalmSteps(s, a);
    } else if a.CompWrite? {
      WriteReturns(s, a.p, a.f, tt);
      FirstActions(s, a.p, a.f, 0);
    } else if a.CompCheck? || a.CompRevert? || a.CompMark? {
      CompTickets(s, a, tt);
    } else if a.BookStream? || a.WorkerGiveUp? || a.WorkerAck? || a.GuardLost? || a.Chaos? {
      QueueKeepsTickets(s, a);
    } else {
      IntakeTickets(s, a, tt);
    }
  }

  lemma NoRise(s: State, a: Action, t: State, tt: Uuid)
    requires tt in s.db.avail
    ensures tt in t.db.avail && t.db.avail[tt] <= s.db.avail[tt] ==> ReturnsOnce(s, a, t, tt)
  {}

  /** How many steps of a run compensate order `i`. */
  ghost function Compensations(s: State, acts: seq<Action>, i: Uuid): nat
    decreases |acts|
  {
    if acts == [] then 0
    else (if !Compensates(s.db.orders, i) && Compensates(Next(s, acts[0]).db.orders, i) then 1 else 0)
         + Compensations(Next(s, acts[0]), acts[1..], i)
  }

  /** With `TicketsComeBackOnce`: over any run an order's units come back to Postgres at most once, and once exactly if it ends compensated. */
  lemma {:induction false} CompensatedAtMostOnce(s: State, acts: seq<Action>, i: Uuid)
    requires PgInv(s)
    ensures Compensations(s, acts, i) == if !Compensates(s.db.orders, i) && Compensates(Run(s, acts).db.orders, i) then 1 else 0
    decreases |acts|
  {
    hide PgInv, Next, Advances;
    if acts != [] {
      NextKeeps(s, acts[0]);
      CompensatedAtMostOnce(Next(s, acts[0]), acts[1..], i);
      RunKeeps(Next(s, acts[0]), acts[1..]);
      CompensatedStays(s, Next(s, acts[0]), i);
      CompensatedStays(Next(s, acts[0]), Run(s, acts), i);
    }
  }

  lemma CompensatedStays(s: State, t: State, i: Uuid)
    requires Advances(s, t)
    ensures Compensates(s.db.orders, i) ==> Compensates(t.db.orders, i)
  {
    if i in s.db.orders { assert RowExtends(s.db.orders[i], t.db.orders[i]); }
  }
}
