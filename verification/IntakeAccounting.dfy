/** Stage 5 intake: what was deducted is held, published or leaked, and every leak was recorded. */
module IntakeAccounting {
  import opened Sums
  import opened Domain
  import opened Options
  import opened Store
  import opened Protocol
  import opened Steps
  import opened DbSafety
  import opened PgSafety
  import opened PgSteps
  import opened Guarantees
  import opened Ledger
  import opened LedgerSteps
  import opened Once
  import opened OnceSteps
  import opened Drift
  import opened Fence
  import opened Scenarios

  /** RecordPublishFailure(false) was called exactly for the leaks, with `true` exactly for what was taken back. */
  ghost predicate Recorded(ledger: Entries) {
    forall i :: i in ledger ==>
      (ledger[i].recorded == Some(false) <==> ledger[i].stage == Leaked) && (ledger[i].recorded == Some(true) <==> ledger[i].stage == TakenBack)
  }

  /** No deduction or revert is applied with its reply lost, and no request handler dies holding units. */
  ghost predicate Definite(s: State, a: Action) {
    match a
    case KafkaDeduct(_, _, _, _, _, f) => !f.Lost?
    case KafkaRevert(_, f) => !f.Lost?
    case Crash(p) => !(p in s.procs && s.procs[p].Intake?)
    case _ => true
  }

  ghost predicate DefiniteRun(s: State, acts: seq<Action>)
    decreases |acts|
  {
    acts == [] || (Definite(s, acts[0]) && DefiniteRun(Next(s, acts[0]), acts[1..]))
  }

  lemma DeductRecords(s: State, p: nat, tt: Uuid, quantity: int, user: int, until: int, f: Fault)
    requires Recorded(s.ledger) && !f.Lost?
    ensures Recorded(DoKafkaDeduct(s, p, tt, quantity, user, until, f).ledger)
  {
    hide Deduct, MsgOf;
  }

  lemma PublishRecords(s: State, p: nat, f: Fault)
    requires Recorded(s.ledger) && OnceInv(s)
    ensures Recorded(DoKafkaPublish(s, p, f).ledger)
  {
    hide OnceInv;
    if p in s.procs && s.procs[p].Intake? { HeldView(s, p); }
  }

  lemma RevertRecords(s: State, p: nat, f: Fault)
    requires Recorded(s.ledger) && OnceInv(s) && !f.Lost?
    ensures Recorded(DoKafkaRevert(s, p, f).ledger)
  {
    hide OnceInv, Revert;
    if p in s.procs && s.procs[p].Intake? { HeldView(s, p); }
  }

  lemma OtherRecords(s: State, p: nat, f: Fault)
    requires Recorded(s.ledger)
    ensures Recorded(DoCompRevert(s, p, f).ledger)
    ensures !(p in s.procs && s.procs[p].Intake?) ==> DoCrash(s, p).ledger == s.ledger
  {
    hide Revert;
  }

  lemma QueueRecords(s: State, a: Action)
    requires Recorded(s.ledger) && (a.BookStream? || a.WorkerTx? || a.WorkerGiveUp? || a.WorkerAck?)
    ensures Recorded(Next(s, a).ledger)
  {
    hide Deduct, MsgOf, BookTx, Revert, Reserve, DoKafkaDeduct, DoKafkaPublish, DoKafkaRevert, DoCompRead, DoCompWrite, DoCompCheck,
         DoCompRevert, DoCompMark, DoHookRead, DoHookTx, DoCrash, DoJobTx, DoPaySet;
  }

  lemma NextRecords(s: State, a: Action)
    requires Recorded(s.ledger) && OnceInv(s) && Definite(s, a) && !a.Chaos?
    ensures Recorded(Next(s, a).ledger)
  {
    hide Recorded, OnceInv, Steady, DoKafkaDeduct, DoKafkaPublish, DoKafkaRevert, DoCompWrite, DoCompCheck, DoCompRevert, DoCompMark, DoCrash,
         DoGuardLost, DoBookStream, DoWorkerTx, DoWorkerGiveUp, DoWorkerAck;
    if Calm(a) {
      CalmSteps(s, a);
    } else {
      match a {
        case KafkaDeduct(p, tt, q, user, until, f) => DeductRecords(s, p, tt, q, user, until, f);
        case KafkaPublish(p, f) => PublishRecords(s, p, f);
        case KafkaRevert(p, f) => RevertRecords(s, p, f);
        case Crash(p) => OtherRecords(s, p, Clean);
        case CompRevert(p, f) => OtherRecords(s, p, f);
        case CompWrite(p, f) => CompWriteBooks(s, p, f);
        case CompCheck(p, f) => CompCheckBooks(s, p, f);
        case CompMark(p, f) => CompMarkBooks(s, p, f);
        case GuardLost(key) => GuardBooks(s, key);
        case _ => QueueRecords(s, a);
      }
    }
  }

  lemma {:induction false} RunRecords(s: State, acts: seq<Action>)
    requires Recorded(s.ledger) && OnceInv(s) && Booked(s) && PgInv(s) && LegalRun(s, acts) && DefiniteRun(s, acts)
    ensures Recorded(Run(s, acts).ledger)
    decreases |acts|
  {
    hide Recorded, OnceInv, Booked, PgInv, Next, Legal, Definite, Advances;
    if acts != [] {
      LegalHasNoChaos(s, acts[0]);
      NextKeeps(s, acts[0]);
      NextBooks(s, acts[0]);
      NextOnce(s, acts[0]);
      NextRecords(s, acts[0]);
      RunRecords(Next(s, acts[0]), acts[1..]);
    }
  }

  /** Units of published messages that have not been given back by the worker or the saga. */
  ghost function PublishedUnits(s: State, tt: Uuid): nat -> int {
    (i: nat) => if i in s.ledger && s.ledger[i].tt == tt && s.ledger[i].stage == Published then Net(s.ledger[i]) else 0
  }

  /** Units of requests for which RecordPublishFailure(false) was called. */
  ghost function RecordedUnits(s: State, tt: Uuid): nat -> int {
    (i: nat) => if i in s.ledger && s.ledger[i].tt == tt && s.ledger[i].recorded == Some(false) then s.ledger[i].quantity else 0
  }

  lemma OneEntry(t: State, tt: Uuid, i: nat)
    requires OnceInv(t) && Booked(t) && Held(t) && Recorded(t.ledger)
    ensures NetOf(t.ledger, tt)(i) == InHand(t, tt)(i) + PublishedUnits(t, tt)(i) + RecordedUnits(t, tt)(i)
    ensures RecordedUnits(t, tt)(i) == LeakedUnits(t, tt)(i)
  {
    hide OnceInv, Booked, Held, InHand;
    InHandIs(t, tt, i);
    if i in t.ledger { ViewFact(t, i); }
  }

  lemma {:induction false} SumOfThree(n: nat, a: nat -> int, b: nat -> int, c: nat -> int, d: nat -> int)
    requires forall i: nat :: i < n ==> a(i) == b(i) + c(i) + d(i)
    ensures Sum(n, a) == Sum(n, b) + Sum(n, c) + Sum(n, d)
  {
    if n != 0 { SumOfThree(n - 1, a, b, c, d); }
  }

  /**
   * Counter, units in hand, published units and recorded leaks always add up to the total; and what
   * leaked is exactly what the failed reverts recorded. Metadata repair is one of the actions.
   */
  lemma IntakeBalance(s: State, acts: seq<Action>, tt: Uuid)
    requires Start(s) && LegalRun(s, acts) && DefiniteRun(s, acts) && tt in s.db.total
    ensures var t := Run(s, acts);
      && tt in t.redis.qty
      && t.redis.qty[tt] + Sum(t.next, InHand(t, tt)) + Sum(t.next, PublishedUnits(t, tt)) + Sum(t.next, RecordedUnits(t, tt)) == s.db.total[tt]
      && Sum(t.next, LeakedUnits(t, tt)) == Sum(t.next, RecordedUnits(t, tt))
  {
    hide Start, OnceInv, Booked, PgInv, Held, LegalRun, DefiniteRun, Recorded;
    var t := Run(s, acts);
    ReachedLegally(s, acts);
    StartHolds(s);
    StartBooked(s);
    StartOnce(s);
    StartRecorded(s);
    RunRecords(s, acts);
    CacheNeverHigh(s, acts, tt);
    NoOversell(s, acts, tt);
    forall i: nat | i < t.next
      ensures NetOf(t.ledger, tt)(i) == InHand(t, tt)(i) + PublishedUnits(t, tt)(i) + RecordedUnits(t, tt)(i)
      ensures RecordedUnits(t, tt)(i) == LeakedUnits(t, tt)(i)
    {
      OneEntry(t, tt, i);
    }
    SumOfThree(t.next, NetOf(t.ledger, tt), InHand(t, tt), PublishedUnits(t, tt), RecordedUnits(t, tt));
    SumEq(t.next, RecordedUnits(t, tt), LeakedUnits(t, tt));
    BalanceAt(t, tt);
  }

  lemma BalanceAt(t: State, tt: Uuid)
    requires Booked(t) && tt in t.db.total
    ensures tt in t.redis.qty && t.redis.qty[tt] + Sum(t.next, NetOf(t.ledger, tt)) == t.db.total[tt]
  {}

  lemma StartRecorded(s: State)
    requires Start(s)
    ensures Recorded(s.ledger)
  {
    hide OrdersOk, AllConserved;
  }

  // ---- Each clause of `Definite` is needed ----

  /** A legal run, definite but for its last step, after which the leak and what was recorded of it differ by `d` units. */
  ghost predicate Misrecords(s: State, acts: seq<Action>, tt: Uuid, d: int) {
    && LegalRun(s, acts) && |acts| > 0 && DefiniteRun(s, acts[..|acts| - 1])
    && Sum(Run(s, acts).next, LeakedUnits(Run(s, acts), tt)) - Sum(Run(s, acts).next, RecordedUnits(Run(s, acts), tt)) == d
  }

  /** The one entry `i` of a state whose other entries neither leaked nor were recorded. */
  lemma OneLeak(s: State, t: State, i: Uuid, tt: Uuid)
    requires Start(s) && t.db == s.db && i in t.ledger && t.ledger == s.ledger[i := t.ledger[i]] && i < t.next && i !in s.db.orders
    ensures Sum(t.next, LeakedUnits(t, tt)) == LeakedUnits(t, tt)(i) && Sum(t.next, RecordedUnits(t, tt)) == RecordedUnits(t, tt)(i)
  {
    hide OrdersOk, AllConserved;
    OneTerm(t.next, LeakedUnits(t, tt), i);
    OneTerm(t.next, RecordedUnits(t, tt), i);
  }

  lemma {:induction false} OneTerm(n: nat, f: nat -> int, k: nat)
    requires k < n && forall i: nat :: i < n && i != k ==> f(i) == 0
    ensures Sum(n, f) == f(k)
  {
    if k == n - 1 { SumShrink(0, n - 1, f); } else { OneTerm(n - 1, f, k); }
  }

  lemma LegalHere(s: State, acts: seq<Action>)
    requires forall k :: 0 <= k < |acts| ==> Harmless(acts[k])
    ensures LegalRun(s, acts)
  {
    hide Breaches, LegalRun;
    HarmlessRun(s, acts);
    LegalIsNoBreach(s, acts);
  }

  /** A deduction applied with its reply lost: the units leak and nobody records it. */
  lemma LostDeductionLeaksUnrecorded(s: State, p: nat, tt: Uuid, quantity: int, user: int, until: int, clock: int)
    requires Bookable(s, tt, quantity, user, until, clock)
    ensures Misrecords(s, [KafkaDeduct(p, tt, quantity, user, until, Lost)], tt, quantity)
  {
    hide Bookable, DoKafkaDeduct, LegalRun, Run, MsgOf, Reserve, Start, Next, LeakedUnits, RecordedUnits;
    var acts := [KafkaDeduct(p, tt, quantity, user, until, Lost)];
    BookableParts(s, tt, quantity, user, until, clock);
    StreamBooks(s, tt, quantity, user, until, clock);
    LegalHere(s, acts);
    RunOne(s, acts[0]);
    DeductStep(s, p, tt, quantity, user, until, Lost);
    LosesDeduction(s, p, tt, quantity, user, until, clock);
    var t := DoKafkaDeduct(s, p, tt, quantity, user, until, Lost);
    OneLeak(s, t, s.next, tt);
    EntryTerms(t, s.next, tt);
  }

  lemma LosesDeduction(s: State, p: nat, tt: Uuid, quantity: int, user: int, until: int, clock: int)
    requires Bookable(s, tt, quantity, user, until, clock)
    ensures var t := DoKafkaDeduct(s, p, tt, quantity, user, until, Lost);
      t.db == s.db && t.next == s.next + 1 && t.ledger == s.ledger[s.next := Entry(tt, quantity, Leaked, 0, 0, None)]
  {
    hide OrdersOk, AllConserved, Reserve;
  }

  lemma EntryTerms(t: State, i: Uuid, tt: Uuid)
    requires i in t.ledger && i !in t.db.orders && t.ledger[i].tt == tt && t.ledger[i].saga == 0
    ensures LeakedUnits(t, tt)(i) == (if t.ledger[i].stage == Leaked && t.ledger[i].early == 0 then t.ledger[i].quantity else 0)
    ensures RecordedUnits(t, tt)(i) == (if t.ledger[i].recorded == Some(false) then t.ledger[i].quantity else 0)
  {}

  /** A request dies between its deduction and its publication: the same. */
  lemma CrashLeaksUnrecorded(s: State, p: nat, tt: Uuid, quantity: int, user: int, until: int, clock: int)
    requires Bookable(s, tt, quantity, user, until, clock)
    ensures Misrecords(s, [KafkaDeduct(p, tt, quantity, user, until, Clean), Crash(p)], tt, quantity)
  {
    hide Bookable, DoKafkaDeduct, DoCrash, LegalRun, Run, MsgOf, Reserve, Start, Next, LeakedUnits, RecordedUnits;
    var a, b := KafkaDeduct(p, tt, quantity, user, until, Clean), Crash(p);
    BookableParts(s, tt, quantity, user, until, clock);
    StreamBooks(s, tt, quantity, user, until, clock);
    MsgUnits(s, tt, quantity, user, until);
    LegalHere(s, [a, b]);
    RunTwo(s, a, b);
    DeductStep(s, p, tt, quantity, user, until, Clean);
    KafkaHolds(s, p, tt, quantity, user, until, clock);
    var t1 := DoKafkaDeduct(s, p, tt, quantity, user, until, Clean);
    CrashStep(t1, p);
    CrashLeaks(t1, p, s.next);
    assert [a, b][..1] == [a];
    DefiniteOne(s, a);
    OneLeak(s, DoCrash(t1, p), s.next, tt);
    EntryTerms(DoCrash(t1, p), s.next, tt);
  }

  lemma DefiniteOne(s: State, a: Action)
    requires Definite(s, a)
    ensures DefiniteRun(s, [a])
  {
    hide Definite, Next;
    assert [a][1..] == [];
  }

  lemma CrashLeaks(t: State, p: nat, i: Uuid)
    requires p in t.procs && t.procs[p].Intake? && t.procs[p].msg.id == i && i in t.ledger && t.ledger[i].stage == Deducted
    ensures DoCrash(t, p).ledger == t.ledger[i := t.ledger[i].(stage := Leaked)] && DoCrash(t, p).db == t.db && DoCrash(t, p).next == t.next
  {}

  /** A revert applied with its reply lost: recorded as a leak although the units are back. */
  lemma LostRevertRecordsNoLeak(s: State, p: nat, tt: Uuid, quantity: int, user: int, until: int, clock: int)
    requires Bookable(s, tt, quantity, user, until, clock)
    ensures Misrecords(s, [KafkaDeduct(p, tt, quantity, user, until, Clean), KafkaPublish(p, Fails), KafkaRevert(p, Lost)], tt, -quantity)
  {
    hide Bookable, DoKafkaDeduct, DoKafkaPublish, DoKafkaRevert, LegalRun, Run, MsgOf, Reserve, Start, Next, LeakedUnits, RecordedUnits;
    var a, b, c := KafkaDeduct(p, tt, quantity, user, until, Clean), KafkaPublish(p, Fails), KafkaRevert(p, Lost);
    BookableParts(s, tt, quantity, user, until, clock);
    StreamBooks(s, tt, quantity, user, until, clock);
    MsgUnits(s, tt, quantity, user, until);
    LegalHere(s, [a, b, c]);
    RunThree(s, a, b, c);
    DeductStep(s, p, tt, quantity, user, until, Clean);
    KafkaHolds(s, p, tt, quantity, user, until, clock);
    var t1 := DoKafkaDeduct(s, p, tt, quantity, user, until, Clean);
    PublishSteps(t1, p, Fails);
    PublishSteps(t1, p, Lost);
    PublishSteps(DoKafkaPublish(t1, p, Fails), p, Fails);
    PublishSteps(DoKafkaPublish(t1, p, Fails), p, Lost);
    TakesBack(t1, p, MsgOf(s, tt, quantity, user, until));
    assert [a, b, c][..2] == [a] + [b];
    DefiniteTwo(s, a, b);
    var t := DoKafkaRevert(DoKafkaPublish(t1, p, Fails), p, Lost);
    OneLeak(s, t, s.next, tt);
    EntryTerms(t, s.next, tt);
  }

  lemma DefiniteTwo(s: State, a: Action, b: Action)
    requires Definite(s, a) && Definite(Next(s, a), b)
    ensures DefiniteRun(s, [a] + [b])
  {
    hide Definite, Next;
    assert ([a] + [b])[1..] == [b];
    DefiniteOne(Next(s, a), b);
  }

  lemma TakesBack(t: State, p: nat, m: Msg)
    requires p in t.procs && t.procs[p] == Intake(m, false) && m.id in t.ledger && t.redis.guards == {}
    requires t.ledger[m.id].stage == Deducted && t.ledger[m.id].early == 0
    ensures var u := DoKafkaRevert(DoKafkaPublish(t, p, Fails), p, Lost);
      u.db == t.db && u.next == t.next && u.ledger == t.ledger[m.id := t.ledger[m.id].(stage := TakenBack, early := 1, recorded := Some(false))]
  {
    assert DoKafkaPublish(t, p, Fails) == Put(t, p, Intake(m, true));
  }
}
