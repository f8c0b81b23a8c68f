/** Every legal action keeps the exactly-once invariant, and so does every legal run. */
module OnceSteps {
  import opened Domain
  import opened Options
  import opened Store
  import opened Protocol
  import opened DbSafety
  import opened PgSafety
  import opened PgSteps
  import opened Guarantees
  import opened Ledger
  import opened LedgerSteps
  import opened Once

  /** Changing entry `i` leaves the other handlers' claims standing. */
  lemma ClaimsStable(s: State, ledger: Entries, guards: set<GuardKey>, p: nat, i: Uuid)
    requires OnceInv(s) && i in s.ledger && i in ledger && ledger == s.ledger[i := ledger[i]]
    requires ledger[i].stage == Deducted || forall q :: q in s.procs && q != p && s.procs[q].Intake? ==> s.procs[q].msg.id != i
    requires ledger[i].saga == s.ledger[i].saga || (s.ledger[i].saga != 1 && OrderKey(i) in guards)
    requires forall j :: OrderKey(j) in s.redis.guards ==> OrderKey(j) in guards
    ensures forall q :: q in s.procs && q != p ==> ClaimOk(ledger, guards, s.procs[q])
  {
    hide ViewsOk, KeysKnown, IntakesDiffer;
  }

  lemma NotHeld(s: State, p: nat, i: Uuid)
    requires OnceInv(s) && (p in s.procs && s.procs[p].Intake? && s.procs[p].msg.id == i)
    ensures forall q :: q in s.procs && q != p && s.procs[q].Intake? ==> s.procs[q].msg.id != i
    ensures i in s.ledger && s.ledger[i].stage == Deducted
  {
    hide ViewsOk, KeysKnown;
  }

  lemma NobodyHolds(s: State, i: Uuid)
    requires OnceInv(s) && i in s.ledger && s.ledger[i].stage != Deducted
    ensures forall q :: q in s.procs && s.procs[q].Intake? ==> s.procs[q].msg.id != i
  {
    hide ViewsOk, KeysKnown, IntakesDiffer;
  }

  lemma KeysGrow(s: State, i: Uuid, e: Entry, key: GuardKey)
    requires KeysKnown(s.redis.guards, s.ledger) && key.id == i
    ensures KeysKnown(s.redis.guards + {key}, s.ledger[i := e]) && KeysKnown(s.redis.guards, s.ledger[i := e])
  {}

  /** Entry, queue entry and one guard key of `i` changed; every other view is as it was. */
  lemma OthersAfter(s: State, t: State, i: Uuid, key: GuardKey)
    requires i in s.ledger && i in t.ledger && t.ledger == s.ledger[i := t.ledger[i]] && t.db == s.db && key.id == i
    requires t.redis.guards == s.redis.guards || t.redis.guards == s.redis.guards + {key}
    requires t.msgs == s.msgs || t.msgs == s.msgs - {i} || (i in t.msgs && t.msgs == s.msgs[i := t.msgs[i]])
    ensures OthersSame(s, t, i)
  {}

  lemma FreshFacts(s: State)
    requires OnceInv(s) && Booked(s) && PgInv(s)
    ensures var i := s.next;
      && i !in s.ledger && i !in s.msgs && i !in s.db.orders && !WasRedisReverted(s.db, i)
      && EntryKey(i) !in s.redis.guards && IntakeKey(i) !in s.redis.guards && OrderKey(i) !in s.redis.guards
    ensures forall q :: q in s.procs && s.procs[q].Intake? ==> s.procs[q].msg.id != s.next
  {
    hide ViewsOk, Balanced, DbInv;
    if s.next in s.db.orders { RowFit(s, s.next); }
    QueueFact(s);
    Unpack(s.db, s.next);
    assert EntryKey(s.next).id !in s.ledger && IntakeKey(s.next).id !in s.ledger && OrderKey(s.next).id !in s.ledger;
    forall q | q in s.procs && s.procs[q].Intake? ensures s.procs[q].msg.id != s.next { IntakeFact(s, q); }
  }

  lemma ClaimsFresh(s: State, i: Uuid, e: Entry)
    requires OnceInv(s) && i !in s.ledger
    ensures forall q :: q in s.procs ==> ClaimOk(s.ledger[i := e], s.redis.guards, s.procs[q])
  {
    hide ViewsOk, KeysKnown, IntakesDiffer;
  }

  lemma NewView(s: State, t: State, e: Entry, p: nat)
    requires OnceInv(s) && Booked(s) && PgInv(s) && t.redis.guards == s.redis.guards && t.db == s.db
    requires t.ledger == s.ledger[s.next := e] && e.early == 0 && e.saga == 0
    requires if e.stage == Published then s.next in t.msgs && t.msgs == s.msgs[s.next := t.msgs[s.next]] else t.msgs == s.msgs
    requires e.stage == Published || e.stage == Deducted || e.stage == Leaked
    requires if e.stage == Deducted
             then p !in s.procs && p in t.procs && t.procs == s.procs[p := t.procs[p]] && t.procs[p].Intake? && t.procs[p].msg.id == s.next
             else t.procs == s.procs
    ensures OnceInv(t)
  {
    hide Booked, PgInv, DbInv, OnceInv, KeysKnown;
    Parts(s);
    FreshFacts(s);
    ClaimsFresh(s, s.next, e);
    KeysGrow(s, s.next, e, EntryKey(s.next));
    assert OthersSame(s, t, s.next);
    OneView(s, t, s.next, p);
  }

  lemma Same(s: State, t: State)
    requires OnceInv(s) && t.db == s.db && t.ledger == s.ledger && t.msgs == s.msgs && t.procs == s.procs && t.redis.guards == s.redis.guards
    ensures OnceInv(t)
  {
    Parts(s);
    assert forall i :: i in t.ledger ==> ViewOf(t, i) == ViewOf(s, i);
  }

  lemma DeductGuards(r: Redis, tt: Uuid, n: int)
    ensures Deduct(r, tt, n).redis.guards == r.guards && (Deduct(r, tt, n).error == Ok ==> tt in r.meta)
  {}

  lemma BookStreamOnce(s: State, tt: Uuid, quantity: int, user: int, until: int)
    requires OnceInv(s) && Booked(s) && PgInv(s)
    ensures OnceInv(DoBookStream(s, tt, quantity, user, until))
  {
    hide OnceInv, Booked, PgInv, Deduct, MsgOf;
    DeductGuards(s.redis, tt, quantity);
    var t := DoBookStream(s, tt, quantity, user, until);
    if t.ledger == s.ledger && t.msgs == s.msgs { Same(s, t); }
    else { NewView(s, t, Entry(tt, quantity, Published, 0, 0, None), 0); }
  }

  lemma KafkaDeductOnce(s: State, p: nat, tt: Uuid, quantity: int, user: int, until: int, f: Fault)
    requires OnceInv(s) && Booked(s) && PgInv(s)
    ensures OnceInv(DoKafkaDeduct(s, p, tt, quantity, user, until, f))
  {
    hide OnceInv, Booked, PgInv, Deduct, MsgOf;
    DeductGuards(s.redis, tt, quantity);
    var t := DoKafkaDeduct(s, p, tt, quantity, user, until, f);
    if p !in s.procs && BookingAccepted(user, tt, quantity) && !f.Fails? && Deduct(s.redis, tt, quantity).error == Ok {
      NewView(s, t, Entry(tt, quantity, if f.Clean? then Deducted else Leaked, 0, 0, None), p);
    } else {
      Same(s, t);
    }
  }

  lemma KafkaPublishOnce(s: State, p: nat, f: Fault)
    requires OnceInv(s) && Legal(s, KafkaPublish(p, f))
    ensures OnceInv(DoKafkaPublish(s, p, f))
  {
    hide OnceInv;
    var t := DoKafkaPublish(s, p, f);
    if p in s.procs && s.procs[p].Intake? && !s.procs[p].reverting && s.procs[p].msg.id in s.ledger {
      var i := s.procs[p].msg.id;
      HeldView(s, p);
      if f.Fails? { assert t.ledger == s.ledger[i := s.ledger[i]]; }
      HeldStep(s, t, p, IntakeKey(i));
    }
  }

  /** What the handler that holds the units knows about its reservation. */
  lemma HeldView(s: State, p: nat)
    requires OnceInv(s) && p in s.procs && s.procs[p].Intake?
    ensures s.procs[p].msg.id in s.ledger
    ensures var v := ViewOf(s, s.procs[p].msg.id);
      && v.entry.stage == Deducted && v.entry.early == 0 && v.entry.saga == 0
      && !v.row && !v.done && !v.queued && !v.entryKey && !v.intakeKey && !v.orderKey && !v.flag
  {
    hide OnceInv;
    NotHeld(s, p, s.procs[p].msg.id);
    ViewFact(s, s.procs[p].msg.id);
  }

  /** The units of the reservation `p` holds move to another stage, and `p` leaves or stays with them. */
  lemma HeldStep(s: State, t: State, p: nat, key: GuardKey)
    requires OnceInv(s) && p in s.procs && s.procs[p].Intake? && key.id == s.procs[p].msg.id && t.db == s.db
    requires var i := s.procs[p].msg.id;
      && i in s.ledger && i in t.ledger && t.ledger == s.ledger[i := t.ledger[i]]
      && t.ledger[i].saga == s.ledger[i].saga && ViewOk(ViewOf(t, i))
    requires t.redis.guards == s.redis.guards || t.redis.guards == s.redis.guards + {key}
    requires var i := s.procs[p].msg.id; t.msgs == s.msgs || (i in t.msgs && t.msgs == s.msgs[i := t.msgs[i]])
    requires t.procs == s.procs - {p}
             || (p in t.procs && t.procs == s.procs[p := t.procs[p]] && t.procs[p].Intake? && t.procs[p].msg == s.procs[p].msg
                 && t.ledger[s.procs[p].msg.id].stage == Deducted)
    ensures OnceInv(t)
  {
    hide OnceInv, KeysKnown, ViewOk, ViewOf, OthersSame;
    var i := s.procs[p].msg.id;
    Parts(s);
    NotHeld(s, p, i);
    KeysGrow(s, i, t.ledger[i], key);
    OthersAfter(s, t, i, key);
    ClaimsStable(s, t.ledger, t.redis.guards, p, i);
    OneView(s, t, i, p);
  }

  lemma KafkaRevertOnce(s: State, p: nat, f: Fault)
    requires OnceInv(s)
    ensures OnceInv(DoKafkaRevert(s, p, f))
  {
    hide OnceInv;
    if p in s.procs && s.procs[p].Intake? && s.procs[p].reverting && s.procs[p].msg.id in s.ledger {
      HeldView(s, p);
      HeldStep(s, DoKafkaRevert(s, p, f), p, IntakeKey(s.procs[p].msg.id));
    }
  }

  lemma CrashOnce(s: State, p: nat)
    requires OnceInv(s)
    ensures OnceInv(DoCrash(s, p))
  {
    hide OnceInv;
    if p in s.procs {
      if s.procs[p].Intake? {
        HeldView(s, p);
        HeldStep(s, DoCrash(s, p), p, IntakeKey(s.procs[p].msg.id));
      } else {
        Fewer(s, DoCrash(s, p));
      }
    }
  }

  /** Handlers only left. */
  lemma Fewer(s: State, t: State)
    requires OnceInv(s) && t == s.(procs := t.procs) && forall p :: p in t.procs ==> p in s.procs && t.procs[p] == s.procs[p]
    ensures OnceInv(t)
  {
    Parts(s);
    assert forall i :: i in t.ledger ==> ViewOf(t, i) == ViewOf(s, i);
  }

  // ---- Worker ----

  lemma AllClaims(s: State)
    requires OnceInv(s)
    ensures forall q :: q in s.procs ==> ClaimOk(s.ledger, s.redis.guards, s.procs[q])
    ensures forall p, q :: p in s.procs && q in s.procs && p != q && s.procs[p].Intake? && s.procs[q].Intake?
                           ==> s.procs[p].msg.id != s.procs[q].msg.id
    ensures KeysKnown(s.redis.guards, s.ledger)
  {}

  /** Only the row, the flag or the queue entry of `i` changed. */
  lemma QuietView(s: State, t: State, i: Uuid)
    requires OnceInv(s) && i in s.ledger && t == s.(db := t.db, msgs := t.msgs) && ViewOk(ViewOf(t, i)) && OthersSame(s, t, i)
    ensures OnceInv(t)
  {
    hide OnceInv, ViewOk, ClaimOk, OthersSame, ViewOf;
    AllClaims(s);
    OneView(s, t, i, 0);
  }

  lemma RowView(s: State, o: Order)
    requires OnceInv(s) && Booked(s) && o.id in s.msgs && EntryKey(o.id) !in s.redis.guards
    requires o.id !in s.db.orders && o.tt in s.db.avail && o.status == AwaitingPayment
    ensures var t := s.(db := Booking(s.db, o)); o.id in s.ledger && ViewOk(ViewOf(t, o.id)) && OthersSame(s, t, o.id)
  {
    hide OnceInv, Booked;
    MsgIds(s);
    ViewFact(s, o.id);
  }

  lemma WorkerTxOnce(s: State, id: Uuid, clock: int, f: Fault)
    requires OnceInv(s) && Booked(s) && PgInv(s) && Legal(s, WorkerTx(id, clock, f))
    ensures OnceInv(DoWorkerTx(s, id, clock, f))
  {
    hide OnceInv, Booked, PgInv, DbInv, BookTx, ViewOk, ViewOf, OthersSame;
    var t := DoWorkerTx(s, id, clock, f);
    if id in s.msgs && s.msgs[id].id == id && !f.Fails? && Reserve(s.msgs[id], clock).Accepted? {
      var o := Reserve(s.msgs[id], clock).order;
      QueueFact(s);
      BookTxKeeps(s.db, s.next, o);
      if BookTx(s.db, o).error == Ok {
        RowView(s, o);
        QuietView(s, t, id);
      } else {
        Same(s, t);
      }
    }
  }

  lemma WorkerGiveUpOnce(s: State, id: Uuid, f: Fault)
    requires OnceInv(s) && Booked(s) && Legal(s, WorkerGiveUp(id, f))
    ensures OnceInv(DoWorkerGiveUp(s, id, f))
  {
    hide OnceInv, Booked;
    if id in s.msgs && !f.Fails? && EntryKey(id) !in s.redis.guards {
      MsgIds(s);
      ViewFact(s, id);
      GiveUpStep(s, DoWorkerGiveUp(s, id, f), id);
    }
  }

  lemma GiveUpStep(s: State, t: State, i: Uuid)
    requires OnceInv(s) && i in s.ledger && s.ledger[i].stage == Published && t == s.(ledger := t.ledger, redis := t.redis)
    requires i in t.ledger && t.ledger == s.ledger[i := t.ledger[i]] && t.ledger[i].saga == s.ledger[i].saga && ViewOk(ViewOf(t, i))
    requires t.redis.guards == s.redis.guards + {EntryKey(i)}
    ensures OnceInv(t)
  {
    hide OnceInv, ViewOk, ViewOf, OthersSame, KeysKnown;
    Parts(s);
    NobodyHolds(s, i);
    AllClaims(s);
    KeysGrow(s, i, t.ledger[i], EntryKey(i));
    OthersAfter(s, t, i, EntryKey(i));
    ClaimsStable(s, t.ledger, t.redis.guards, 0, i);
    ClaimsStable(s, t.ledger, t.redis.guards, 1, i);
    OneView(s, t, i, 0);
  }

  lemma WorkerAckOnce(s: State, id: Uuid)
    requires OnceInv(s) && Booked(s)
    ensures OnceInv(DoWorkerAck(s, id))
  {
    hide OnceInv, Booked;
    var t := DoWorkerAck(s, id);
    if id in s.msgs {
      MsgIds(s);
      ViewFact(s, id);
      if t != s { QuietView(s, t, id); }
    } else {
      assert s.msgs - {id} == s.msgs;
    }
  }

  // ---- Compensator ----

  /** A compensator call moved and nothing else did. */
  lemma CallMoves(s: State, p: nat, pc: CompPc)
    requires OnceInv(s) && AtComp(s, p) && ClaimOk(s.ledger, s.redis.guards, s.procs[p].(cpc := pc))
    ensures OnceInv(GotoComp(s, p, pc))
  {
    hide OnceInv, ViewOk, ClaimOk;
    AllClaims(s);
    var t := GotoComp(s, p, pc);
    Parts(s);
    assert forall j :: j in t.ledger ==> ViewOf(t, j) == ViewOf(s, j);
    if i :| i in s.ledger {
      ViewFact(s, i);
      OneView(s, t, i, p);
    } else {
      OneView(s, t, 0, p);
    }
  }

  lemma CallRests(s: State, p: nat)
    requires OnceInv(s) && AtComp(s, p)
    ensures forall ok :: OnceInv(GotoComp(s, p, CDone(ok)))
  {
    hide OnceInv;
    forall ok ensures OnceInv(GotoComp(s, p, CDone(ok))) { CallMoves(s, p, CDone(ok)); }
  }

  /** The order a compensator call works on has an entry, and its row is the one the entry stands for. */
  lemma CallFact(s: State, p: nat)
    requires Booked(s) && PgInv(s) && AtComp(s, p)
    ensures var i := s.procs[p].ev.order; i in s.db.orders && i in s.ledger && s.procs[p].ev == EventOf(s.db.orders[i])
    ensures CompOk(s.db, s.log, s.procs[p].ev, s.procs[p].src, s.procs[p].cpc) && DbInv(s.db, s.next)
  {
    hide Booked, PgInv;
    ProcFact(s, p);
    RowFit(s, s.procs[p].ev.order);
  }

  lemma CompensatedView(s: State, i: Uuid)
    requires OnceInv(s) && i in s.ledger && DbInv(s.db, s.next) && i in s.db.orders && IsFailure(s.db.orders[i].status)
    requires s.db.orders[i].tt in s.db.avail
    ensures var t := s.(db := Compensating(s.db, i)); ViewOk(ViewOf(t, i)) && OthersSame(s, t, i) && s.ledger[i].saga == 0
  {
    hide OnceInv, DbInv;
    RowFacts(s.db, s.next, i);
    ViewFact(s, i);
  }

  lemma CompensatedOnce(s: State, p: nat, pc: CompPc)
    requires OnceInv(s) && Booked(s) && PgInv(s) && AtComp(s, p) && !pc.CMark?
    requires CompensateTx(s.db, s.procs[p].ev, s.procs[p].ev.tt).error == Ok
    ensures OnceInv(GotoComp(s.(db := CompensateTx(s.db, s.procs[p].ev, s.procs[p].ev.tt).db), p, pc))
  {
    hide OnceInv, Booked, PgInv, DbInv, CompensateTx, ViewOk, ViewOf, OthersSame, Compensating, CompOk;
    var e := s.procs[p].ev;
    CallFact(s, p);
    CompensateTxKeeps(s.db, s.next, e);
    CompensatedView(s, e.order);
    QuietView(s, s.(db := Compensating(s.db, e.order)), e.order);
    CallMoves(s.(db := Compensating(s.db, e.order)), p, pc);
  }

  lemma CompWriteOnce(s: State, p: nat, f: Fault)
    requires OnceInv(s) && Booked(s) && PgInv(s)
    ensures OnceInv(DoCompWrite(s, p, f))
  {
    hide OnceInv, Booked, PgInv, DbInv, CompensateTx, GotoComp;
    if AtComp(s, p) && s.procs[p].cpc.CWrite? {
      CallFact(s, p);
      CallRests(s, p);
      if CompensateTx(s.db, s.procs[p].ev, s.procs[p].ev.tt).error == Ok {
        CompensatedOnce(s, p, CDone(false));
        CompensatedOnce(s, p, CDone(true));
        CompensatedOnce(s, p, CRevert(s.procs[p].cpc.tt, true));
      }
    }
  }

  lemma CheckedClaim(s: State, p: nat, f: Fault)
    requires OnceInv(s) && AtComp(s, p) && s.procs[p].ev.order in s.ledger && Legal(s, CompCheck(p, f))
    requires !(f.Clean? && WasRedisReverted(s.db, s.procs[p].ev.order))
    ensures ClaimOk(s.ledger, s.redis.guards, s.procs[p].(cpc := CRevert(s.procs[p].cpc.tt, false)))
    requires s.procs[p].cpc.CCheck?
  {
    hide OnceInv;
    ViewFact(s, s.procs[p].ev.order);
  }

  lemma CompCheckOnce(s: State, p: nat, f: Fault)
    requires OnceInv(s) && Booked(s) && PgInv(s) && Legal(s, CompCheck(p, f))
    ensures OnceInv(DoCompCheck(s, p, f))
  {
    hide OnceInv, Booked, PgInv, GotoComp, ClaimOk, WasRedisReverted, Legal;
    if AtComp(s, p) && s.procs[p].cpc.CCheck? {
      CallFact(s, p);
      CallRests(s, p);
      if !(f.Clean? && WasRedisReverted(s.db, s.procs[p].ev.order)) {
        CheckedClaim(s, p, f);
        CallMoves(s, p, CRevert(s.procs[p].cpc.tt, false));
      }
    }
  }

  /** The revert as a step of its own: the first one counts, any later one finds the key. */
  lemma RevertStep(s: State, t: State, p: nat)
    requires OnceInv(s) && AtComp(s, p) && s.procs[p].cpc.CRevert? && s.procs[p].ev.order in s.ledger
    requires s.procs[p].ev.order in s.db.orders && s.db.orders[s.procs[p].ev.order].status == Compensated
    requires OrderKey(s.procs[p].ev.order) !in s.redis.guards && t == s.(ledger := t.ledger, redis := t.redis, procs := t.procs)
    requires t.redis.guards == s.redis.guards + {OrderKey(s.procs[p].ev.order)}
    requires var i := s.procs[p].ev.order; t.ledger == s.ledger[i := s.ledger[i].(saga := s.ledger[i].saga + 1)]
    requires p in t.procs && t.procs == s.procs[p := t.procs[p]] && t.procs[p].Comp? && t.procs[p].ev == s.procs[p].ev && !t.procs[p].cpc.CRevert?
    ensures OnceInv(t) && s.ledger[s.procs[p].ev.order].saga == 0
  {
    hide OnceInv, KeysKnown, OthersSame;
    var i := s.procs[p].ev.order;
    Parts(s);
    ClaimFact(s, p);
    ViewFact(s, i);
    KeysGrow(s, i, t.ledger[i], OrderKey(i));
    OthersAfter(s, t, i, OrderKey(i));
    NobodyHolds(s, i);
    ClaimsStable(s, t.ledger, t.redis.guards, p, i);
    OneView(s, t, i, p);
  }

  lemma KeyedClaim(s: State, p: nat)
    requires OnceInv(s) && AtComp(s, p) && s.procs[p].ev.order in s.ledger && OrderKey(s.procs[p].ev.order) in s.redis.guards
    ensures forall first :: ClaimOk(s.ledger, s.redis.guards, s.procs[p].(cpc := CMark(first)))
  {
    hide OnceInv;
    ViewFact(s, s.procs[p].ev.order);
  }

  lemma CompRevertOnce(s: State, p: nat, f: Fault)
    requires OnceInv(s) && Booked(s) && PgInv(s)
    ensures OnceInv(DoCompRevert(s, p, f))
  {
    hide OnceInv, Booked, PgInv, ClaimOk, DbInv;
    if AtComp(s, p) && s.procs[p].cpc.CRevert? {
      CallFact(s, p);
      CallRests(s, p);
      if !f.Fails? {
        if OrderKey(s.procs[p].ev.order) in s.redis.guards {
          KeyedClaim(s, p);
          CallMoves(s, p, CMark(s.procs[p].cpc.first));
        } else {
          RevertStep(s, DoCompRevert(s, p, f), p);
        }
      }
    }
  }

  lemma MarkedView(s: State, p: nat)
    requires OnceInv(s) && AtComp(s, p) && s.procs[p].cpc.CMark?
    ensures var i, r := s.procs[p].ev.order, MarkRedisReverted(s.db, s.procs[p].ev.order);
      && i in s.ledger && ViewOk(ViewOf(s.(db := r.db), i)) && OthersSame(s, s.(db := r.db), i)
  {
    hide OnceInv;
    ClaimFact(s, p);
    ViewFact(s, s.procs[p].ev.order);
  }

  lemma CompMarkOnce(s: State, p: nat, f: Fault)
    requires OnceInv(s)
    ensures OnceInv(DoCompMark(s, p, f))
  {
    hide OnceInv, ViewOk, ViewOf, OthersSame, MarkRedisReverted, GotoComp;
    if AtComp(s, p) && s.procs[p].cpc.CMark? {
      var r := MarkRedisReverted(s.db, s.procs[p].ev.order);
      CallRests(s, p);
      MarkedView(s, p);
      QuietView(s, s.(db := r.db), s.procs[p].ev.order);
      CallRests(s.(db := r.db), p);
    }
  }

  lemma GuardView(s: State, key: GuardKey)
    requires OnceInv(s) && key.id in s.ledger && Legal(s, GuardLost(key))
    ensures var t := DoGuardLost(s, key); ViewOk(ViewOf(t, key.id)) && OthersSame(s, t, key.id)
  {
    hide OnceInv, Reverting;
    ViewFact(s, key.id);
  }

  lemma GuardClaims(s: State, key: GuardKey)
    requires OnceInv(s) && Legal(s, GuardLost(key))
    ensures forall q :: q in s.procs ==> ClaimOk(s.ledger, s.redis.guards - {key}, s.procs[q])
    ensures KeysKnown(s.redis.guards - {key}, s.ledger)
  {
    hide ViewsOk, IntakesDiffer;
  }

  lemma GuardLostOnce(s: State, key: GuardKey)
    requires OnceInv(s) && Legal(s, GuardLost(key))
    ensures OnceInv(DoGuardLost(s, key))
  {
    hide OnceInv, Legal, ViewOk, ViewOf, OthersSame, ClaimOk, KeysKnown;
    var t := DoGuardLost(s, key);
    GuardClaims(s, key);
    AllClaims(s);
    if key.id in s.ledger {
      GuardView(s, key);
      OneView(s, t, key.id, 0);
    } else {
      UnknownKey(s, key);
      Same(s, t);
    }
  }

  lemma UnknownKey(s: State, key: GuardKey)
    requires OnceInv(s) && key.id !in s.ledger
    ensures s.redis.guards - {key} == s.redis.guards
  {
    hide ViewsOk, ClaimsOk, IntakesDiffer;
  }

  // ---- Everyone else ----

  lemma CalmViews(s: State, t: State)
    requires OnceInv(s) && CalmStep(s, t) && Advances(s, t)
    ensures ViewsOk(t)
  {
    hide KeysKnown, ClaimsOk, IntakesDiffer, NoNewClaims, SameIdentity;
    forall i | i in t.ledger ensures ViewOk(ViewOf(t, i)) {
      var v, w := ViewOf(s, i), ViewOf(t, i);
      assert ViewOk(v);
      if i in s.db.orders { assert RowExtends(s.db.orders[i], t.db.orders[i]); }
      if w.flag { assert WasRedisReverted(s.db, i); }
    }
  }

  lemma CalmOnce(s: State, t: State)
    requires OnceInv(s) && CalmStep(s, t) && Advances(s, t)
    ensures OnceInv(t)
  {
    hide ViewsOk, Advances, KeysKnown;
    CalmViews(s, t);
    forall p | p in t.procs ensures ClaimOk(t.ledger, t.redis.guards, t.procs[p]) {
      if Claims(t.procs[p]) { assert p in s.procs && t.procs[p] == s.procs[p]; }
    }
  }

  lemma IntakeOnce(s: State, a: Action)
    requires OnceInv(s) && Booked(s) && PgInv(s) && Legal(s, a) && IsIntakeAction(a) && !a.RepairMeta?
    ensures OnceInv(Next(s, a))
  {
    hide OnceInv, Booked, PgInv, Legal, DoBookStream, DoKafkaDeduct, DoKafkaPublish, DoKafkaRevert, DoWorkerTx, DoWorkerGiveUp, DoWorkerAck;
    match a {
      case BookStream(tt, q, user, until) => BookStreamOnce(s, tt, q, user, until);
      case KafkaDeduct(p, tt, q, user, until, f) => KafkaDeductOnce(s, p, tt, q, user, until, f);
      case KafkaPublish(p, f) => KafkaPublishOnce(s, p, f);
      case KafkaRevert(p, f) => KafkaRevertOnce(s, p, f);
      case WorkerTx(id, clock, f) => WorkerTxOnce(s, id, clock, f);
      case WorkerGiveUp(id, f) => WorkerGiveUpOnce(s, id, f);
      case WorkerAck(id) => WorkerAckOnce(s, id);
      case _ =>
    }
  }

  lemma NextOnce(s: State, a: Action)
    requires OnceInv(s) && Booked(s) && PgInv(s) && Legal(s, a)
    ensures OnceInv(Next(s, a))
  {
    hide OnceInv, Booked, PgInv, Steady, DoCompRevert, DoCrash, DoCompWrite, DoCompCheck, DoCompMark, DoGuardLost;
    if Calm(a) {
      NextKeeps(s, a);
      CalmSteps(s, a);
      CalmOnce(s, Next(s, a));
    } else if IsIntakeAction(a) {
      IntakeOnce(s, a);
    } else {
      match a {
        case CompWrite(p, f) => CompWriteOnce(s, p, f);
        case CompCheck(p, f) => CompCheckOnce(s, p, f);
        case CompRevert(p, f) => CompRevertOnce(s, p, f);
        case CompMark(p, f) => CompMarkOnce(s, p, f);
        case Crash(p) => CrashOnce(s, p);
        case GuardLost(key) => GuardLostOnce(s, key);
        case _ =>
      }
    }
  }

  lemma StartOnce(s: State)
    requires Start(s)
    ensures OnceInv(s)
  {
    hide OrdersOk, AllConserved, Reaches, CanMark;
  }

  /** Every legal run of any length. */
  lemma {:induction false} RunOnce(s: State, acts: seq<Action>)
    requires OnceInv(s) && Booked(s) && PgInv(s) && LegalRun(s, acts)
    ensures OnceInv(Run(s, acts)) && Booked(Run(s, acts)) && PgInv(Run(s, acts))
    decreases |acts|
  {
    hide OnceInv, Booked, PgInv, Next, Legal, Advances;
    if acts != [] {
      LegalHasNoChaos(s, acts[0]);
      NextKeeps(s, acts[0]);
      NextBooks(s, acts[0]);
      NextOnce(s, acts[0]);
      RunOnce(Next(s, acts[0]), acts[1..]);
    }
  }

  lemma LegalHasNoChaos(s: State, a: Action)
    requires Legal(s, a)
    ensures !a.Chaos?
  {}
}
