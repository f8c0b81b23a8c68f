/** Every action but `Chaos` keeps the books, and so does every run. */
module LedgerSteps {
  import opened Domain
  import opened Options
  import opened Store
  import opened Protocol
  import opened DbSafety
  import opened PgSafety
  import opened PgSteps
  import opened Guarantees
  import opened Ledger

  // ---- The steps that leave the books alone ----

  ghost predicate NoNewRows(a: Db, b: Db) { (forall i :: i in b.orders ==> i in a.orders) && b.total == a.total }

  ghost predicate NoNewFlags(a: Db, b: Db) { forall i :: WasRedisReverted(b, i) ==> WasRedisReverted(a, i) }

  ghost predicate Plain(a: Db, b: Db) { NoNewRows(a, b) && NoNewFlags(a, b) }

  /** No new row, no new flag, and no ticket taken or returned. */
  ghost predicate Steady(a: Db, b: Db) { Plain(a, b) && b.avail == a.avail }

  lemma FailTxPlain(db: Db, o: Order, to: Status)
    ensures Steady(db, FailTx(db, o, to).db)
  {}

  lemma SetIntentPlain(db: Db, id: Uuid, intent: string, now: int, clock: int)
    ensures Steady(db, SetIntent(db, id, intent, now, clock).db)
  {}

  lemma PayTxPlain(db: Db, o: Order, intent: string, now: int, clock: int)
    ensures Steady(db, PayTx(db, o, intent, now, clock).db)
  {
    hide SetIntent;
    SetIntentPlain(db, o.id, intent, now, clock);
  }

  lemma ConfirmPlain(db: Db, id: Uuid)
    ensures Steady(db, Transition(db, id, Confirmed).db)
  {}

  lemma MarkProcessedPlain(db: Db, k: nat)
    ensures Steady(db, MarkProcessed(db, k))
  {}

  lemma CompensateTxPlain(db: Db, e: OrderFailedEvent, tt: Uuid)
    ensures Plain(db, CompensateTx(db, e, tt).db)
  {}

  lemma MarkRedisRevertedRows(db: Db, id: Uuid)
    ensures NoNewRows(db, MarkRedisReverted(db, id).db)
    ensures forall i :: i != id && WasRedisReverted(MarkRedisReverted(db, id).db, i) ==> WasRedisReverted(db, i)
  {}

  ghost predicate Claims(proc: Proc) { proc.Intake? || (proc.Comp? && (proc.cpc.CRevert? || proc.cpc.CMark?)) }

  /** Handlers that hold units, or are about to revert or to record a revert, were already doing so. */
  ghost predicate NoNewClaims(a: map<nat, Proc>, b: map<nat, Proc>) {
    forall p :: p in b && Claims(b[p]) ==> p in a && a[p] == b[p]
  }

  /** Only an intake step, or a crash, ends the handler that holds units. */
  ghost predicate KeepsIntakes(a: map<nat, Proc>, b: map<nat, Proc>) {
    forall p :: p in a && a[p].Intake? ==> p in b && b[p] == a[p]
  }

  ghost predicate SameBooks(s: State, t: State) {
    t.ledger == s.ledger && t.next == s.next && t.msgs == s.msgs && t.redis.qty == s.redis.qty && t.redis.guards == s.redis.guards
  }

  ghost predicate CalmStep(s: State, t: State) {
    SameBooks(s, t) && Steady(s.db, t.db) && NoNewClaims(s.procs, t.procs) && KeepsIntakes(s.procs, t.procs)
  }

  predicate Calm(a: Action) {
    a.RepairMeta? || !(IsIntakeAction(a) || a.CompWrite? || a.CompCheck? || a.CompRevert? || a.CompMark?
                       || a.Crash? || a.GuardLost? || a.Chaos?)
  }

  lemma PlainReflexive(db: Db)
    ensures Steady(db, db)
  {}

  /** A handler that holds no claim afterwards, or has left, is calm. */
  lemma CalmMove(s: State, t: State, p: nat)
    requires t.procs == s.procs || t.procs == s.procs - {p}
             || (p in t.procs && t.procs == s.procs[p := t.procs[p]] && !Claims(t.procs[p]))
    requires t.procs == s.procs || p !in s.procs || !s.procs[p].Intake?
    requires SameBooks(s, t) && Steady(s.db, t.db)
    ensures CalmStep(s, t)
  {
    hide SameBooks, Steady;
  }

  lemma HookMovesCalm(s: State, p: nat)
    requires AtHook(s, p)
    ensures forall pc :: CalmStep(s, GotoHook(s, p, pc))
    ensures forall o :: CalmStep(s, GotoLate(s, p, o))
  {
    hide Steady, CalmStep;
    PlainReflexive(s.db);
    forall pc ensures CalmStep(s, GotoHook(s, p, pc)) { CalmMove(s, GotoHook(s, p, pc), p); }
    forall o ensures CalmStep(s, GotoLate(s, p, o)) { CalmMove(s, GotoLate(s, p, o), p); }
  }

  lemma StillCalm(s: State)
    ensures CalmStep(s, s)
  {}

  lemma FeedCalm(s: State, p: nat, k: nat)
    ensures CalmStep(s, DoRelayPublish(s, k)) && CalmStep(s, DoRelayMark(s, k))
  {
    hide MarkProcessed, Steady, CalmStep;
    PlainReflexive(s.db);
    MarkProcessedPlain(s.db, k);
    CalmMove(s, DoRelayPublish(s, k), p);
    CalmMove(s, DoRelayMark(s, k), p);
  }

  lemma CallCalm(s: State, p: nat, k: nat)
    ensures CalmStep(s, DoDeliver(s, p, k)) && CalmStep(s, DoWatch(s, p, k))
  {
    hide Steady, CalmStep;
    PlainReflexive(s.db);
    CalmMove(s, DoDeliver(s, p, k), p);
    CalmMove(s, DoWatch(s, p, k), p);
  }

  lemma CompMoveCalm(s: State, p: nat, pc: CompPc)
    requires AtComp(s, p) && !pc.CRevert? && !pc.CMark?
    ensures CalmStep(s, GotoComp(s, p, pc))
  {
    hide Steady, CalmStep;
    PlainReflexive(s.db);
    CalmMove(s, GotoComp(s, p, pc), p);
  }

  lemma CompReadCalm(s: State, p: nat, f: Fault)
    ensures CalmStep(s, DoCompRead(s, p, f))
  {
    hide ResolveTicketType, CalmStep, GotoComp;
    StillCalm(s);
    if AtComp(s, p) && s.procs[p].cpc.CRead? {
      var tt := ResolveTicketType(s.db, s.procs[p].ev);
      CompMoveCalm(s, p, CDone(false));
      CompMoveCalm(s, p, CDone(true));
      CompMoveCalm(s, p, CWrite(tt));
      CompMoveCalm(s, p, CCheck(tt));
    }
  }

  lemma CompFinishCalm(s: State, p: nat)
    ensures CalmStep(s, DoCompFinish(s, p))
  {
    hide Steady, CalmStep;
    PlainReflexive(s.db);
    CalmMove(s, DoCompFinish(s, p), p);
  }

  lemma HookCalm(s: State, p: nat, hit: Option<Uuid>, clock: int, f: Fault)
    ensures CalmStep(s, DoHookResolve(s, p, hit, f)) && CalmStep(s, DoHookRead(s, p, clock, f))
    ensures CalmStep(s, DoHookBegin(s, p, f)) && CalmStep(s, DoHookRecheck(s, p, f)) && CalmStep(s, DoHookFinish(s, p))
  {
    hide Dispatch, FindsIntent, IsTerminalForWebhook, CalmStep, GotoHook, GotoLate, Steady;
    StillCalm(s);
    if AtHook(s, p) {
      HookMovesCalm(s, p);
      PlainReflexive(s.db);
      CalmMove(s, Drop(s, p), p);
    }
  }

  lemma HookStartCalm(s: State, p: nat, env: Envelope, expectLive: bool)
    ensures CalmStep(s, DoHookStart(s, p, env, expectLive))
  {
    hide Steady, CalmStep;
    PlainReflexive(s.db);
    CalmMove(s, DoHookStart(s, p, env, expectLive), p);
  }

  lemma OutcomeCalm(s: State, p: nat, r: DbResult, id: Uuid, f: Fault)
    requires AtHook(s, p) && Steady(s.db, r.db)
    ensures CalmStep(s, HookOutcome(s, p, r, id, f))
  {
    hide CalmStep, Steady;
    PlainReflexive(s.db);
    CalmMove(s, HookOutcome(s, p, r, id, f), p);
  }

  lemma HookTxCalm(s: State, p: nat, clock: int, f: Fault)
    ensures CalmStep(s, DoHookTx(s, p, clock, f))
  {
    hide PayTx, FailTx, Steady, CalmStep, HookOutcome;
    StillCalm(s);
    if AtHook(s, p) {
      HookMovesCalm(s, p);
      match s.procs[p].hpc {
        case HPay(o, began) =>
          var r := PayTx(s.db, o, s.procs[p].env.intent, began, clock);
          PayTxPlain(s.db, o, s.procs[p].env.intent, began, clock);
          OutcomeCalm(s, p, r, o.id, f);
          PaidByFree(s, HookOutcome(s, p, r, o.id, f));
        case HLate(o) =>
          FailTxPlain(s.db, o, Expired);
          OutcomeCalm(s, p, FailTx(s.db, o, Expired), o.id, f);
        case HFail(o) =>
          FailTxPlain(s.db, o, PaymentFailed);
          OutcomeCalm(s, p, FailTx(s.db, o, PaymentFailed), o.id, f);
        case _ =>
      }
    }
  }

  lemma PaidByFree(s: State, t: State)
    requires CalmStep(s, t)
    ensures forall m :: CalmStep(s, t.(paidBy := m))
  {}

  lemma JobCalm(s: State, p: nat, f: Fault)
    ensures CalmStep(s, DoJobTx(s, p, f))
  {
    hide FailTx, Steady, CalmStep;
    PlainReflexive(s.db);
    if p in s.procs && s.procs[p].Job? {
      FailTxPlain(s.db, s.procs[p].order, Expired);
      FailTxPlain(s.db, s.procs[p].order, Failed);
    }
    CalmMove(s, DoJobTx(s, p, f), p);
  }

  lemma PaySetCalm(s: State, p: nat, clock: int, f: Fault)
    ensures CalmStep(s, DoPaySet(s, p, clock, f))
  {
    hide SetIntent, Steady, CalmStep;
    PlainReflexive(s.db);
    if p in s.procs && s.procs[p].Pay? && s.procs[p].intent.Some? {
      SetIntentPlain(s.db, s.procs[p].order.id, s.procs[p].intent.value, s.now, clock);
    }
    CalmMove(s, DoPaySet(s, p, clock, f), p);
  }

  lemma OtherCalm(s: State, a: Action)
    requires Calm(a) && !IsSagaAction(a) && !IsHookAction(a) && !a.JobTx? && !a.PaySet?
    ensures CalmStep(s, Next(s, a))
  {
    hide Transition, Steady, Payable, Overdue, CalmStep, DoBookStream, DoKafkaDeduct, DoKafkaPublish, DoKafkaRevert, DoWorkerTx,
         DoWorkerGiveUp, DoWorkerAck, DoCompRead, DoCompWrite, DoCompCheck, DoCompRevert, DoCompMark, DoHookRead, DoHookTx, DoCrash;
    PlainReflexive(s.db);
    if a.Confirm? { ConfirmPlain(s.db, a.id); }
    CalmMove(s, Next(s, a), if a.JobRead? || a.PayRead? || a.PayGateway? then a.p else 0);
  }

  lemma CalmSteps(s: State, a: Action)
    requires Calm(a)
    ensures CalmStep(s, Next(s, a))
  {
    hide CalmStep, DoRelayPublish, DoRelayMark, DoDeliver, DoWatch, DoCompRead, DoCompFinish, DoHookStart, DoHookResolve,
         DoHookRead, DoHookBegin, DoHookTx, DoHookRecheck, DoHookFinish, DoJobTx, DoPaySet, DoFind, DoJobRead, DoConfirm, DoPayRead, DoPayGateway;
    match a {
      case RelayPublish(row) => FeedCalm(s, 0, row);
      case RelayMark(row) => FeedCalm(s, 0, row);
      case Deliver(p, n) => CallCalm(s, p, n);
      case Watch(p, id) => CallCalm(s, p, id);
      case CompRead(p, f) => CompReadCalm(s, p, f);
      case CompFinish(p) => CompFinishCalm(s, p);
      case HookStart(p, env, live) => HookStartCalm(s, p, env, live);
      case HookResolve(p, hit, f) => HookCalm(s, p, hit, 0, f);
      case HookRead(p, clock, f) => HookCalm(s, p, None, clock, f);
      case HookBegin(p, f) => HookCalm(s, p, None, 0, f);
      case HookTx(p, clock, f) => HookTxCalm(s, p, clock, f);
      case HookRecheck(p, f) => HookCalm(s, p, None, 0, f);
      case HookFinish(p) => HookCalm(s, p, None, 0, Clean);
      case JobTx(p, f) => JobCalm(s, p, f);
      case PaySet(p, clock, f) => PaySetCalm(s, p, clock, f);
      case _ => OtherCalm(s, a);
    }
  }

  // ---- The books ----

  /** Nothing the books speak of changed, except that rows moved on. */
  lemma BooksFrame(s: State, t: State)
    requires Booked(s) && t.ledger == s.ledger && t.next == s.next && t.msgs == s.msgs && t.redis.qty == s.redis.qty
    requires NoNewRows(s.db, t.db) && Extends(s.db, t.db)
    requires forall p :: p in t.procs && t.procs[p].Intake? ==> p in s.procs && t.procs[p] == s.procs[p]
    ensures Booked(t)
  {
    forall i | i in t.db.orders ensures Fits(t.ledger, i, t.db.orders[i].tt, t.db.orders[i].quantity) {
      assert RowExtends(s.db.orders[i], t.db.orders[i]);
    }
  }

  lemma BookStreamBooks(s: State, tt: Uuid, quantity: int, user: int, until: int)
    requires Booked(s)
    ensures Booked(DoBookStream(s, tt, quantity, user, until))
  {
    hide Booked, MsgOf, Balanced, MsgsFit, Deduct, Net;
    BookedParts(s);
    KeysIn(s.redis.qty, s.ledger, s.db.total, s.next);
    DeductMoves(s.redis, s.db.total, tt, quantity);
    var t := DoBookStream(s, tt, quantity, user, until);
    if BookingAccepted(user, tt, quantity) {
      if Deduct(s.redis, tt, quantity).error == Ok {
        NetFresh(Entry(tt, quantity, Published, 0, 0, None));
        MsgIds(s);
        NewEntryStep(s, t, Entry(tt, quantity, Published, 0, 0, None));
      } else {
        QtySame(s, t);
      }
    }
  }

  lemma MsgIds(s: State)
    requires Booked(s)
    ensures forall i :: i in s.msgs ==> s.msgs[i].id == i && Fits(s.ledger, i, s.msgs[i].tt, s.msgs[i].quantity)
    ensures forall i :: i in s.ledger ==> i < s.next && s.ledger[i].quantity > 0
    ensures MsgsFit(s.msgs, s.ledger)
  {}

  lemma KafkaDeductBooks(s: State, p: nat, tt: Uuid, quantity: int, user: int, until: int, f: Fault)
    requires Booked(s)
    ensures Booked(DoKafkaDeduct(s, p, tt, quantity, user, until, f))
  {
    hide Booked, MsgOf, Balanced, MsgsFit, Deduct, Net;
    BookedParts(s);
    KeysIn(s.redis.qty, s.ledger, s.db.total, s.next);
    DeductMoves(s.redis, s.db.total, tt, quantity);
    var t := DoKafkaDeduct(s, p, tt, quantity, user, until, f);
    if p !in s.procs && BookingAccepted(user, tt, quantity) && !f.Fails? {
      if Deduct(s.redis, tt, quantity).error == Ok {
        var e := Entry(tt, quantity, if f.Clean? then Deducted else Leaked, 0, 0, None);
        NetFresh(e);
        MsgIds(s);
        NewEntryStep(s, t, e);
      } else {
        QtySame(s, t);
      }
    }
  }

  lemma IntakeFact(s: State, p: nat)
    requires Booked(s) && p in s.procs && s.procs[p].Intake?
    ensures var m := s.procs[p].msg; Fits(s.ledger, m.id, m.tt, m.quantity) && m.id < s.next
  {}

  lemma Still(s: State)
    requires Booked(s)
    ensures forall tt :: Moved(s.redis.qty, s.redis.qty, s.db.total, tt, 0)
  {}

  lemma KafkaPublishBooks(s: State, p: nat, f: Fault)
    requires Booked(s)
    ensures Booked(DoKafkaPublish(s, p, f))
  {
    hide Booked, Balanced, Moved, Net;
    var t := DoKafkaPublish(s, p, f);
    if p in s.procs && s.procs[p].Intake? && !s.procs[p].reverting && s.procs[p].msg.id in s.ledger {
      var i := s.procs[p].msg.id;
      IntakeFact(s, p);
      MsgIds(s);
      Still(s);
      if f.Fails? { assert t.ledger == s.ledger[i := s.ledger[i]]; }
      NetEqual(s.ledger[i], t.ledger[i]);
      EntryStep(s, t, i);
    }
  }

  lemma KafkaRevertBooks(s: State, p: nat, f: Fault)
    requires Booked(s)
    ensures Booked(DoKafkaRevert(s, p, f))
  {
    hide Booked, Balanced, Moved, Net, Revert;
    var t := DoKafkaRevert(s, p, f);
    if p in s.procs && s.procs[p].Intake? && s.procs[p].reverting && s.procs[p].msg.id in s.ledger {
      var i := s.procs[p].msg.id;
      IntakeFact(s, p);
      MsgIds(s);
      Still(s);
      BookedParts(s);
      KeysIn(s.redis.qty, s.ledger, s.db.total, s.next);
      RevertMoves(s.redis, s.db.total, s.procs[p].msg.tt, s.procs[p].msg.quantity, IntakeKey(i));
      NetRevert(s.ledger[i]);
      NetSteps(s.ledger[i], t.ledger[i]);
      EntryStep(s, t, i);
    }
  }

  /** Stage and record are not part of the balance; one more revert gives the quantity back. */
  lemma NetSteps(a: Entry, b: Entry)
    requires a.quantity == b.quantity && b.saga == a.saga && (b.early == a.early || b.early == a.early + 1)
    ensures Net(a) - Net(b) == if b.early == a.early then 0 else a.quantity
  {
    NetRevert(a);
  }

  lemma WorkerGiveUpBooks(s: State, id: Uuid, f: Fault)
    requires Booked(s)
    ensures Booked(DoWorkerGiveUp(s, id, f))
  {
    hide Booked, Balanced, Moved, Net, Revert;
    var t := DoWorkerGiveUp(s, id, f);
    if id in s.msgs && !f.Fails? && EntryKey(id) !in s.redis.guards {
      MsgIds(s);
      BookedParts(s);
      KeysIn(s.redis.qty, s.ledger, s.db.total, s.next);
      RevertMoves(s.redis, s.db.total, s.msgs[id].tt, s.msgs[id].quantity, EntryKey(id));
      NetRevert(s.ledger[id]);
      EntryStep(s, t, id);
    }
  }

  lemma RowFit(s: State, i: Uuid)
    requires Booked(s) && i in s.db.orders
    ensures Fits(s.ledger, i, s.db.orders[i].tt, s.db.orders[i].quantity)
  {}

  lemma CompRevertBooks(s: State, p: nat, f: Fault)
    requires Booked(s) && PgInv(s)
    ensures Booked(DoCompRevert(s, p, f))
  {
    hide Booked, Balanced, Moved, Net, Revert, PgInv, DbInv;
    var t := DoCompRevert(s, p, f);
    if AtComp(s, p) && s.procs[p].cpc.CRevert? {
      var e := s.procs[p].ev;
      ProcFact(s, p);
      RowFit(s, e.order);
      MsgIds(s);
      Still(s);
      BookedParts(s);
      KeysIn(s.redis.qty, s.ledger, s.db.total, s.next);
      RevertMoves(s.redis, s.db.total, e.tt, e.quantity, OrderKey(e.order));
      NetRevert(s.ledger[e.order]);
      if t.ledger == s.ledger { assert t.ledger == s.ledger[e.order := s.ledger[e.order]]; }
      EntryStep(s, t, e.order);
    }
  }

  lemma CrashBooks(s: State, p: nat)
    requires Booked(s)
    ensures Booked(DoCrash(s, p))
  {
    hide Booked, Balanced, Moved, Net;
    var t := DoCrash(s, p);
    if p in s.procs {
      MsgIds(s);
      Still(s);
      if t.ledger != s.ledger {
        NetEqual(s.ledger[s.procs[p].msg.id], t.ledger[s.procs[p].msg.id]);
        EntryStep(s, t, s.procs[p].msg.id);
      } else {
        DropBooks(s, t);
      }
    }
  }

  lemma DropBooks(s: State, t: State)
    requires Booked(s) && t == s.(procs := t.procs) && forall p :: p in t.procs ==> p in s.procs && t.procs[p] == s.procs[p]
    ensures Booked(t)
  {}

  lemma WorkerAckBooks(s: State, id: Uuid)
    requires Booked(s)
    ensures Booked(DoWorkerAck(s, id))
  {}

  lemma WorkerTxBooks(s: State, id: Uuid, clock: int, f: Fault)
    requires Booked(s) && PgInv(s)
    ensures Booked(DoWorkerTx(s, id, clock, f))
  {
    hide Booked, PgInv, DbInv, BookTx;
    if id in s.msgs && s.msgs[id].id == id && !f.Fails? && Reserve(s.msgs[id], clock).Accepted? {
      var o := Reserve(s.msgs[id], clock).order;
      QueueFact(s);
      MsgIds(s);
      BookTxKeeps(s.db, s.next, o);
      if BookTx(s.db, o).error == Ok { RowAdded(s, o); }
    }
  }

  lemma RowAdded(s: State, o: Order)
    requires Booked(s) && o.tt in s.db.avail && Fits(s.ledger, o.id, o.tt, o.quantity)
    ensures Booked(s.(db := Booking(s.db, o)))
  {}

  lemma IntakeBooks(s: State, a: Action)
    requires Booked(s) && PgInv(s) && IsIntakeAction(a) && !a.RepairMeta?
    ensures Booked(Next(s, a))
  {
    hide Booked, PgInv, DoBookStream, DoKafkaDeduct, DoKafkaPublish, DoKafkaRevert, DoWorkerTx, DoWorkerGiveUp, DoWorkerAck;
    match a {
      case BookStream(tt, q, user, until) => BookStreamBooks(s, tt, q, user, until);
      case KafkaDeduct(p, tt, q, user, until, f) => KafkaDeductBooks(s, p, tt, q, user, until, f);
      case KafkaPublish(p, f) => KafkaPublishBooks(s, p, f);
      case KafkaRevert(p, f) => KafkaRevertBooks(s, p, f);
      case WorkerTx(id, clock, f) => WorkerTxBooks(s, id, clock, f);
      case WorkerGiveUp(id, f) => WorkerGiveUpBooks(s, id, f);
      case WorkerAck(id) => WorkerAckBooks(s, id);
      case _ =>
    }
  }

  ghost predicate BooksUntouched(s: State, t: State) {
    t.ledger == s.ledger && t.next == s.next && t.msgs == s.msgs && t.redis.qty == s.redis.qty && NoNewRows(s.db, t.db)
    && (forall p :: p in t.procs && t.procs[p].Intake? ==> p in s.procs && t.procs[p] == s.procs[p])
    && KeepsIntakes(s.procs, t.procs)
  }

  lemma UntouchedMove(s: State, t: State, p: nat)
    requires t == s.(db := t.db, procs := t.procs, redis := s.redis.(guards := t.redis.guards)) && NoNewRows(s.db, t.db)
    requires t.procs == s.procs || (AtComp(s, p) && p in t.procs && t.procs == s.procs[p := t.procs[p]] && t.procs[p].Comp?)
    ensures BooksUntouched(s, t)
  {
    hide NoNewRows;
  }

  lemma CompMoveBooks(s: State, p: nat, pc: CompPc, db: Db)
    requires AtComp(s, p) && NoNewRows(s.db, db)
    ensures BooksUntouched(s, GotoComp(s.(db := db), p, pc))
  {
    hide BooksUntouched, NoNewRows;
    UntouchedMove(s, GotoComp(s.(db := db), p, pc), p);
  }

  lemma GotoSame(s: State, p: nat)
    requires AtComp(s, p)
    ensures forall pc :: BooksUntouched(s, GotoComp(s, p, pc))
  {
    hide BooksUntouched, NoNewRows;
    RowsReflexive(s.db);
    forall pc ensures BooksUntouched(s, GotoComp(s, p, pc)) { UntouchedMove(s, GotoComp(s, p, pc), p); }
  }

  lemma SameUntouched(s: State)
    ensures BooksUntouched(s, s)
  {}

  lemma CompWriteBooks(s: State, p: nat, f: Fault)
    ensures BooksUntouched(s, DoCompWrite(s, p, f))
  {
    hide CompensateTx, BooksUntouched, NoNewRows, NoNewFlags, GotoComp;
    SameUntouched(s);
    if AtComp(s, p) && s.procs[p].cpc.CWrite? {
      var tt := s.procs[p].cpc.tt;
      var r := CompensateTx(s.db, s.procs[p].ev, tt);
      CompensateTxPlain(s.db, s.procs[p].ev, tt);
      GotoSame(s, p);
      CompMoveBooks(s, p, CDone(false), r.db);
      CompMoveBooks(s, p, CDone(true), r.db);
      CompMoveBooks(s, p, CRevert(tt, true), r.db);
    }
  }

  lemma CompCheckBooks(s: State, p: nat, f: Fault)
    ensures BooksUntouched(s, DoCompCheck(s, p, f))
  {
    hide WasRedisReverted, BooksUntouched, GotoComp;
    SameUntouched(s);
    if AtComp(s, p) { GotoSame(s, p); }
  }

  lemma CompMarkBooks(s: State, p: nat, f: Fault)
    ensures BooksUntouched(s, DoCompMark(s, p, f))
  {
    hide MarkRedisReverted, BooksUntouched, NoNewRows, WasRedisReverted, GotoComp;
    SameUntouched(s);
    if AtComp(s, p) && s.procs[p].cpc.CMark? {
      var r := MarkRedisReverted(s.db, s.procs[p].ev.order);
      MarkRedisRevertedRows(s.db, s.procs[p].ev.order);
      GotoSame(s, p);
      CompMoveBooks(s, p, CDone(f.Clean?), r.db);
    }
  }

  lemma GuardBooks(s: State, key: GuardKey)
    ensures BooksUntouched(s, DoGuardLost(s, key))
  {
    hide BooksUntouched, NoNewRows;
    RowsReflexive(s.db);
    UntouchedMove(s, DoGuardLost(s, key), 0);
  }

  lemma RowsReflexive(db: Db)
    ensures NoNewRows(db, db)
  {}

  lemma NextBooks(s: State, a: Action)
    requires Booked(s) && PgInv(s) && !a.Chaos?
    ensures Booked(Next(s, a))
  {
    hide Booked, PgInv, NoNewRows, NoNewFlags, DoCompRevert, DoCrash, DoCompWrite, DoCompCheck, DoCompMark, DoGuardLost;
    NextKeeps(s, a);
    if Calm(a) {
      CalmSteps(s, a);
      CalmBooks(s, Next(s, a));
    } else if IsIntakeAction(a) {
      IntakeBooks(s, a);
    } else if a.CompRevert? {
      CompRevertBooks(s, a.p, a.f);
    } else if a.Crash? {
      CrashBooks(s, a.p);
    } else {
      if a.GuardLost? { GuardBooks(s, a.key); }
      else if a.CompWrite? { CompWriteBooks(s, a.p, a.f); }
      else if a.CompCheck? { CompCheckBooks(s, a.p, a.f); }
      else { CompMarkBooks(s, a.p, a.f); }
      BooksFrame(s, Next(s, a));
    }
  }

  lemma CalmBooks(s: State, t: State)
    requires Booked(s) && CalmStep(s, t) && Advances(s, t)
    ensures Booked(t)
  {
    hide Booked, Extends;
    BooksFrame(s, t);
  }

  lemma StartBalanced(s: State)
    requires Start(s)
    ensures Balanced(s.redis.qty, s.ledger, s.db.total, s.next)
  {
    hide Reaches, CanMark, OrdersOk;
    forall tt | tt in s.db.total ensures tt in s.redis.qty && s.redis.qty[tt] + Sums.Sum(s.next, NetOf(s.ledger, tt)) == s.db.total[tt] {
      assert Conserved(s.db.orders, s.db.avail[tt], s.db.total[tt], s.next, tt);
      Sums.SumEq(s.next, PgHeld(s.db.orders, tt), NetOf(s.ledger, tt));
    }
  }

  lemma StartBooked(s: State)
    requires Start(s)
    ensures Booked(s)
  {
    hide Reaches, CanMark, Balanced, AllConserved;
    StartBalanced(s);
    forall i | i in s.ledger ensures i < s.next && s.ledger[i].quantity > 0 {
      assert OrderOk(s.db.orders[i], s.db.total, s.next, i);
    }
  }

  ghost predicate NoChaos(acts: seq<Action>) { forall k :: 0 <= k < |acts| ==> !acts[k].Chaos? }

  /** The books balance after every run, with no assumption on faults, guards or acknowledgements. */
  lemma {:induction false} RunBooks(s: State, acts: seq<Action>)
    requires Booked(s) && PgInv(s) && NoChaos(acts)
    ensures Booked(Run(s, acts))
    decreases |acts|
  {
    hide Booked, PgInv, Next, Advances;
    if acts != [] {
      NextKeeps(s, acts[0]);
      NextBooks(s, acts[0]);
      RunBooks(Next(s, acts[0]), acts[1..]);
    }
  }

  // ---- History only grows ----

  ghost predicate Remembers(s: State, t: State) { forall i :: i in s.ledger ==> i in t.ledger }

  lemma KafkaRemembers(s: State, p: nat, tt: Uuid, quantity: int, user: int, until: int, f: Fault)
    ensures Remembers(s, DoKafkaDeduct(s, p, tt, quantity, user, until, f)) && Remembers(s, DoKafkaPublish(s, p, f))
    ensures Remembers(s, DoKafkaRevert(s, p, f)) && Remembers(s, DoCrash(s, p)) && Remembers(s, DoCompRevert(s, p, f))
  {
    hide Deduct, MsgOf, Revert;
  }

  lemma QueueRemembers(s: State, a: Action)
    requires a.BookStream? || a.WorkerTx? || a.WorkerGiveUp? || a.WorkerAck? || a.Chaos? || a.GuardLost?
    ensures Remembers(s, Next(s, a))
  {
    hide Deduct, MsgOf, BookTx, Revert, Reserve, DoKafkaDeduct, DoKafkaPublish, DoKafkaRevert, DoCompRead, DoCompWrite, DoCompCheck,
         DoCompRevert, DoCompMark, DoHookRead, DoHookTx, DoCrash, DoJobTx, DoPaySet;
  }

  lemma NextRemembers(s: State, a: Action)
    ensures Remembers(s, Next(s, a))
  {
    hide Remembers, DoKafkaDeduct, DoKafkaPublish, DoKafkaRevert, DoCompWrite, DoCompCheck, DoCompRevert, DoCompMark, DoCrash,
         DoGuardLost, DoBookStream, DoWorkerTx, DoWorkerGiveUp, DoWorkerAck, DoChaos;
    SameRemembered(s, Next(s, a));
    if Calm(a) {
      CalmSteps(s, a);
    } else {
      match a {
        case KafkaDeduct(p, tt, q, user, until, f) => KafkaRemembers(s, p, tt, q, user, until, f);
        case KafkaPublish(p, f) => KafkaRemembers(s, p, 0, 0, 0, 0, f);
        case KafkaRevert(p, f) => KafkaRemembers(s, p, 0, 0, 0, 0, f);
        case Crash(p) => KafkaRemembers(s, p, 0, 0, 0, 0, Clean);
        case CompRevert(p, f) => KafkaRemembers(s, p, 0, 0, 0, 0, f);
        case CompWrite(p, f) => CompWriteBooks(s, p, f);
        case CompCheck(p, f) => CompCheckBooks(s, p, f);
        case CompMark(p, f) => CompMarkBooks(s, p, f);
        case _ => QueueRemembers(s, a);
      }
    }
  }

  lemma SameRemembered(s: State, t: State)
    ensures t.ledger == s.ledger ==> Remembers(s, t)
  {}

  lemma {:induction false} RunRemembers(s: State, acts: seq<Action>)
    ensures Remembers(s, Run(s, acts))
    decreases |acts|
  {
    hide Next;
    if acts != [] {
      NextRemembers(s, acts[0]);
      RunRemembers(Next(s, acts[0]), acts[1..]);
    }
  }
}
