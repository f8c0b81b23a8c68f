/** The saga compensator, step by step. */
module Saga {
  import opened Domain
  import opened Options
  import opened Store
  import opened Protocol
  import opened Steps
  import opened DbSafety
  import opened PgSafety
  import opened PgSteps
  import opened Frames
  import opened Fence
  import opened Runtime

  /** The label recorded for one call. */
  datatype Outcome =
    | UnmarshalError | GetByIdError | ListTicketTypeError | IncrementTicketError | MarkCompensatedError | RecordCompletionError
    | ContextError | UowInfraError
    | AlreadyCompensated | PathCSkipped | AlreadyCompensatedRedisError | RedisRevertError
    | AlreadyCompensatedMarkFailed | CompensatedMarkFailed | CompensatedOk

  predicate IsNil(o: Outcome) { o.AlreadyCompensated? || o.PathCSkipped? || o.CompensatedOk? }

  /** The statement of the transaction that a database failure hits. */
  datatype Step = AtBegin | AtRead | AtListTypes | AtIncrement | AtMark | AtRecord | AtCommit

  /**
   * What happens around one call: whether its payload unmarshals; `gaps[k]` runs before its k-th store
   * call and `faults[k]` is how that call ends; where in the transaction a failure hits, and whether a
   * failure outside its statements is a cancelled context.
   */
  datatype Script = Script(gaps: seq<seq<Action>>, faults: seq<Fault>, unmarshals: bool, read: Step, write: Step, cancelled: bool)

  ghost predicate ValidScript(c: Script, p: nat) {
    |c.gaps| == 4 && |c.faults| == 4 && forall k :: 0 <= k < 4 ==> ForeignTo(c.gaps[k], p)
  }

  /** Nobody else runs meanwhile. */
  ghost predicate Alone(c: Script) { forall k :: 0 <= k < |c.gaps| ==> c.gaps[k] == [] }

  ghost predicate Smooth(c: Script) { Alone(c) && c.unmarshals && forall k :: 0 <= k < |c.faults| ==> c.faults[k] == Clean }

  /** The whole call, undisturbed: each step of the model in program order; those not called for change nothing. */
  function WholeCall(s: State, p: nat, f: seq<Fault>): State
    requires |f| == 4
  {
    DoCompMark(DoCompRevert(DoCompCheck(DoCompWrite(DoCompRead(s, p, f[0]), p, f[1]), p, f[1]), p, f[2]), p, f[3])
  }

  lemma Skips(s: State, p: nat, f: Fault)
    requires AtComp(s, p)
    ensures s.procs[p].cpc.CCheck? || s.procs[p].cpc.CRevert? || s.procs[p].cpc.CDone? ==> DoCompWrite(s, p, f) == s
    ensures s.procs[p].cpc.CRevert? || s.procs[p].cpc.CDone? ==> DoCompCheck(s, p, f) == s
    ensures s.procs[p].cpc.CDone? ==> DoCompRevert(s, p, f) == s && DoCompMark(s, p, f) == s
  {}

  ghost predicate At(s: State, p: nat, pc: CompPc) { AtComp(s, p) && s.procs[p].cpc == pc }

  /** The error of a transaction that is not a statement's. */
  function InfraLabel(cancelled: bool): Outcome { if cancelled then ContextError else UowInfraError }

  /** The statements of the write step, on a working copy, until the failing one or the first one refused. */
  method Statements(db: Db, e: OrderFailedEvent, tt: Uuid, fault: Option<Step>) returns (tx: Db, failed: Option<Outcome>)
    ensures failed.None? ==> DbResult(tx, Ok) == CompensateTx(db, e, tt)
    ensures failed.Some? ==> tx == db && !IsNil(failed.value)
    ensures fault.None? || fault.value.AtCommit? ==> (failed.None? <==> CompensateTx(db, e, tt).error == Ok)
    ensures var refused := tt != NIL && IncrementTicket(db, tt, e.quantity).error != Ok;
      failed == if (tt != NIL && fault == Some(AtIncrement)) || refused then Some(IncrementTicketError)
                else if fault == Some(AtMark) || !Compensable(db, e.order) then Some(MarkCompensatedError)
                else if fault == Some(AtRecord) then Some(RecordCompletionError)
                else None
  {
    tx, failed := db, None;
    if tt != NIL {
      var r := IncrementTicket(tx, tt, e.quantity);
      if fault == Some(AtIncrement) || r.error != Ok { return db, Some(IncrementTicketError); }
      tx := r.db;
    }
    var r := Transition(tx, e.order, Compensated);
    if fault == Some(AtMark) || r.error != Ok { return db, Some(MarkCompensatedError); }
    if fault == Some(AtRecord) { return db, Some(RecordCompletionError); }
    tx := RecordCompletion(r.db, e.order);
  }

  /** The label with which the write step ends an undisturbed call about an order that is not compensated, if it does. */
  ghost function WriteLabel(db: Db, i: Uuid, c: Script): Option<Outcome>
    requires |c.faults| == 4
  {
    var fails := c.faults[1].Fails?;
    if fails && c.write.AtIncrement? then Some(IncrementTicketError)
    else if (fails && c.write.AtMark?) || !Compensable(db, i) then Some(MarkCompensatedError)
    else if fails && c.write.AtRecord? then Some(RecordCompletionError)
    else if !c.faults[1].Clean? then Some(InfraLabel(c.cancelled))
    else None
  }

  /** The label with which the transaction or the flag ends an undisturbed call, if it does. */
  ghost function BeginLabel(db: Db, i: Uuid, c: Script): Option<Outcome>
    requires i in db.orders && |c.faults| == 4
  {
    if !c.faults[0].Clean? then Some(if c.read.AtBegin? then InfraLabel(c.cancelled) else GetByIdError)
    else if db.orders[i].status == Compensated then
      if c.faults[1].Clean? && i in db.comps && db.comps[i] then Some(AlreadyCompensated) else None
    else WriteLabel(db, i, c)
  }

  /** The label of an undisturbed call, from the tables and from how its calls end. */
  ghost function CallLabel(db: Db, i: Uuid, c: Script): Outcome
    requires i in db.orders && |c.faults| == 4
  {
    var begin, again := BeginLabel(db, i, c), db.orders[i].status == Compensated;
    if !c.unmarshals then UnmarshalError
    else if begin.Some? then begin.value
    else if !c.faults[2].Clean? then (if again then AlreadyCompensatedRedisError else RedisRevertError)
    else if !c.faults[3].Clean? then (if again then AlreadyCompensatedMarkFailed else CompensatedMarkFailed)
    else if again then AlreadyCompensated else CompensatedOk
  }

  lemma CallEnds(db: Db, i: Uuid, c: Script)
    requires i in db.orders && |c.faults| == 4
    ensures !c.unmarshals ==> CallLabel(db, i, c) == UnmarshalError
    ensures c.unmarshals ==>
              var begin := BeginLabel(db, i, c);
              CallLabel(db, i, c) == if begin.Some? then begin.value else LastLabel(db.orders[i].status == Compensated, c.faults[2], c.faults[3])
    ensures Smooth(c) ==>
              var l := CallLabel(db, i, c);
              && (l == CompensatedOk <==> Compensable(db, i)) && (l == AlreadyCompensated <==> db.orders[i].status == Compensated)
              && (IsNil(l) <==> IsTriggered(db.orders[i].status) && !Superseded(db, i))
  {}

  /** A live order's increment is not refused. */
  lemma LiveFits(s: State, p: nat)
    requires PgInv(s) && AtComp(s, p)
    ensures var e := s.procs[p].ev;
      e.order in s.db.orders && (s.db.orders[e.order].status != Compensated ==> IncrementTicket(s.db, e.tt, e.quantity).error == Ok)
  {
    hide PgInv, DbInv;
    ReadFacts(s, p);
    if s.db.orders[s.procs[p].ev.order].status != Compensated { UnitsFit(s.db, s.next, s.procs[p].ev.order); }
  }

  /** The flag row is there by the time it is to be set. */
  lemma MarkSucceeds(s: State, p: nat)
    requires PgInv(s) && AtComp(s, p) && s.procs[p].cpc.CMark?
    ensures s.procs[p].ev.order in s.db.comps
  {
    hide PgInv, DbInv;
    CompMarkedOk(s, p);
  }

  lemma ReadFacts(s: State, p: nat)
    requires PgInv(s) && AtComp(s, p)
    ensures var e := s.procs[p].ev;
      && e.order in s.db.orders && e == EventOf(s.db.orders[e.order]) && DbInv(s.db, s.next)
      && ResolveTicketType(s.db, e) == e.tt != NIL
  {
    hide PgInv;
    ProcFact(s, p);
    ResolvesToItself(s, p);
  }

  // ---- Triggers without a ticket type ----

  /** Row `k` is the only ticket type of its event. */
  predicate OnlyAt(types: seq<TypeRow>, event: Uuid, k: nat) {
    k < |types| && types[k].event == event && forall j :: 0 <= j < |types| && types[j].event == event ==> j == k
  }

  predicate NoneOf(types: seq<TypeRow>, event: Uuid) { forall j :: 0 <= j < |types| ==> types[j].event != event }

  lemma {:induction false} ListsOne(types: seq<TypeRow>, event: Uuid)
    ensures ListByEvent(types, event) == [] <==> NoneOf(types, event)
    ensures |ListByEvent(types, event)| == 1 <==> exists k: nat :: OnlyAt(types, event, k)
    ensures forall k: nat :: OnlyAt(types, event, k) ==> ListByEvent(types, event) == [types[k].id]
  {
    if types != [] {
      ListsOne(types[1..], event);
      forall j | 0 <= j < |types| - 1 ensures types[1..][j] == types[j + 1] {}
      forall k: nat | OnlyAt(types, event, k) ensures ListByEvent(types, event) == [types[k].id] {
        if k == 0 { assert NoneOf(types[1..], event); } else { assert OnlyAt(types[1..], event, k - 1); }
      }
      if |ListByEvent(types, event)| == 1 {
        if types[0].event == event {
          assert OnlyAt(types, event, 0);
        } else {
          var k: nat :| OnlyAt(types[1..], event, k);
          assert OnlyAt(types, event, k + 1);
        }
      }
    }
  }

  /** A trigger's own ticket type; for a legacy trigger without one, the only one of its event, and none if there is not exactly one. */
  lemma ResolvesExactly(db: Db, e: OrderFailedEvent)
    ensures e.tt != NIL ==> ResolveTicketType(db, e) == e.tt
    ensures e.tt == NIL ==> forall k: nat :: OnlyAt(db.types, e.event, k) ==> ResolveTicketType(db, e) == db.types[k].id
    ensures e.tt == NIL && (forall k: nat :: !OnlyAt(db.types, e.event, k)) ==> ResolveTicketType(db, e) == NIL
  {
    ListsOne(db.types, e.event);
  }

  class Compensator {
    const w: World
    /** Every label recorded, in order. */
    var recorded: seq<Outcome>
    /** How often the loop duration was observed. */
    var observed: nat

    constructor (w: World)
      ensures this.w == w && recorded == [] && observed == 0
    {
      this.w, recorded, observed := w, [], 0;
    }

    method Record(o: Outcome)
      modifies `recorded
      ensures recorded == old(recorded) + [o]
    {
      recorded := recorded + [o];
    }

    /** The read step and what it decides; `stop` is the label of a call that ends here. */
    method ReadOrder(p: nat, c: Script) returns (stop: Option<Outcome>, wasAlreadyCompensated: bool, tt: Uuid)
      requires At(w.st, p, CRead) && |c.faults| == 4
      modifies w, `recorded
      ensures w.st == DoCompRead(old(w.st), p, c.faults[0])
      ensures recorded == old(recorded) + if stop.Some? then [stop.value] else []
      ensures stop.Some? ==> stop.value in {GetByIdError, ListTicketTypeError, ContextError, UowInfraError} && At(w.st, p, CDone(false))
      ensures stop.None? ==> At(w.st, p, if !wasAlreadyCompensated then CWrite(tt) else if tt == NIL then CDone(true) else CCheck(tt))
      ensures var s, i := old(w.st), old(w.st.procs[p].ev.order);
        && (stop.None? <==> c.faults[0].Clean? && i in s.db.orders)
        && (i in s.db.orders && !c.faults[0].Clean? && s.procs[p].ev.tt != NIL ==>
              stop == Some(if c.read.AtBegin? then InfraLabel(c.cancelled) else GetByIdError))
        && (stop.None? ==> (wasAlreadyCompensated <==> s.db.orders[i].status == Compensated) && tt == ResolveTicketType(s.db, s.procs[p].ev))
      ensures w.st.procs[p] == old(w.st.procs[p]).(cpc := w.st.procs[p].cpc) && w.st.db == old(w.st.db)
    {
      hide ResolveTicketType;
      var e, clean := w.st.procs[p].ev, c.faults[0].Clean?;
      stop, wasAlreadyCompensated, tt := None, false, e.tt;
      if !clean && c.read.AtBegin? {
        stop := Some(InfraLabel(c.cancelled));
      } else if e.order !in w.st.db.orders || (!clean && !(c.read.AtListTypes? && e.tt == NIL)) {
        stop := Some(GetByIdError);
      } else if !clean {
        stop := Some(ListTicketTypeError);
      }
      if stop.Some? {
        Record(stop.value);
        w.st := GotoComp(w.st, p, CDone(false));
        return;
      }
      var order := w.st.db.orders[e.order];
      tt := ResolveTicketType(w.st.db, e);
      if order.status == Compensated {
        wasAlreadyCompensated := true;
        w.st := GotoComp(w.st, p, if tt == NIL then CDone(true) else CCheck(tt));
      } else {
        w.st := GotoComp(w.st, p, CWrite(tt));
      }
    }

    /** Increment, mark and completion row in one transaction. */
    method WriteCompensation(p: nat, tt: Uuid, c: Script) returns (stop: Option<Outcome>)
      requires At(w.st, p, CWrite(tt)) && |c.faults| == 4
      modifies w, `recorded
      ensures w.st == DoCompWrite(old(w.st), p, c.faults[1])
      ensures recorded == old(recorded) + if stop.Some? then [stop.value] else []
      ensures stop.Some? ==> stop.value in {IncrementTicketError, MarkCompensatedError, RecordCompletionError, ContextError, UowInfraError}
      ensures At(w.st, p, if stop.Some? then CDone(false) else if tt == NIL then CDone(true) else CRevert(tt, true))
      ensures w.st.procs[p] == old(w.st.procs[p]).(cpc := w.st.procs[p].cpc)
      ensures c.faults[1].Clean? ==> (stop.None? <==> CompensateTx(old(w.st.db), old(w.st.procs[p].ev), tt).error == Ok)
      ensures tt != NIL && IncrementTicket(old(w.st.db), tt, old(w.st.procs[p].ev.quantity)).error == Ok ==>
                stop == WriteLabel(old(w.st.db), old(w.st.procs[p].ev.order), c)
    {
      hide CompensateTx, Compensable, IncrementTicket;
      var f := c.faults[1];
      var tx;
      tx, stop := Statements(w.st.db, w.st.procs[p].ev, tt, if f.Fails? then Some(c.write) else None);
      if stop.None? && !f.Fails? { w.st := w.st.(db := tx); }
      if stop.None? && !f.Clean? { stop := Some(InfraLabel(c.cancelled)); }
      if stop.Some? { Record(stop.value); }
      w.st := GotoComp(w.st, p, if stop.Some? then CDone(false) else if tt == NIL then CDone(true) else CRevert(tt, true));
    }

    /** Before the revert on a redelivery: has Redis been reverted already? A failed read answers no. */
    method CheckReverted(p: nat, tt: Uuid, f: Fault) returns (stop: Option<Outcome>)
      requires At(w.st, p, CCheck(tt))
      modifies w, `recorded
      ensures w.st == DoCompCheck(old(w.st), p, f)
      ensures recorded == old(recorded) + if stop.Some? then [stop.value] else []
      ensures stop == if f.Clean? && WasRedisReverted(old(w.st.db), old(w.st.procs[p].ev.order)) then Some(AlreadyCompensated) else None
      ensures At(w.st, p, if stop.Some? then CDone(true) else CRevert(tt, false))
      ensures w.st.procs[p] == old(w.st.procs[p]).(cpc := w.st.procs[p].cpc)
    {
      stop := None;
      if f.Clean? && WasRedisReverted(w.st.db, w.st.procs[p].ev.order) {
        stop := Some(AlreadyCompensated);
        Record(AlreadyCompensated);
      }
      w.st := GotoComp(w.st, p, if stop.Some? then CDone(true) else CRevert(tt, false));
    }

    /** RevertInventory: the script adds the units back unless its key is there. */
    method RevertRedis(p: nat, tt: Uuid, first: bool, f: Fault) returns (ok: bool)
      requires At(w.st, p, CRevert(tt, first))
      modifies w
      ensures w.st == DoCompRevert(old(w.st), p, f)
      ensures ok <==> f.Clean?
      ensures At(w.st, p, if ok then CMark(first) else CDone(false))
      ensures w.st.procs[p] == old(w.st.procs[p]).(cpc := w.st.procs[p].cpc)
    {
      var e := w.st.procs[p].ev;
      var key := OrderKey(e.order);
      if !f.Fails? {
        if key !in w.st.redis.guards && e.order in w.st.ledger {
          w.st := w.st.(ledger := w.st.ledger[e.order := w.st.ledger[e.order].(saga := w.st.ledger[e.order].saga + 1)]);
        }
        w.st := w.st.(redis := Revert(w.st.redis, tt, e.quantity, key));
      }
      ok := f.Clean?;
      w.st := GotoComp(w.st, p, if ok then CMark(first) else CDone(false));
    }

    method MarkReverted(p: nat, first: bool, f: Fault) returns (ok: bool)
      requires At(w.st, p, CMark(first))
      modifies w
      ensures w.st == DoCompMark(old(w.st), p, f)
      ensures At(w.st, p, CDone(ok))
      ensures w.st.procs[p] == old(w.st.procs[p]).(cpc := w.st.procs[p].cpc)
      ensures ok <==> f.Clean? && old(w.st.procs[p].ev.order) in old(w.st.db.comps)
    {
      var r := MarkRedisReverted(w.st.db, w.st.procs[p].ev.order);
      ok := f.Clean? && r.error == Ok;
      if !f.Fails? && r.error == Ok { w.st := w.st.(db := r.db); }
      w.st := GotoComp(w.st, p, CDone(ok));
    }

    /** The second half of a call: revert Redis, then record it or have the message delivered again. */
    method FinishCall(p: nat, tt: Uuid, wasAlreadyCompensated: bool, c: Script) returns (ok: bool, ghost trace: seq<Action>)
      requires PgInv(w.st) && At(w.st, p, CRevert(tt, !wasAlreadyCompensated)) && ValidScript(c, p)
      modifies w, this
      ensures w.st == Run(old(w.st), trace) && PgInv(w.st) && At(w.st, p, CDone(ok)) && Advances(old(w.st), w.st)
      ensures w.st.procs[p] == old(w.st.procs[p]).(cpc := w.st.procs[p].cpc)
      ensures recorded == old(recorded) + [LastLabel(wasAlreadyCompensated, c.faults[2], c.faults[3])]
      ensures var l := recorded[|old(recorded)|]; (ok <==> IsNil(l)) && (l == CompensatedOk <==> ok && !wasAlreadyCompensated) && l != UnmarshalError
      ensures ok <==> c.faults[2].Clean? && c.faults[3].Clean?
      ensures observed == old(observed) + (if ok && !wasAlreadyCompensated then 1 else 0)
      ensures Alone(c) ==> w.st == DoCompMark(DoCompRevert(old(w.st), p, c.faults[2]), p, c.faults[3])
    {
      hide PgInv, Advances, Run, Next, DoCompRevert, DoCompMark, DbInv, OwnerOf;
      ghost var s0 := w.st;
      AdvancesReflexive(s0);
      RunEmpty(s0);
      w.Others(c.gaps[2]);
      Waited(s0, s0, [], c.gaps[2], p);
      trace := [] + c.gaps[2];
      ghost var s1 := w.st;
      ok := RevertRedis(p, tt, !wasAlreadyCompensated, c.faults[2]);
      LastActions(s1, p, c.faults[2]);
      Stepped(s0, s1, trace, CompRevert(p, c.faults[2]));
      trace := trace + [CompRevert(p, c.faults[2])];
      ghost var s2 := w.st;
      Skips(s2, p, c.faults[3]);
      if !ok {
        Record(if wasAlreadyCompensated then AlreadyCompensatedRedisError else RedisRevertError);
        return;
      }
      RunEmpty(s2);
      w.Others(c.gaps[3]);
      Waited(s0, s2, trace, c.gaps[3], p);
      trace := trace + c.gaps[3];
      ghost var s3 := w.st;
      MarkSucceeds(s3, p);
      ok := MarkReverted(p, !wasAlreadyCompensated, c.faults[3]);
      LastActions(s3, p, c.faults[3]);
      Stepped(s0, s3, trace, CompMark(p, c.faults[3]));
      trace := trace + [CompMark(p, c.faults[3])];
      if !ok {
        Record(if wasAlreadyCompensated then AlreadyCompensatedMarkFailed else CompensatedMarkFailed);
        return;
      }
      if wasAlreadyCompensated {
        Record(AlreadyCompensated);
      } else {
        observed := observed + 1;
        Record(CompensatedOk);
      }
    }

    /** After the read: write the compensation, or on a redelivery ask whether Redis is done. */
    method WriteOrCheck(p: nat, tt: Uuid, wasAlreadyCompensated: bool, c: Script) returns (stop: Option<Outcome>, ghost trace: seq<Action>)
      requires PgInv(w.st) && At(w.st, p, if wasAlreadyCompensated then CCheck(tt) else CWrite(tt)) && ValidScript(c, p)
      requires tt == w.st.procs[p].ev.tt != NIL
      modifies w, `recorded
      ensures w.st == Run(old(w.st), trace) && PgInv(w.st) && Advances(old(w.st), w.st)
      ensures recorded == old(recorded) + if stop.Some? then [stop.value] else []
      ensures At(w.st, p, if stop.Some? then CDone(wasAlreadyCompensated) else CRevert(tt, !wasAlreadyCompensated))
      ensures w.st.procs[p] == old(w.st.procs[p]).(cpc := w.st.procs[p].cpc)
      ensures stop.Some? ==> if wasAlreadyCompensated then stop.value == AlreadyCompensated else !IsNil(stop.value) && stop.value != UnmarshalError
      ensures var i := old(w.st.procs[p].ev.order);
        Alone(c) ==>
          && i in old(w.st.db.orders)
          && (!wasAlreadyCompensated && old(w.st.db.orders[i].status) != Compensated ==> stop == WriteLabel(old(w.st.db), i, c))
          && (wasAlreadyCompensated ==> (stop == Some(AlreadyCompensated) <==> c.faults[1].Clean? && WasRedisReverted(old(w.st.db), i)))
      ensures Alone(c) ==> w.st == DoCompCheck(DoCompWrite(old(w.st), p, c.faults[1]), p, c.faults[1])
    {
      hide PgInv, Advances, Run, Next, DoCompWrite, DoCompCheck, CompensateTx, IncrementTicket, WriteLabel, Compensable, InfraLabel, DbInv, OwnerOf, WasRedisReverted;
      ghost var s0 := w.st;
      AdvancesReflexive(s0);
      RunEmpty(s0);
      w.Others(c.gaps[1]);
      Waited(s0, s0, [], c.gaps[1], p);
      trace := [] + c.gaps[1];
      ghost var s1 := w.st;
      Skips(s1, p, c.faults[1]);
      LiveFits(s1, p);
      if !wasAlreadyCompensated {
        stop := WriteCompensation(p, tt, c);
        FirstActions(s1, p, c.faults[1], 0);
        Stepped(s0, s1, trace, CompWrite(p, c.faults[1]));
        trace := trace + [CompWrite(p, c.faults[1])];
        Skips(w.st, p, c.faults[1]);
      } else {
        stop := CheckReverted(p, tt, c.faults[1]);
        LastActions(s1, p, c.faults[1]);
        Stepped(s0, s1, trace, CompCheck(p, c.faults[1]));
        trace := trace + [CompCheck(p, c.faults[1])];
      }
    }

    /** The first half: the transaction, and on a redelivery the question whether Redis is done. */
    method BeginCall(p: nat, c: Script)
      returns (stop: Option<Outcome>, wasAlreadyCompensated: bool, tt: Uuid, ghost trace: seq<Action>)
      requires PgInv(w.st) && At(w.st, p, CRead) && ValidScript(c, p)
      modifies w, `recorded
      ensures w.st == Run(old(w.st), trace) && PgInv(w.st) && Advances(old(w.st), w.st)
      ensures recorded == old(recorded) + if stop.Some? then [stop.value] else []
      ensures At(w.st, p, if stop.Some? then CDone(IsNil(stop.value)) else CRevert(tt, !wasAlreadyCompensated))
      ensures w.st.procs[p] == old(w.st.procs[p]).(cpc := w.st.procs[p].cpc)
      ensures stop.Some? ==> (IsNil(stop.value) <==> stop.value == AlreadyCompensated) && stop.value != UnmarshalError
      ensures var i := old(w.st.procs[p].ev.order);
        Alone(c) ==>
          && i in old(w.st.db.orders) && stop == BeginLabel(old(w.st.db), i, c)
          && (stop.None? ==> (wasAlreadyCompensated <==> old(w.st.db.orders[i].status) == Compensated))
      ensures Alone(c) ==> w.st == DoCompCheck(DoCompWrite(DoCompRead(old(w.st), p, c.faults[0]), p, c.faults[1]), p, c.faults[1])
    {
      hide PgInv, Advances, Run, Next, DoCompRead, DoCompWrite, DoCompCheck, DbInv, OwnerOf, ResolveTicketType, InfraLabel;
      ghost var s0 := w.st;
      AdvancesReflexive(s0);
      RunEmpty(s0);
      w.Others(c.gaps[0]);
      Waited(s0, s0, [], c.gaps[0], p);
      trace := [] + c.gaps[0];
      ghost var s1 := w.st;
      ReadFacts(s1, p);
      stop, wasAlreadyCompensated, tt := ReadOrder(p, c);
      FirstActions(s1, p, c.faults[0], 0);
      Stepped(s0, s1, trace, CompRead(p, c.faults[0]));
      trace := trace + [CompRead(p, c.faults[0])];
      Skips(w.st, p, c.faults[1]);
      if stop.None? {
        ghost var s2 := w.st;
        ghost var rest;
        stop, rest := WriteOrCheck(p, tt, wasAlreadyCompensated, c);
        RunConcat(s0, trace, rest);
        AdvancesTransitive(s0, s2, w.st);
        trace := trace + rest;
      }
    }

    /** A payload that does not unmarshal ends the call before any store is asked. */
    method GiveUp(p: nat) returns (ghost trace: seq<Action>)
      requires PgInv(w.st) && At(w.st, p, CRead)
      modifies w, `recorded
      ensures w.st == Run(old(w.st), trace) && PgInv(w.st) && w.st == GotoComp(old(w.st), p, CDone(false))
      ensures recorded == old(recorded) + [UnmarshalError]
    {
      hide PgInv, Advances, Run, Next;
      ghost var s := w.st;
      Record(UnmarshalError);
      w.st := GotoComp(w.st, p, CDone(false));
      trace := [CompRead(p, Fails)];
      FirstActions(s, p, Fails, 0);
      NextKeeps(s, trace[0]);
      RunOne(s, trace[0]);
    }

    /**
     * HandleOrderFailed on a delivered trigger. Interleaved with anything and failing anywhere, the
     * call is a run of the model; exactly one label is recorded, and nil is returned exactly with a
     * label that says so; nil means the order is settled; left alone the call returns nil exactly for an
     * order that has failed without being superseded or is compensated, and the label tells which; the duration is observed
     * exactly for a full compensation.
     */
    method HandleOrderFailed(p: nat, c: Script) returns (ok: bool, ghost trace: seq<Action>)
      requires PgInv(w.st) && At(w.st, p, CRead) && ValidScript(c, p)
      modifies w, this
      ensures w.st == Run(old(w.st), trace) && PgInv(w.st) && At(w.st, p, CDone(ok))
      ensures w.st.procs[p] == old(w.st.procs[p]).(cpc := CDone(ok))
      ensures |recorded| == |old(recorded)| + 1 && recorded[..|old(recorded)|] == old(recorded)
      ensures ok ==> Settled(w.st.db, old(w.st.procs[p].ev.order))
      ensures var last := recorded[|old(recorded)|];
        && (ok <==> IsNil(last)) && (last == UnmarshalError <==> !c.unmarshals)
        && observed == old(observed) + (if last == CompensatedOk then 1 else 0)
      ensures var i, last := old(w.st.procs[p].ev.order), recorded[|old(recorded)|];
        Alone(c) ==> i in old(w.st.db.orders) && last == CallLabel(old(w.st.db), i, c)
      ensures var i, last := old(w.st.procs[p].ev.order), recorded[|old(recorded)|];
        Smooth(c) ==>
          && i in old(w.st.db.orders)
          && (last == CompensatedOk <==> Compensable(old(w.st.db), i))
          && (last == AlreadyCompensated <==> old(w.st.db.orders[i].status) == Compensated)
          && (ok <==> IsTriggered(old(w.st.db.orders[i].status)) && !Superseded(old(w.st.db), i))
      ensures Alone(c) && c.unmarshals ==> w.st == WholeCall(old(w.st), p, c.faults)
    {
      hide PgInv, Advances, Run, Next, Settled, OwnerOf, DoCompRead, DoCompWrite, DoCompCheck, DoCompRevert, DoCompMark, DbInv, ResolveTicketType, CallLabel,
           BeginLabel, LastLabel, Superseded, Compensable;
      ReadFacts(w.st, p);
      CallEnds(w.st.db, w.st.procs[p].ev.order, c);
      if !c.unmarshals {
        trace := GiveUp(p);
        return false, trace;
      }
      var stop, wasAlreadyCompensated, tt;
      stop, wasAlreadyCompensated, tt, trace := BeginCall(p, c);
      Skips(w.st, p, c.faults[2]);
      Skips(w.st, p, c.faults[3]);
      if stop.Some? {
        ok := IsNil(stop.value);
        if ok { DoneSettles(w.st, p); }
        return;
      }
      ghost var rest;
      ok, rest := FinishCall(p, tt, wasAlreadyCompensated, c);
      RunConcat(old(w.st), trace, rest);
      trace := trace + rest;
      if ok { DoneSettles(w.st, p); }
    }
  }

  /** How the second half of a call is labelled. */
  function LastLabel(wasAlreadyCompensated: bool, revert: Fault, mark: Fault): Outcome {
    if !revert.Clean? then (if wasAlreadyCompensated then AlreadyCompensatedRedisError else RedisRevertError)
    else if !mark.Clean? then (if wasAlreadyCompensated then AlreadyCompensatedMarkFailed else CompensatedMarkFailed)
    else if wasAlreadyCompensated then AlreadyCompensated else CompensatedOk
  }
}
