/** The two BookTicket services and the worker, step by step. */
module Booking {
  import opened Domain
  import opened Options
  import opened Store
  import opened Protocol
  import opened Steps
  import opened DbSafety
  import opened PgSafety
  import opened PgSteps
  import opened Frames
  import opened LedgerSteps
  import opened Messages
  import opened Runtime

  datatype Request = Request(user: int, tt: Uuid, quantity: int, until: int)

  datatype BookResult = Booked(order: Order) | Refused(error: Error) | PublishFailed(id: Uuid, reverted: bool)

  /** The message a request becomes: its own data, the ticket type's event and currency, and the unit price times the quantity. */
  predicate Charges(m: Msg, r: Request, meta: Meta) {
    && m.user == r.user && m.tt == r.tt && m.quantity == r.quantity && m.reservedUntil == r.until
    && m.event == meta.event && m.currency == meta.currency && m.amountCents == meta.priceCents * r.quantity
  }

  lemma MsgCharges(s: State, r: Request)
    requires r.tt in s.redis.meta
    ensures Charges(MsgOf(s, r.tt, r.quantity, r.user, r.until), r, s.redis.meta[r.tt])
  {}

  /** The metadata a booking goes by: what Redis has, or the row it is reseeded from. */
  function MetaUsed(redis: Redis, tt: Uuid, row: Option<Meta>): Option<Meta> {
    if tt in redis.meta then Some(redis.meta[tt]) else row
  }

  /** Order `o` is what was queued: under its own id, no older than `next`, its message carries the same data and the price of some metadata. */
  ghost predicate Queued(s: State, next: nat, r: Request, o: Order) {
    && o.id >= next && o.id in s.msgs && s.msgs[o.id].id == o.id && RowOf(s.msgs[o.id], o)
    && exists meta: Meta :: Charges(s.msgs[o.id], r, meta)
  }

  /** The checks that come before Redis is touched. */
  function Validate(r: Request, clock: int): Error {
    if r.user <= 0 then InvalidUserID
    else if r.tt == NIL then InvalidTicketTypeID
    else if r.quantity <= 0 then InvalidQuantity
    else if r.until <= clock then InvalidReservedUntil
    else Ok
  }

  /** A request that gets as far as Redis. */
  predicate Sound(r: Request, clock: int) { r.user > 0 && r.tt != NIL && r.quantity > 0 && r.until > clock }

  /** An error names the field that is wrong, the first of them. */
  predicate Faulty(r: Request, clock: int, e: Error) {
    match e
    case InvalidUserID => r.user <= 0
    case InvalidTicketTypeID => r.user > 0 && r.tt == NIL
    case InvalidQuantity => r.user > 0 && r.tt != NIL && r.quantity <= 0
    case InvalidReservedUntil => r.user > 0 && r.tt != NIL && r.quantity > 0 && r.until <= clock
    case _ => false
  }

  lemma ValidateIsExact(r: Request, clock: int)
    ensures if Sound(r, clock) then Validate(r, clock) == Ok else Faulty(r, clock, Validate(r, clock))
  {}

  /** What happens around one call; `row` is the ticket type's own data in Postgres, `None` when the lookup fails. */
  datatype Script = Script(gaps: seq<seq<Action>>, faults: seq<Fault>, row: Option<Meta>, metaSet: bool, clock: int)

  ghost predicate ValidScript(c: Script, p: nat) {
    |c.gaps| == 4 && |c.faults| == 4 && forall k :: 0 <= k < 4 ==> ForeignTo(c.gaps[k], p)
  }

  /** Nobody else runs meanwhile. */
  ghost predicate Alone(c: Script) { forall k :: 0 <= k < |c.gaps| ==> c.gaps[k] == [] }

  ghost predicate Smooth(c: Script) {
    Alone(c) && (forall k :: 0 <= k < |c.faults| ==> c.faults[k] == Clean)
  }

  /** How a deduction ends for its caller: the reply may be lost even if it was applied. */
  function Reply(e: Error, f: Fault): Error {
    if f.Fails? || (f.Lost? && e == Ok) then Infra else e
  }

  /** Units in the counter; a missing one has none. */
  function Counter(redis: Redis, tt: Uuid): int { if tt in redis.qty then redis.qty[tt] else 0 }

  /** The answer of a deduction that may reseed missing metadata from the row: sold out before anything else. */
  function Outcome(redis: Redis, tt: Uuid, quantity: int, row: Option<Meta>): Error {
    if Counter(redis, tt) < quantity then SoldOut
    else if tt in redis.meta || row.Some? then Ok
    else NotFound
  }

  /** Deduct, reseed on missing metadata alone, deduct again: that is the contract's answer, and the counter loses the units exactly if it is Ok. */
  lemma RepairIsEnough(redis: Redis, tt: Uuid, quantity: int, row: Option<Meta>)
    ensures var d := Deduct(redis, tt, quantity);
      && Counter(d.redis, tt) == Counter(redis, tt) - (if d.error == Ok then quantity else 0)
      && Outcome(redis, tt, quantity, row)
         == if d.error != MetadataMissing then d.error
            else if row.None? then NotFound
            else Deduct(d.redis.(meta := d.redis.meta[tt := row.value]), tt, quantity).error
  {}

  class KafkaIntake {
    const w: World
    const p: nat
    /** The arguments of RecordPublishFailure, in order. */
    var failures: seq<bool>

    constructor (w: World, p: nat)
      ensures this.w == w && this.p == p && failures == []
    {
      this.w, this.p, failures := w, p, [];
    }

    /** DeductInventoryNoStream under a fresh order id. */
    method DeductNoStream(r: Request, f: Fault) returns (error: Error)
      requires p !in w.st.procs && BookingAccepted(r.user, r.tt, r.quantity)
      modifies w
      ensures w.st == DoKafkaDeduct(old(w.st), p, r.tt, r.quantity, r.user, r.until, f)
      ensures error == Reply(Deduct(old(w.st.redis), r.tt, r.quantity).error, f)
      ensures if error == Ok then p in w.st.procs && w.st.procs[p].Intake? && !w.st.procs[p].reverting
                                  && w.st.procs[p].msg.id in w.st.ledger && w.st.procs[p].msg.tt == r.tt && w.st.procs[p].msg.quantity == r.quantity
                                  && w.st.ledger[w.st.procs[p].msg.id].recorded == None && w.st.procs[p].msg.id == old(w.st.next)
                                  && r.tt in old(w.st.redis.meta) && Charges(w.st.procs[p].msg, r, old(w.st.redis.meta[r.tt]))
              else p !in w.st.procs
      ensures f.Clean? ==> w.st.redis == Deduct(old(w.st.redis), r.tt, r.quantity).redis
      ensures w.st.msgs == old(w.st.msgs)
    {
      hide Deduct, MsgOf;
      DeductedMeta(w.st.redis, r.tt, r.quantity);
      if f.Fails? { return Infra; }
      var d := Deduct(w.st.redis, r.tt, r.quantity);
      if d.error != Ok {
        w.st := w.st.(redis := d.redis);
        return d.error;
      }
      var m := MsgOf(w.st, r.tt, r.quantity, r.user, r.until);
      MsgCharges(w.st, r);
      var stage := if f.Clean? then Deducted else Leaked;
      w.st := w.st.(redis := d.redis, next := w.st.next + 1,
                    ledger := w.st.ledger[m.id := Entry(r.tt, r.quantity, stage, 0, 0, None)]);
      if f.Lost? { return Infra; }
      w.st := Put(w.st, p, Intake(m, false));
      error := Ok;
    }

    /** deductWithMetadataRepair. */
    method DeductWithRepair(r: Request, c: Script) returns (error: Error, ghost trace: seq<Action>)
      requires PgInv(w.st) && p !in w.st.procs && BookingAccepted(r.user, r.tt, r.quantity) && ValidScript(c, p)
      modifies w
      ensures w.st == Run(old(w.st), trace) && PgInv(w.st) && Advances(old(w.st), w.st)
      ensures if error == Ok then Holding(w.st, p) && !w.st.procs[p].reverting && w.st.procs[p].msg.quantity == r.quantity && w.st.procs[p].msg.tt == r.tt
                                 && w.st.procs[p].msg.id >= old(w.st.next) && exists meta: Meta :: Charges(w.st.procs[p].msg, r, meta)
              else p !in w.st.procs
      ensures Smooth(c) && c.metaSet ==>
                && error == Outcome(old(w.st.redis), r.tt, r.quantity, c.row)
                && Counter(w.st.redis, r.tt) == Counter(old(w.st.redis), r.tt) - (if error == Ok then r.quantity else 0)
      ensures Alone(c) ==> w.st.msgs == old(w.st.msgs)
      ensures Alone(c) && error == Ok ==>
                var meta := MetaUsed(old(w.st.redis), r.tt, c.row); meta.Some? && Charges(w.st.procs[p].msg, r, meta.value)
      ensures Alone(c) && Deduct(old(w.st.redis), r.tt, r.quantity).error != MetadataMissing ==>
                w.st == DoKafkaDeduct(old(w.st), p, r.tt, r.quantity, r.user, r.until, c.faults[0])
    {
      hide PgInv, Advances, Run, Next, Deduct, DoKafkaDeduct, OwnerOf;
      ghost var s0 := w.st;
      AdvancesReflexive(s0);
      RunEmpty(s0);
      w.Others(c.gaps[0]);
      Idle(s0, s0, [], c.gaps[0], p);
      trace := [] + c.gaps[0];
      ghost var s1 := w.st;
      AdvancesForward(s0, s1);
      RepairIsEnough(s1.redis, r.tt, r.quantity, c.row);
      error := DeductNoStream(r, c.faults[0]);
      DeductStep(s1, p, r.tt, r.quantity, r.user, r.until, c.faults[0]);
      Stepped(s0, s1, trace, DeductOf(p, r, c.faults[0]));
      trace := trace + [DeductOf(p, r, c.faults[0])];
      if error != MetadataMissing { return; }
      if c.row.None? { return NotFound, trace; }
      if !c.metaSet { return Infra, trace; }
      DeductedMeta(s1.redis, r.tt, r.quantity);
      ghost var s2 := w.st;
      w.st := w.st.(redis := w.st.redis.(meta := w.st.redis.meta[r.tt := c.row.value]));
      Stepped(s0, s2, trace, RepairMeta(r.tt, c.row.value));
      RepairStep(s2, r.tt, c.row.value);
      trace := trace + [RepairMeta(r.tt, c.row.value)];
      ghost var s3 := w.st;
      RunEmpty(s3);
      w.Others(c.gaps[1]);
      Idle(s0, s3, trace, c.gaps[1], p);
      trace := trace + c.gaps[1];
      ghost var s4 := w.st;
      AdvancesForward(s0, s4);
      RepairIsEnough(s4.redis, r.tt, r.quantity, c.row);
      error := DeductNoStream(r, c.faults[1]);
      DeductStep(s4, p, r.tt, r.quantity, r.user, r.until, c.faults[1]);
      Stepped(s0, s4, trace, DeductOf(p, r, c.faults[1]));
      trace := trace + [DeductOf(p, r, c.faults[1])];
    }

    /** Publish failed: give the units back under the bare order id, and record whether that worked. */
    method TakeBack(c: Script) returns (reverted: bool, ghost trace: seq<Action>)
      requires PgInv(w.st) && Holding(w.st, p) && w.st.procs[p].reverting && ValidScript(c, p)
      modifies w, `failures
      ensures w.st == Run(old(w.st), trace) && PgInv(w.st) && Advances(old(w.st), w.st) && p !in w.st.procs
      ensures failures == old(failures) + [reverted] && reverted == c.faults[3].Clean?
      ensures var id := old(w.st.procs[p].msg.id); id in w.st.ledger && w.st.ledger[id].recorded == Some(reverted)
      ensures Alone(c) ==> w.st == DoKafkaRevert(old(w.st), p, c.faults[3])
    {
      hide PgInv, Advances, Run, Next, Revert, OwnerOf;
      ghost var s0 := w.st;
      AdvancesReflexive(s0);
      RunEmpty(s0);
      w.Others(c.gaps[3]);
      Waited(s0, s0, [], c.gaps[3], p);
      trace := [] + c.gaps[3];
      ghost var s1 := w.st;
      var f := c.faults[3];
      var m := w.st.procs[p].msg;
      reverted := f.Clean?;
      failures := failures + [reverted];
      RunRemembers(s0, c.gaps[3]);
      var e := w.st.ledger[m.id];
      if f.Fails? {
        w.st := w.st.(ledger := w.st.ledger[m.id := e.(stage := if e.stage.Deducted? then Leaked else e.stage, recorded := Some(false))]);
      } else {
        var again := IntakeKey(m.id) in w.st.redis.guards;
        w.st := w.st.(redis := Revert(w.st.redis, m.tt, m.quantity, IntakeKey(m.id)),
                      ledger := w.st.ledger[m.id := e.(stage := if e.stage.Deducted? && !again then TakenBack else e.stage,
                                                        early := if again then e.early else e.early + 1,
                                                        recorded := Some(reverted))]);
      }
      w.st := Drop(w.st, p);
      PublishSteps(s1, p, f);
      Stepped(s0, s1, trace, KafkaRevert(p, f));
      trace := trace + [KafkaRevert(p, f)];
    }

    /** PublishIntake: a lost reply is a failure to the caller although the message is stored. */
    method Publish(c: Script) returns (ok: bool, ghost trace: seq<Action>)
      requires PgInv(w.st) && Holding(w.st, p) && !w.st.procs[p].reverting && ValidScript(c, p)
      modifies w
      ensures w.st == Run(old(w.st), trace) && PgInv(w.st) && Advances(old(w.st), w.st)
      ensures ok == c.faults[2].Clean?
      ensures !ok ==> Holding(w.st, p) && w.st.procs[p].reverting && w.st.procs[p].msg == old(w.st.procs[p].msg)
      ensures ok ==> p !in w.st.procs
      ensures !c.faults[2].Fails? ==>
                var m := old(w.st.procs[p].msg); m.id in w.st.msgs && w.st.msgs[m.id] == m && m.id in w.st.ledger && w.st.ledger[m.id].stage == Published
      ensures Alone(c) ==> w.st == DoKafkaPublish(old(w.st), p, c.faults[2]) && w.st.redis == old(w.st.redis)
    {
      hide PgInv, Advances, Run, Next, OwnerOf;
      ghost var s0 := w.st;
      AdvancesReflexive(s0);
      RunEmpty(s0);
      w.Others(c.gaps[2]);
      Waited(s0, s0, [], c.gaps[2], p);
      RunRemembers(s0, c.gaps[2]);
      trace := [] + c.gaps[2];
      ghost var s1 := w.st;
      var f := c.faults[2];
      var m := w.st.procs[p].msg;
      ok := f.Clean?;
      if !f.Fails? {
        w.st := w.st.(msgs := w.st.msgs[m.id := m], ledger := w.st.ledger[m.id := w.st.ledger[m.id].(stage := Published)]);
      }
      w.st := if ok then Drop(w.st, p) else Put(w.st, p, Intake(m, true));
      PublishSteps(s1, p, f);
      Stepped(s0, s1, trace, KafkaPublish(p, f));
      trace := trace + [KafkaPublish(p, f)];
    }

    /**
     * Stage 5 BookTicket. The request is refused before Redis is touched, refused by Redis, queued under
     * the fresh id of the order answered with, or failed with the outcome of the revert recorded; left
     * alone, the answer is the contract's.
     */
    method BookTicket(r: Request, c: Script) returns (result: BookResult, ghost trace: seq<Action>)
      requires PgInv(w.st) && p !in w.st.procs && ValidScript(c, p)
      modifies w, `failures
      ensures w.st == Run(old(w.st), trace) && PgInv(w.st) && p !in w.st.procs
      ensures !Sound(r, c.clock) ==> result.Refused? && Faulty(r, c.clock, result.error) && w.st == old(w.st)
      ensures failures == if result.PublishFailed? then old(failures) + [result.reverted] else old(failures)
      ensures result.PublishFailed? ==>
                && (result.reverted <==> c.faults[3].Clean?) && !c.faults[2].Clean?
                && result.id >= old(w.st.next) && result.id in w.st.ledger && w.st.ledger[result.id].recorded == Some(result.reverted)
      ensures result.Booked? ==>
                Queued(w.st, old(w.st.next), r, result.order) && result.order.id in w.st.ledger && w.st.ledger[result.order.id].stage == Published
      ensures Smooth(c) && c.metaSet && Sound(r, c.clock) ==>
                var e := Outcome(old(w.st.redis), r.tt, r.quantity, c.row);
                && Counter(w.st.redis, r.tt) == Counter(old(w.st.redis), r.tt) - (if e == Ok then r.quantity else 0)
                && if e != Ok then result == Refused(e) && w.st.msgs == old(w.st.msgs)
                else exists id :: id >= old(w.st.next) && id in w.st.msgs && id in w.st.ledger && w.st.ledger[id].stage == Published
                                  && Answered(r, MetaUsed(old(w.st.redis), r.tt, c.row), w.st.msgs[id], c.clock, result)
      ensures Alone(c) && Sound(r, c.clock) && Deduct(old(w.st.redis), r.tt, r.quantity).error != MetadataMissing ==>
                w.st == DoKafkaRevert(DoKafkaPublish(DoKafkaDeduct(old(w.st), p, r.tt, r.quantity, r.user, r.until, c.faults[0]),
                                                     p, c.faults[2]), p, c.faults[3])
    {
      hide PgInv, Advances, Run, Next, Deduct, OwnerOf, Reserve, Outcome, DoKafkaDeduct, DoKafkaPublish, DoKafkaRevert,
           RowOf, WellFormed, Blames, Charges;
      trace := [];
      RunEmpty(w.st);
      AdvancesReflexive(w.st);
      if r.user <= 0 { return Refused(InvalidUserID), trace; }
      if r.tt == NIL { return Refused(InvalidTicketTypeID), trace; }
      if r.quantity <= 0 { return Refused(InvalidQuantity), trace; }
      if r.until <= c.clock { return Refused(InvalidReservedUntil), trace; }
      ghost var s0 := w.st;
      var error;
      error, trace := DeductWithRepair(r, c);
      Absent(w.st, p, c.faults[2], c.faults[3]);
      if error != Ok { return Refused(error), trace; }
      var m := w.st.procs[p].msg;
      ghost var more;
      var ok;
      ok, more := Publish(c);
      RunConcat(s0, trace, more);
      trace := trace + more;
      Absent(w.st, p, c.faults[2], c.faults[3]);
      if !ok {
        var reverted;
        reverted, more := TakeBack(c);
        RunConcat(s0, trace, more);
        trace := trace + more;
        return PublishFailed(m.id, reverted), trace;
      }
      var answer := Reserve(m, c.clock);
      ReserveIsExact(m, c.clock);
      if answer.Accepted? { RowFields(m, answer.order); }
      result := if answer.Accepted? then Booked(answer.order) else Refused(answer.error);
    }
  }

  /** A queued message priced by `meta`, and the answer that goes with it: its order, or the field that is wrong with it. */
  predicate Answered(r: Request, meta: Option<Meta>, m: Msg, clock: int, result: BookResult) {
    && meta.Some? && Charges(m, r, meta.value)
    && if WellFormed(m, clock) then result.Booked? && RowOf(m, result.order) else result.Refused? && Blames(m, clock, result.error)
  }

  ghost predicate Holding(s: State, p: nat) {
    p in s.procs && s.procs[p].Intake? && s.procs[p].msg.id in s.ledger
  }

  /** With nobody at `p` there is nothing to publish or to take back. */
  lemma Absent(s: State, p: nat, f: Fault, g: Fault)
    requires p !in s.procs || s.procs[p].Intake?
    ensures p !in s.procs ==> DoKafkaPublish(s, p, f) == s && DoKafkaRevert(s, p, g) == s
  {}

  lemma DeductedMeta(r: Redis, tt: Uuid, n: int)
    ensures (Deduct(r, tt, n).error == Ok ==> tt in r.meta) && (Deduct(r, tt, n).error == MetadataMissing ==> tt !in r.meta)
    ensures Deduct(r, tt, n).error in {Ok, SoldOut, MetadataMissing}
  {}

  function DeductOf(p: nat, r: Request, f: Fault): Action { KafkaDeduct(p, r.tt, r.quantity, r.user, r.until, f) }

  /** While nobody runs as `p`, others do not start it. */
  lemma Idle(s0: State, s: State, trace: seq<Action>, gap: seq<Action>, p: nat)
    requires PgInv(s) && s == Run(s0, trace) && Advances(s0, s) && p !in s.procs && ForeignTo(gap, p)
    ensures var t := Run(s, gap); PgInv(t) && t == Run(s0, trace + gap) && Advances(s0, t) && p !in t.procs
  {
    hide PgInv, Advances, Next, Run;
    RunKeeps(s, gap);
    ForeignRun(s, gap, p);
    RunConcat(s0, trace, gap);
    AdvancesTransitive(s0, s, Run(s, gap));
  }

  class StreamBooking {
    const w: World

    constructor (w: World)
      ensures this.w == w
    {
      this.w := w;
    }

    /** DeductInventory: deduction and queue entry in one script; the reply carries what was queued. */
    method DeductInventory(r: Request, f: Fault) returns (error: Error, reply: Option<Msg>)
      requires BookingAccepted(r.user, r.tt, r.quantity)
      modifies w
      ensures w.st == if f.Fails? then old(w.st) else DoBookStream(old(w.st), r.tt, r.quantity, r.user, r.until)
      ensures error == Reply(Deduct(old(w.st.redis), r.tt, r.quantity).error, f)
      ensures error == Ok <==> reply.Some?
      ensures reply.Some? ==>
                && reply.value.id == old(w.st.next) && w.st.next == old(w.st.next) + 1 && w.st.msgs == old(w.st.msgs)[old(w.st.next) := reply.value]
                && r.tt in old(w.st.redis.meta) && Charges(reply.value, r, old(w.st.redis.meta[r.tt]))
    {
      hide Deduct, MsgOf;
      DeductedMeta(w.st.redis, r.tt, r.quantity);
      if f.Fails? { return Infra, None; }
      var d := Deduct(w.st.redis, r.tt, r.quantity);
      if d.error != Ok {
        w.st := w.st.(redis := d.redis);
        return d.error, None;
      }
      var m := MsgOf(w.st, r.tt, r.quantity, r.user, r.until);
      MsgCharges(w.st, r);
      w.st := w.st.(redis := d.redis, next := w.st.next + 1, msgs := w.st.msgs[m.id := m],
                    ledger := w.st.ledger[m.id := Entry(r.tt, r.quantity, Published, 0, 0, None)]);
      if f.Lost? { return Infra, None; }
      error, reply := Ok, Some(m);
    }

    /** One try as a run of the model, after whatever came before it. */
    method Try(r: Request, gap: seq<Action>, f: Fault) returns (error: Error, reply: Option<Msg>, ghost trace: seq<Action>)
      requires PgInv(w.st) && BookingAccepted(r.user, r.tt, r.quantity)
      modifies w
      ensures w.st == Run(old(w.st), trace) && PgInv(w.st) && Advances(old(w.st), w.st)
      ensures error == Ok <==> reply.Some?
      ensures reply.Some? ==> reply.value.id >= old(w.st.next) && reply.value.id in w.st.msgs && w.st.msgs[reply.value.id] == reply.value
                              && exists meta: Meta :: Charges(reply.value, r, meta)
      ensures gap == [] && f.Clean? ==> Tried(old(w.st), w.st, r, error, reply)
      ensures gap == [] ==> error == Reply(Deduct(old(w.st.redis), r.tt, r.quantity).error, f)
    {
      hide PgInv, Advances, Run, Next, Deduct, DoBookStream;
      ghost var s0 := w.st;
      AdvancesReflexive(s0);
      RunEmpty(s0);
      w.Others(gap);
      RunKeeps(s0, gap);
      ghost var s1 := w.st;
      AdvancesForward(s0, s1);
      AdvancesReflexive(s1);
      QueuedFacts(s1, r);
      error, reply := DeductInventory(r, f);
      trace := gap;
      if !f.Fails? {
        Stepped(s0, s1, gap, BookStream(r.tt, r.quantity, r.user, r.until));
        StreamStep(s1, r.tt, r.quantity, r.user, r.until);
        trace := trace + [BookStream(r.tt, r.quantity, r.user, r.until)];
      }
    }

    /**
     * Stage 2-4 BookTicket: repair and retry once, on missing metadata only. A booked order is queued under
     * its own fresh id; left alone, the answer is the contract's, the counter loses the units exactly if
     * it is Ok, and then one message is queued and otherwise none.
     */
    method BookTicket(r: Request, c: Script) returns (result: BookResult, ghost trace: seq<Action>)
      requires PgInv(w.st) && |c.gaps| == 4 && |c.faults| == 4
      modifies w
      ensures w.st == Run(old(w.st), trace) && PgInv(w.st) && !result.PublishFailed?
      ensures !Sound(r, c.clock) ==> result.Refused? && Faulty(r, c.clock, result.error) && w.st == old(w.st)
      ensures result.Booked? ==> Queued(w.st, old(w.st.next), r, result.order)
      ensures Smooth(c) && c.metaSet && Sound(r, c.clock) ==>
                var e, id := Outcome(old(w.st.redis), r.tt, r.quantity, c.row), old(w.st.next);
                && Counter(w.st.redis, r.tt) == Counter(old(w.st.redis), r.tt) - (if e == Ok then r.quantity else 0)
                && if e != Ok then result == Refused(e) && w.st.msgs == old(w.st.msgs)
                   else && id in w.st.msgs && w.st.msgs == old(w.st.msgs)[id := w.st.msgs[id]]
                        && Answered(r, MetaUsed(old(w.st.redis), r.tt, c.row), w.st.msgs[id], c.clock, result)
    {
      hide PgInv, Advances, Run, Next, Deduct, Outcome, Charges, RowOf, WellFormed, Blames;
      ghost var s0 := w.st;
      trace := [];
      RunEmpty(s0);
      AdvancesReflexive(s0);
      ValidateIsExact(r, c.clock);
      if Validate(r, c.clock) != Ok { return Refused(Validate(r, c.clock)), trace; }
      ghost var more;
      var error, reply;
      RepairIsEnough(s0.redis, r.tt, r.quantity, c.row);
      DeductedMeta(s0.redis, r.tt, r.quantity);
      error, reply, trace := Try(r, c.gaps[0], c.faults[0]);
      if error == MetadataMissing {
        if c.row.None? { return Refused(NotFound), trace; }
        if !c.metaSet { return Refused(Infra), trace; }
        ghost var s1 := w.st;
        w.st := w.st.(redis := w.st.redis.(meta := w.st.redis.meta[r.tt := c.row.value]));
        RepairStep(s1, r.tt, c.row.value);
        Stepped(s0, s1, trace, RepairMeta(r.tt, c.row.value));
        trace := trace + [RepairMeta(r.tt, c.row.value)];
        ghost var s2 := w.st;
        AdvancesForward(s0, s2);
        RepairIsEnough(s2.redis, r.tt, r.quantity, c.row);
        error, reply, more := Try(r, c.gaps[1], c.faults[1]);
        RunConcat(s0, trace, more);
        AdvancesTransitive(s0, s2, w.st);
        trace := trace + more;
      }
      if error != Ok { return Refused(error), trace; }
      var m := reply.value;
      var answer := Reserve(m, c.clock);
      ReserveIsExact(m, c.clock);
      if answer.Accepted? { RowFields(m, answer.order); }
      result := if answer.Accepted? then Booked(answer.order) else Refused(answer.error);
    }
  }

  /** What an undisturbed try leaves behind. */
  predicate Tried(s: State, t: State, r: Request, error: Error, reply: Option<Msg>) {
    && t.redis == Deduct(s.redis, r.tt, r.quantity).redis
    && (reply.None? ==> t.msgs == s.msgs && t.next == s.next)
    && (reply.Some? ==> reply.value.id == s.next && t.msgs == s.msgs[s.next := reply.value] && r.tt in s.redis.meta && Charges(reply.value, r, s.redis.meta[r.tt]))
  }

  lemma QueuedFacts(s: State, r: Request)
    requires BookingAccepted(r.user, r.tt, r.quantity)
    ensures var t, d := DoBookStream(s, r.tt, r.quantity, r.user, r.until), Deduct(s.redis, r.tt, r.quantity);
      t.redis == d.redis && (d.error != Ok ==> t.msgs == s.msgs && t.next == s.next)
  {}

  /** What the tables say to a message: too few tickets; or the buyer has a row for this event that is not Failed; or Ok. */
  ghost function Verdict(db: Db, m: Msg): Error {
    if m.tt !in db.avail || db.avail[m.tt] < m.quantity then SoldOut
    else if m.id in db.orders
            || exists i :: i in db.orders && db.orders[i].user == m.user && db.orders[i].event == m.event && db.orders[i].status != Failed
      then AlreadyBought
    else Ok
  }

  lemma VerdictMeans(db: Db, m: Msg)
    ensures Verdict(db, m) == if m.tt !in db.avail || db.avail[m.tt] < m.quantity then SoldOut
                              else if m.id in db.orders || UserHolds(db, m.user, m.event) then AlreadyBought else Ok
  {}

  lemma RowFields(m: Msg, o: Order)
    requires RowOf(m, o)
    ensures o.id == m.id && o.user == m.user && o.event == m.event && o.tt == m.tt && o.quantity == m.quantity
  {}

  /**
   * The worker's Process on one queue entry: validate before opening a transaction, take the tickets,
   * insert the order; any refusal leaves the database untouched.
   */
  method Process(w: World, id: Uuid, clock: int, f: Fault) returns (error: Error)
    requires PgInv(w.st) && id in w.st.msgs && w.st.msgs[id].id == id
    modifies w
    ensures w.st == Next(old(w.st), WorkerTx(id, clock, f)) && PgInv(w.st)
    ensures var m, e := old(w.st.msgs[id]), Verdict(old(w.st.db), old(w.st.msgs[id]));
      if !WellFormed(m, clock) then Blames(m, clock, error) && w.st == old(w.st)
      else if f.Fails? then error == Infra && w.st == old(w.st)
      else if e != Ok then error == e && w.st == old(w.st)
      else && error == (if f.Lost? then Infra else Ok)
           && id in w.st.db.orders && RowOf(m, w.st.db.orders[id]) && m.tt in old(w.st.db.avail)
           && w.st.db == old(w.st.db).(orders := old(w.st.db.orders)[id := w.st.db.orders[id]],
                                       avail := old(w.st.db.avail)[m.tt := old(w.st.db.avail)[m.tt] - m.quantity])
  {
    hide PgInv, Advances, UserHolds, WellFormed, Blames, RowOf, Verdict;
    ghost var s := w.st;
    VerdictMeans(s.db, w.st.msgs[id]);
    ReserveIsExact(w.st.msgs[id], clock);
    if WellFormed(w.st.msgs[id], clock) { RowFields(w.st.msgs[id], Reserve(w.st.msgs[id], clock).order); }
    WorkerSteps(s, id, clock, f);
    NextKeeps(s, WorkerTx(id, clock, f));
    var newOrder := Reserve(w.st.msgs[id], clock);
    if newOrder.Rejected? { return newOrder.error; }
    if f.Fails? { return Infra; }
    var o := newOrder.order;
    var tx := w.st.db;
    var d := DecrementTicket(tx, o.tt, o.quantity);
    if d.error != Ok { return d.error; }
    HoldsDespiteTickets(tx, d.db, o);
    tx := d.db;
    var c := CreateOrder(tx, o);
    if c.error != Ok { return c.error; }
    w.st := w.st.(db := c.db);
    error := if f.Lost? then Infra else Ok;
  }

  lemma HoldsDespiteTickets(a: Db, b: Db, o: Order)
    requires a.orders == b.orders
    ensures UserHolds(a, o.user, o.event) == UserHolds(b, o.user, o.event)
  {}
}
