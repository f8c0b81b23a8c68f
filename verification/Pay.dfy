/** POST /pay: register an intent at the gateway, then write its id to the row. */
module Pay {
  import opened Domain
  import opened Options
  import opened Store
  import opened Protocol
  import opened Steps
  import opened DbSafety
  import opened PgSafety
  import opened PgSteps
  import opened Guarantees
  import opened Frames
  import opened Runtime

  datatype PayError = BadOrderID | UnknownOrder | NotAwaitingPayment | WindowClosed | MissingPriceSnapshot | GatewayFailed | Persist(error: Error)

  datatype PayResult = Created(intent: string) | Refused(error: PayError)

  /** What happens around one call; `offer` is the id a first registration gets, `None` when the gateway fails. */
  datatype Script = Script(gaps: seq<seq<Action>>, get: Fault, offer: Option<string>, write: Fault, clock: int)

  ghost predicate ValidScript(c: Script, p: nat) {
    |c.gaps| == 3 && forall k :: 0 <= k < 3 ==> ForeignTo(c.gaps[k], p)
  }

  /** The gateway's part of the contract: a first registration gets an id of its own, non-empty; anything else counts as a failure. */
  predicate Honest(gateway: map<Uuid, string>, id: Uuid, offer: string) {
    id in gateway || (offer != "" && offer !in gateway.Values)
  }

  /** Nobody else runs meanwhile, and the row is read. */
  ghost predicate Quiet(c: Script) { |c.gaps| == 3 && c.gaps[0] == c.gaps[1] == c.gaps[2] == [] && c.get.Clean? }

  /** What a `Created` answer says of the state it is given in. */
  predicate CreatedAt(s: State, id: Uuid, intent: string) {
    intent != "" && id in s.gateway && s.gateway[id] == intent && id in s.db.orders && s.db.orders[id].intent == Some(intent)
  }

  /**
   * What a registered intent becomes: the gateway's earlier one or the one it offers; on a row still open by the
   * database's clock, without another intent and with no other row using this one, it is written and answered.
   */
  ghost predicate Settles(s: State, t: State, id: Uuid, c: Script, result: PayResult) {
    id in s.db.orders && c.offer.Some? &&
    var o, x := s.db.orders[id], if id in s.gateway then s.gateway[id] else c.offer.value;
    && id in t.gateway && t.gateway[id] == x && t.now == s.now
    && if o.reservedUntil > s.now && o.intent in {None, Some(x)} && !IntentTaken(s.db, id, x)
       then && (if c.write.Clean? then result == Created(x) else result == Refused(Persist(Infra)))
            && t.db == if c.write.Fails? then s.db else s.db.(orders := s.db.orders[id := o.(intent := Some(x))])
       else && t.db == s.db
            && result == Refused(Persist(if c.write.Clean? && o.intent !in {None, Some(""), Some(x)} then InvalidTransition else Infra))
  }

  lemma PayFact(s: State, p: nat)
    requires PgInv(s) && p in s.procs && s.procs[p].Pay?
    ensures s.procs[p].order.id in s.db.orders && GatewayOk(s.gateway)
    ensures var o, x := s.procs[p].order, s.procs[p].intent; x.Some? ==> o.id in s.gateway && s.gateway[o.id] == x.value && x.value != ""
  {
    hide DbInv, LogOk, ProcsOk, FoundOk, PaidOk;
    ProcFact(s, p);
  }

  /** What a successful write of the id means for the row. */
  lemma SetMeans(db: Db, id: Uuid, intent: string, now: int, clock: int)
    requires SetIntent(db, id, intent, now, clock).error == Ok
    ensures var b := SetIntent(db, id, intent, now, clock).db;
      && id in b.orders && b.orders[id].intent == Some(intent) && b.orders[id].status == AwaitingPayment && b.orders[id].reservedUntil > now
  {}

  /** The request ends here: its handler leaves without another write. */
  method Leave(w: World, p: nat, ghost s0: State, ghost before: seq<Action>) returns (ghost trace: seq<Action>)
    requires PgInv(w.st) && w.st == Run(s0, before) && Advances(s0, w.st) && p in w.st.procs && w.st.procs[p].Pay?
    modifies w
    ensures w.st == Run(s0, trace) && PgInv(w.st) && Advances(s0, w.st) && p !in w.st.procs && w.st.db == old(w.st.db)
  {
    hide PgInv, Advances, Run, Next;
    ghost var s := w.st;
    w.st := Drop(w.st, p);
    CrashStep(s, p);
    Stepped(s0, s, before, Crash(p));
    trace := before + [Crash(p)];
  }

  /** The id the gateway answers with. */
  function Registered(gateway: map<Uuid, string>, id: Uuid, offer: string): string {
    if id in gateway then gateway[id] else offer
  }

  /** The checks on the row as read. */
  function Check(o: Order, clock: int): Option<PayError> {
    if o.status != AwaitingPayment then Some(NotAwaitingPayment)
    else if o.reservedUntil <= clock then Some(WindowClosed)
    else if !o.HasPriceSnapshot() then Some(MissingPriceSnapshot)
    else None
  }

  /** The gateway call: the id it has for this order, or a new one. */
  method Register(w: World, p: nat, offer: Option<string>) returns (intent: Option<string>)
    requires p in w.st.procs && w.st.procs[p].Pay? && w.st.procs[p].intent.None?
    modifies w
    ensures w.st == if intent.Some? then DoPayGateway(old(w.st), p, if offer.Some? then offer.value else "") else old(w.st)
    ensures intent.Some? ==> p in w.st.procs && w.st.procs[p] == Proc.Pay(old(w.st.procs[p].order), intent) && w.st.db == old(w.st.db)
    ensures offer.Some? && Honest(old(w.st.gateway), old(w.st.procs[p].order.id), offer.value) ==>
              intent == Some(Registered(old(w.st.gateway), old(w.st.procs[p].order.id), offer.value))
    ensures w.st.now == old(w.st.now) && (offer.None? ==> intent.None?)
  {
    var id := w.st.procs[p].order.id;
    intent := None;
    if offer.None? { return; }
    if id in w.st.gateway {
      intent := Some(w.st.gateway[id]);
      w.st := Put(w.st, p, w.st.procs[p].(intent := intent));
    } else if offer.value != "" && offer.value !in w.st.gateway.Values {
      intent := offer;
      w.st := Put(w.st.(gateway := w.st.gateway[id := offer.value]), p, w.st.procs[p].(intent := intent));
    }
  }

  /** SetPaymentIntentID as the last step of the call. */
  method WriteIntent(w: World, p: nat, clock: int, f: Fault) returns (error: Error)
    requires PgInv(w.st) && p in w.st.procs && w.st.procs[p].Pay? && w.st.procs[p].intent.Some?
    modifies w
    ensures w.st == DoPaySet(old(w.st), p, clock, f) && w.st.gateway == old(w.st.gateway) && w.st.now == old(w.st.now) && p !in w.st.procs
    ensures var id, intent := old(w.st.procs[p].order.id), old(w.st.procs[p].intent.value);
      error == Ok ==> id in w.st.db.orders && w.st.db.orders[id].intent == Some(intent)
                      && w.st.db.orders[id].status == AwaitingPayment && w.st.db.orders[id].reservedUntil > w.st.now
    ensures error == if f.Clean? then SetIntent(old(w.st.db), old(w.st.procs[p].order.id), old(w.st.procs[p].intent.value), old(w.st.now), clock).error else Infra
  {
    hide SetIntent, PgInv;
    var id, intent := w.st.procs[p].order.id, w.st.procs[p].intent.value;
    var r := SetIntent(w.st.db, id, intent, w.st.now, clock);
    if r.error == Ok { SetMeans(w.st.db, id, intent, w.st.now, clock); }
    if !f.Fails? { w.st := w.st.(db := r.db); }
    w.st := Drop(w.st, p);
    error := if !f.Clean? then Infra else r.error;
  }

  /**
   * CreatePaymentIntent. Created means the row carries the gateway's own non-empty id for this order,
   * and is still payable as it is written; what is refused before the gateway changes nothing.
   */
  method CreatePaymentIntent(w: World, p: nat, id: Uuid, c: Script) returns (result: PayResult, ghost trace: seq<Action>)
    requires PgInv(w.st) && p !in w.st.procs && ValidScript(c, p)
    modifies w
    ensures w.st == Run(old(w.st), trace) && PgInv(w.st) && Advances(old(w.st), w.st) && p !in w.st.procs
    ensures result.Created? ==>
              && CreatedAt(w.st, id, result.intent)
              && w.st.db.orders[id].status == AwaitingPayment && w.st.db.orders[id].reservedUntil > w.st.now
    ensures id == NIL ==> result == Refused(BadOrderID) && w.st == old(w.st)
    ensures id != NIL && !c.get.Clean? ==> result == Refused(Persist(Infra)) && trace == c.gaps[0]
    ensures c.gaps[0] == [] && c.get.Clean? && id != NIL ==>
              if id !in old(w.st.db.orders) then result == Refused(UnknownOrder) && w.st == old(w.st)
              else
                var o := old(w.st.db.orders[id]);
                if o.status != AwaitingPayment then result == Refused(NotAwaitingPayment) && w.st == old(w.st)
                else if o.reservedUntil <= c.clock then result == Refused(WindowClosed) && w.st == old(w.st)
                else if o.amountCents <= 0 || o.currency == "" then result == Refused(MissingPriceSnapshot) && w.st == old(w.st)
                else if c.offer.None? then result == Refused(GatewayFailed)
                else result.Created? || result.error == GatewayFailed || result.error.Persist?
    ensures Quiet(c) && id in old(w.st.db.orders) && id != NIL && c.offer.Some? && Honest(old(w.st.gateway), id, c.offer.value) ==>
              var o := old(w.st.db.orders[id]);
              o.status == AwaitingPayment && o.reservedUntil > c.clock && o.amountCents > 0 && o.currency != "" ==>
                && w.st == DoPaySet(DoPayGateway(DoPayRead(old(w.st), p, id, c.clock), p, c.offer.value), p, c.clock, c.write)
                && Settles(old(w.st), w.st, id, c, result)
  {
    hide PgInv, Advances, Run, Next, OwnerOf, DoPayRead, DoPayGateway, DoPaySet;
    ghost var s0 := w.st;
    trace := [];
    RunEmpty(s0);
    AdvancesReflexive(s0);
    if id == NIL { return Refused(BadOrderID), trace; }
    w.Others(c.gaps[0]);
    RunKeeps(s0, c.gaps[0]);
    ForeignRun(s0, c.gaps[0], p);
    trace := c.gaps[0];
    if !c.get.Clean? { return Refused(Persist(Infra)), trace; }
    if id !in w.st.db.orders { return Refused(UnknownOrder), trace; }
    var order := w.st.db.orders[id];
    if Check(order, c.clock).Some? { return Refused(Check(order, c.clock).value), trace; }
    ghost var s1 := w.st;
    w.st := Put(w.st, p, Proc.Pay(order, None));
    RowId(s1, id);
    ReadIs(s1, p, id, c.clock);
    Stepped(s0, s1, trace, PayRead(p, id, c.clock));
    trace := trace + [PayRead(p, id, c.clock)];
    ghost var more;
    ghost var s2 := w.st;
    result, more := RegisterAndWrite(w, p, order, c);
    RunConcat(s0, trace, more);
    AdvancesTransitive(s0, s2, w.st);
    trace := trace + more;
    if Quiet(c) && c.offer.Some? && Honest(s0.gateway, id, c.offer.value) { PaysQuietly(s0, p, id, c, result); }
  }

  /** What an undisturbed call leaves behind, once the row has passed the checks. */
  lemma PaysQuietly(s: State, p: nat, id: Uuid, c: Script, result: PayResult)
    requires PgInv(s) && p !in s.procs && id in s.db.orders && Check(s.db.orders[id], c.clock).None? && c.offer.Some? && Honest(s.gateway, id, c.offer.value)
    requires !result.Created? ==> result.error == Persist(if c.write.Clean? then SetIntent(s.db, id, Registered(s.gateway, id, c.offer.value), s.now, c.clock).error else Infra)
    requires var x := Registered(s.gateway, id, c.offer.value);
      && (result.Created? <==> c.write.Clean? && SetIntent(s.db, id, x, s.now, c.clock).error == Ok)
      && (result.Created? ==> result.intent == x)
    ensures Settles(s, DoPaySet(DoPayGateway(DoPayRead(s, p, id, c.clock), p, c.offer.value), p, c.clock, c.write), id, c, result)
  {
    hide PgInv, DbInv, IntentTaken, DoPayRead, DoPayGateway;
    QuietRegister(s, p, id, c.clock, c.offer.value);
  }

  lemma RegisteredIds(s: State, id: Uuid)
    requires PgInv(s)
    ensures id in s.gateway ==> s.gateway[id] != ""
  {
    hide DbInv, LogOk, ProcsOk, FoundOk, PaidOk;
  }

  lemma QuietRegister(s: State, p: nat, id: Uuid, clock: int, offer: string)
    requires PgInv(s) && p !in s.procs && id in s.db.orders && Check(s.db.orders[id], clock).None? && Honest(s.gateway, id, offer)
    ensures var t, x := DoPayGateway(DoPayRead(s, p, id, clock), p, offer), Registered(s.gateway, id, offer);
      && t.db == s.db && t.now == s.now && id in t.gateway && t.gateway[id] == x && s.db.orders[id].id == id
      && p in t.procs && t.procs[p] == Proc.Pay(s.db.orders[id], Some(x)) && x != ""
  {
    hide PgInv, DbInv;
    RegisteredIds(s, id);
    QueueFact(s);
    RowFacts(s.db, s.next, id);
  }

  /** Gateway and write, once the row has been read as payable. */
  method RegisterAndWrite(w: World, p: nat, order: Order, c: Script) returns (result: PayResult, ghost trace: seq<Action>)
    requires PgInv(w.st) && p in w.st.procs && w.st.procs[p] == Proc.Pay(order, None) && ValidScript(c, p)
    modifies w
    ensures w.st == Run(old(w.st), trace) && PgInv(w.st) && Advances(old(w.st), w.st) && p !in w.st.procs
    ensures result.Created? ==>
              && CreatedAt(w.st, order.id, result.intent)
              && w.st.db.orders[order.id].status == AwaitingPayment && w.st.db.orders[order.id].reservedUntil > w.st.now
    ensures result.Refused? ==> result.error == GatewayFailed || result.error.Persist?
    ensures c.offer.None? ==> result == Refused(GatewayFailed)
    ensures c.gaps[1] == c.gaps[2] == [] && c.offer.Some? && Honest(old(w.st.gateway), order.id, c.offer.value) ==>
              var x := Registered(old(w.st.gateway), order.id, c.offer.value);
              && w.st == DoPaySet(DoPayGateway(old(w.st), p, c.offer.value), p, c.clock, c.write)
              && (result.Created? <==> c.write.Clean? && SetIntent(old(w.st.db), order.id, x, old(w.st.now), c.clock).error == Ok)
              && (result.Created? ==> result.intent == x)
              && (!result.Created? ==>
                    result.error == Persist(if c.write.Clean? then SetIntent(old(w.st.db), order.id, x, old(w.st.now), c.clock).error else Infra))
  {
    hide PgInv, Advances, Run, Next, OwnerOf, DoPayGateway, DoPaySet;
    ghost var s2 := w.st;
    AdvancesReflexive(s2);
    RunEmpty(s2);
    w.Others(c.gaps[1]);
    Waited(s2, s2, [], c.gaps[1], p);
    trace := [] + c.gaps[1];
    ghost var s3 := w.st;
    var intent := Register(w, p, c.offer);
    if intent.None? {
      trace := Leave(w, p, s2, trace);
      return Refused(GatewayFailed), trace;
    }
    PayOpenSteps(s3, p, 0, c.clock, if c.offer.Some? then c.offer.value else "");
    Stepped(s2, s3, trace, PayGateway(p, if c.offer.Some? then c.offer.value else ""));
    trace := trace + [PayGateway(p, if c.offer.Some? then c.offer.value else "")];
    ghost var s4 := w.st;
    RunEmpty(s4);
    w.Others(c.gaps[2]);
    Waited(s2, s4, trace, c.gaps[2], p);
    trace := trace + c.gaps[2];
    ghost var s5 := w.st;
    PayFact(s5, p);
    var error := WriteIntent(w, p, c.clock, c.write);
    PaySetStep(s5, p, c.clock, c.write);
    Stepped(s2, s5, trace, PaySet(p, c.clock, c.write));
    trace := trace + [PaySet(p, c.clock, c.write)];
    result := if error == Ok then Created(intent.value) else Refused(Persist(error));
  }

  lemma ReadIs(s: State, p: nat, id: Uuid, clock: int)
    requires p !in s.procs && id in s.db.orders && Check(s.db.orders[id], clock).None?
    ensures Next(s, PayRead(p, id, clock)) == Put(s, p, Proc.Pay(s.db.orders[id], None)) == DoPayRead(s, p, id, clock)
  {}

  /**
   * Two `Created` answers, anywhere in one run and with anything between them: for the same order they
   * name the same intent, which the row still carries; for two orders they never do.
   */
  lemma SameIntentAgain(s: State, a: seq<Action>, b: seq<Action>, i: Uuid, j: Uuid, x: string, y: string)
    requires Start(s) && CreatedAt(Run(s, a), i, x) && CreatedAt(Run(s, a + b), j, y)
    ensures i == j <==> x == y
    ensures CreatedAt(Run(s, a + b), i, x)
  {
    hide Start, PgInv, Extends;
    Reached(s, a, b);
    IntentWriteOnce(s, a, b, i, j);
    if i != j { GatewayDiffers(Run(s, a + b), i, j); }
  }

  lemma GatewayDiffers(t: State, i: Uuid, j: Uuid)
    requires PgInv(t) && i in t.gateway && j in t.gateway && i != j
    ensures t.gateway[i] != t.gateway[j]
  {
    hide DbInv, LogOk, ProcsOk, FoundOk, PaidOk;
  }
}
