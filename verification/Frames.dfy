/** A handler moves only by its own steps. */
module Frames {
  import opened Domain
  import opened Options
  import opened Store
  import opened Protocol
  import opened PgSteps

  /** The handler whose step an action is. */
  function OwnerOf(a: Action): Option<nat> {
    match a
    case KafkaDeduct(p, _, _, _, _, _) => Some(p)
    case KafkaPublish(p, _) => Some(p)
    case KafkaRevert(p, _) => Some(p)
    case Deliver(p, _) => Some(p)
    case Watch(p, _) => Some(p)
    case CompRead(p, _) => Some(p)
    case CompWrite(p, _) => Some(p)
    case CompCheck(p, _) => Some(p)
    case CompRevert(p, _) => Some(p)
    case CompMark(p, _) => Some(p)
    case CompFinish(p) => Some(p)
    case HookStart(p, _, _) => Some(p)
    case HookResolve(p, _, _) => Some(p)
    case HookRead(p, _, _) => Some(p)
    case HookBegin(p, _) => Some(p)
    case HookTx(p, _, _) => Some(p)
    case HookRecheck(p, _) => Some(p)
    case HookFinish(p) => Some(p)
    case JobRead(p, _, _) => Some(p)
    case JobTx(p, _) => Some(p)
    case PayRead(p, _, _) => Some(p)
    case PayGateway(p, _) => Some(p)
    case PaySet(p, _, _) => Some(p)
    case Crash(p) => Some(p)
    case _ => None
  }

  /** Handler `h` is as it was: at the same counter, or still not running. */
  ghost predicate Spares(s: State, t: State, h: nat) {
    (h in t.procs <==> h in s.procs) && (h in s.procs ==> t.procs[h] == s.procs[h])
  }

  lemma SparesStill(s: State, t: State, h: nat)
    requires t.procs == s.procs
    ensures Spares(s, t, h)
  {}

  lemma SparesPut(s: State, t: State, p: nat, h: nat)
    requires h != p && (t.procs == s.procs || t.procs == s.procs - {p} || (p in t.procs && t.procs == s.procs[p := t.procs[p]]))
    ensures Spares(s, t, h)
  {}

  lemma KafkaSpares(s: State, p: nat, tt: Uuid, quantity: int, user: int, until: int, f: Fault, h: nat)
    requires h != p
    ensures Spares(s, DoKafkaDeduct(s, p, tt, quantity, user, until, f), h) && Spares(s, DoKafkaPublish(s, p, f), h) && Spares(s, DoKafkaRevert(s, p, f), h)
  {
    hide Deduct, MsgOf, Revert, Spares;
    SparesPut(s, DoKafkaDeduct(s, p, tt, quantity, user, until, f), p, h);
    SparesPut(s, DoKafkaPublish(s, p, f), p, h);
    SparesPut(s, DoKafkaRevert(s, p, f), p, h);
  }

  lemma CallSpares(s: State, p: nat, n: nat, h: nat)
    requires h != p
    ensures Spares(s, DoDeliver(s, p, n), h) && Spares(s, DoWatch(s, p, n), h) && Spares(s, DoCrash(s, p), h)
  {
    hide Spares;
    SparesPut(s, DoDeliver(s, p, n), p, h);
    SparesPut(s, DoWatch(s, p, n), p, h);
    SparesPut(s, DoCrash(s, p), p, h);
  }

  lemma CompReadSpares(s: State, p: nat, f: Fault, h: nat)
    requires h != p
    ensures Spares(s, DoCompRead(s, p, f), h)
  {
    hide ResolveTicketType, Spares;
    SparesPut(s, DoCompRead(s, p, f), p, h);
  }

  lemma CompSpares(s: State, p: nat, f: Fault, h: nat)
    requires h != p
    ensures Spares(s, DoCompWrite(s, p, f), h) && Spares(s, DoCompCheck(s, p, f), h)
  {
    hide CompensateTx, WasRedisReverted, Spares;
    SparesPut(s, DoCompWrite(s, p, f), p, h);
    SparesPut(s, DoCompCheck(s, p, f), p, h);
  }

  lemma CompEndSpares(s: State, p: nat, f: Fault, h: nat)
    requires h != p
    ensures Spares(s, DoCompRevert(s, p, f), h) && Spares(s, DoCompMark(s, p, f), h) && Spares(s, DoCompFinish(s, p), h)
  {
    hide Revert, MarkRedisReverted, Spares;
    SparesPut(s, DoCompRevert(s, p, f), p, h);
    SparesPut(s, DoCompMark(s, p, f), p, h);
    SparesPut(s, DoCompFinish(s, p), p, h);
  }

  lemma HookSpares(s: State, p: nat, env: Envelope, expectLive: bool, hit: Option<Uuid>, f: Fault, h: nat)
    requires h != p
    ensures Spares(s, DoHookStart(s, p, env, expectLive), h) && Spares(s, DoHookResolve(s, p, hit, f), h)
  {
    hide FindsIntent, Spares;
    SparesPut(s, DoHookStart(s, p, env, expectLive), p, h);
    SparesPut(s, DoHookResolve(s, p, hit, f), p, h);
  }

  lemma GotoSpares(s: State, p: nat, h: nat)
    requires AtHook(s, p) && h != p
    ensures forall pc :: Spares(s, GotoHook(s, p, pc), h)
    ensures forall o :: Spares(s, GotoLate(s, p, o), h)
  {}

  lemma HookReadSpares(s: State, p: nat, clock: int, f: Fault, h: nat)
    requires h != p
    ensures Spares(s, DoHookRead(s, p, clock, f), h)
  {
    hide Dispatch, GotoHook, GotoLate;
    if AtHook(s, p) { GotoSpares(s, p, h); }
  }

  lemma HookEndSpares(s: State, p: nat, f: Fault, h: nat)
    requires h != p
    ensures Spares(s, DoHookBegin(s, p, f), h) && Spares(s, DoHookRecheck(s, p, f), h) && Spares(s, DoHookFinish(s, p), h)
  {
    hide Spares;
    SparesPut(s, DoHookBegin(s, p, f), p, h);
    SparesPut(s, DoHookRecheck(s, p, f), p, h);
    SparesPut(s, DoHookFinish(s, p), p, h);
  }

  lemma JobSpares(s: State, p: nat, id: Uuid, kind: JobKind, f: Fault, h: nat)
    requires h != p
    ensures Spares(s, DoJobRead(s, p, id, kind), h) && Spares(s, DoJobTx(s, p, f), h)
  {
    hide JobResult, Spares;
    SparesPut(s, DoJobRead(s, p, id, kind), p, h);
    SparesPut(s, DoJobTx(s, p, f), p, h);
  }

  lemma PaySpares(s: State, p: nat, id: Uuid, clock: int, offer: string, f: Fault, h: nat)
    requires h != p
    ensures Spares(s, DoPayRead(s, p, id, clock), h) && Spares(s, DoPayGateway(s, p, offer), h) && Spares(s, DoPaySet(s, p, clock, f), h)
  {
    hide SetIntent, Payable, Spares;
    SparesPut(s, DoPayRead(s, p, id, clock), p, h);
    SparesPut(s, DoPayGateway(s, p, offer), p, h);
    SparesPut(s, DoPaySet(s, p, clock, f), p, h);
  }

  lemma OutcomeSpares(s: State, p: nat, r: DbResult, id: Uuid, f: Fault, h: nat)
    requires AtHook(s, p) && h != p
    ensures Spares(s, HookOutcome(s, p, r, id, f), h)
  {
    hide Spares;
    SparesPut(s, HookOutcome(s, p, r, id, f), p, h);
  }

  lemma HookTxSpares(s: State, p: nat, clock: int, f: Fault, h: nat)
    requires h != p
    ensures Spares(s, DoHookTx(s, p, clock, f), h)
  {
    hide PayTx, FailTx, HookOutcome;
    if AtHook(s, p) {
      match s.procs[p].hpc {
        case HPay(o, began) => OutcomeSpares(s, p, PayTx(s.db, o, s.procs[p].env.intent, began, clock), o.id, f, h);
        case HLate(o) => OutcomeSpares(s, p, FailTx(s.db, o, Expired), o.id, f, h);
        case HFail(o) => OutcomeSpares(s, p, FailTx(s.db, o, PaymentFailed), o.id, f, h);
        case _ =>
      }
    }
  }

  lemma OwnerlessIntake(s: State, a: Action)
    requires OwnerOf(a).None? && IsIntakeAction(a)
    ensures Next(s, a).procs == s.procs
  {
    hide Deduct, Revert, MsgOf, Reserve, BookTx, DoKafkaDeduct, DoKafkaPublish, DoKafkaRevert;
  }

  lemma Ownerless(s: State, a: Action)
    requires OwnerOf(a).None? && !IsIntakeAction(a)
    ensures Next(s, a).procs == s.procs
  {
    hide MarkProcessed, Transition, Overdue, DoBookStream, DoWorkerTx, DoWorkerGiveUp, DoWorkerAck;
  }

  lemma IntakeForeign(s: State, a: Action, h: nat)
    requires OwnerOf(a) != Some(h) && (a.KafkaDeduct? || a.KafkaPublish? || a.KafkaRevert? || a.Crash?)
    ensures Spares(s, Next(s, a), h)
  {
    hide Spares, DoKafkaDeduct, DoKafkaPublish, DoKafkaRevert, DoCrash;
    match a {
      case KafkaDeduct(p, tt, q, user, until, f) => KafkaSpares(s, p, tt, q, user, until, f, h);
      case KafkaPublish(p, f) => KafkaSpares(s, p, 0, 0, 0, 0, f, h);
      case KafkaRevert(p, f) => KafkaSpares(s, p, 0, 0, 0, 0, f, h);
      case Crash(p) => CallSpares(s, p, 0, h);
      case _ =>
    }
  }

  lemma SagaForeign(s: State, a: Action, h: nat)
    requires OwnerOf(a).Some? && OwnerOf(a) != Some(h) && IsSagaAction(a)
    ensures Spares(s, Next(s, a), h)
  {
    hide Spares, DoCompRead, DoCompWrite, DoCompCheck, DoCompRevert, DoCompMark, DoCompFinish, DoDeliver, DoWatch;
    match a {
      case Deliver(p, n) => CallSpares(s, p, n, h);
      case Watch(p, n) => CallSpares(s, p, n, h);
      case CompRead(p, f) => CompReadSpares(s, p, f, h);
      case CompWrite(p, f) => CompSpares(s, p, f, h);
      case CompCheck(p, f) => CompSpares(s, p, f, h);
      case CompRevert(p, f) => CompEndSpares(s, p, f, h);
      case CompMark(p, f) => CompEndSpares(s, p, f, h);
      case CompFinish(p) => CompEndSpares(s, p, Clean, h);
      case _ =>
    }
  }

  lemma HookForeign(s: State, a: Action, h: nat)
    requires OwnerOf(a) != Some(h) && (a.HookStart? || a.HookResolve?)
    ensures Spares(s, Next(s, a), h)
  {
    hide Spares, DoHookStart, DoHookResolve;
    match a {
      case HookStart(p, env, live) => HookSpares(s, p, env, live, None, Clean, h);
      case HookResolve(p, hit, f) => HookSpares(s, p, Envelope(Unsupported, false, "", None), false, hit, f, h);
      case _ =>
    }
  }

  lemma HookEndForeign(s: State, a: Action, h: nat)
    requires OwnerOf(a) != Some(h) && (a.HookRead? || a.HookBegin? || a.HookTx? || a.HookRecheck? || a.HookFinish?)
    ensures Spares(s, Next(s, a), h)
  {
    hide Spares, DoHookRead, DoHookBegin, DoHookTx, DoHookRecheck, DoHookFinish;
    match a {
      case HookRead(p, clock, f) => HookReadSpares(s, p, clock, f, h);
      case HookBegin(p, f) => HookEndSpares(s, p, f, h);
      case HookTx(p, clock, f) => HookTxSpares(s, p, clock, f, h);
      case HookRecheck(p, f) => HookEndSpares(s, p, f, h);
      case HookFinish(p) => HookEndSpares(s, p, Clean, h);
      case _ =>
    }
  }

  lemma RestForeign(s: State, a: Action, h: nat)
    requires OwnerOf(a) != Some(h) && (a.JobRead? || a.JobTx? || a.PayRead? || a.PayGateway? || a.PaySet?)
    ensures Spares(s, Next(s, a), h)
  {
    hide Spares, DoJobRead, DoJobTx, DoPayRead, DoPayGateway, DoPaySet;
    match a {
      case JobRead(p, id, kind) => JobSpares(s, p, id, kind, Clean, h);
      case JobTx(p, f) => JobSpares(s, p, 0, Expire, f, h);
      case PayRead(p, id, clock) => PaySpares(s, p, id, clock, "", Clean, h);
      case PayGateway(p, offer) => PaySpares(s, p, 0, 0, offer, Clean, h);
      case PaySet(p, clock, f) => PaySpares(s, p, 0, clock, "", f, h);
      case _ =>
    }
  }

  /** Whatever others do, a handler stays where it is until its own next step. */
  lemma ForeignSpares(s: State, a: Action, h: nat)
    requires OwnerOf(a) != Some(h)
    ensures Spares(s, Next(s, a), h)
  {
    hide Spares, Next;
    if OwnerOf(a).None? {
      if IsIntakeAction(a) { OwnerlessIntake(s, a); } else { Ownerless(s, a); }
      SparesStill(s, Next(s, a), h);
    }
    else if IsSagaAction(a) { SagaForeign(s, a, h); }
    else if a.HookStart? || a.HookResolve? { HookForeign(s, a, h); }
    else if IsHookAction(a) { HookEndForeign(s, a, h); }
    else if IsIntakeAction(a) || a.Crash? { IntakeForeign(s, a, h); }
    else { RestForeign(s, a, h); }
  }

  ghost predicate ForeignTo(acts: seq<Action>, h: nat) {
    forall k :: 0 <= k < |acts| ==> OwnerOf(acts[k]) != Some(h)
  }

  lemma {:induction false} ForeignRun(s: State, acts: seq<Action>, h: nat)
    requires ForeignTo(acts, h)
    ensures Spares(s, Run(s, acts), h)
    decreases |acts|
  {
    hide Next, OwnerOf;
    if acts != [] {
      ForeignSpares(s, acts[0], h);
      ForeignRun(Next(s, acts[0]), acts[1..], h);
    }
  }
}
