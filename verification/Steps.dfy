/** What each action does, handler by handler: the named step, without the others in sight. */
module Steps {
  import opened Domain
  import opened Options
  import opened Store
  import opened Protocol

  lemma StreamStep(s: State, tt: Uuid, quantity: int, user: int, until: int)
    ensures Next(s, BookStream(tt, quantity, user, until)) == DoBookStream(s, tt, quantity, user, until)
  {
    hide DoBookStream;
  }

  lemma DeductStep(s: State, p: nat, tt: Uuid, quantity: int, user: int, until: int, f: Fault)
    ensures Next(s, KafkaDeduct(p, tt, quantity, user, until, f)) == DoKafkaDeduct(s, p, tt, quantity, user, until, f)
  {
    hide DoKafkaDeduct;
  }

  lemma PublishSteps(s: State, p: nat, f: Fault)
    ensures Next(s, KafkaPublish(p, f)) == DoKafkaPublish(s, p, f) && Next(s, KafkaRevert(p, f)) == DoKafkaRevert(s, p, f)
  {
    hide DoKafkaPublish, DoKafkaRevert;
  }

  lemma RepairStep(s: State, tt: Uuid, m: Meta)
    ensures Next(s, RepairMeta(tt, m)) == s.(redis := s.redis.(meta := s.redis.meta[tt := m]))
  {}

  lemma WorkerSteps(s: State, id: Uuid, clock: int, f: Fault)
    ensures Next(s, WorkerTx(id, clock, f)) == DoWorkerTx(s, id, clock, f) && Next(s, WorkerGiveUp(id, f)) == DoWorkerGiveUp(s, id, f)
  {
    hide DoWorkerTx, DoWorkerGiveUp;
  }

  lemma PublishRowStep(s: State, row: nat)
    ensures Next(s, RelayPublish(row)) == DoRelayPublish(s, row)
  {
    hide DoRelayPublish;
  }

  lemma WatchStep(s: State, p: nat, id: Uuid)
    ensures Next(s, Watch(p, id)) == DoWatch(s, p, id)
  {
    hide DoWatch;
  }

  lemma FirstActions(s: State, p: nat, f: Fault, n: nat)
    ensures Next(s, Deliver(p, n)) == DoDeliver(s, p, n) && Next(s, CompRead(p, f)) == DoCompRead(s, p, f)
    ensures Next(s, CompWrite(p, f)) == DoCompWrite(s, p, f)
  {
    hide DoDeliver, DoCompRead, DoCompWrite;
  }

  lemma CheckActions(s: State, p: nat, f: Fault)
    ensures Next(s, CompCheck(p, f)) == DoCompCheck(s, p, f) && Next(s, CompRevert(p, f)) == DoCompRevert(s, p, f)
  {
    hide DoCompCheck, DoCompRevert;
  }

  lemma MarkActions(s: State, p: nat, f: Fault)
    ensures Next(s, CompMark(p, f)) == DoCompMark(s, p, f) && Next(s, CompFinish(p)) == DoCompFinish(s, p)
  {
    hide DoCompMark, DoCompFinish;
  }

  lemma LastActions(s: State, p: nat, f: Fault)
    ensures Next(s, CompCheck(p, f)) == DoCompCheck(s, p, f) && Next(s, CompRevert(p, f)) == DoCompRevert(s, p, f)
    ensures Next(s, CompMark(p, f)) == DoCompMark(s, p, f) && Next(s, CompFinish(p)) == DoCompFinish(s, p)
  {
    hide Next, DoCompCheck, DoCompRevert, DoCompMark, DoCompFinish;
    CheckActions(s, p, f);
    MarkActions(s, p, f);
  }

  lemma HookStartStep(s: State, p: nat, env: Envelope, expectLive: bool)
    ensures Next(s, HookStart(p, env, expectLive)) == DoHookStart(s, p, env, expectLive)
  {
    hide DoHookStart;
  }

  lemma HookReadSteps(s: State, p: nat, hit: Option<Uuid>, clock: int, f: Fault)
    ensures Next(s, HookResolve(p, hit, f)) == DoHookResolve(s, p, hit, f) && Next(s, HookRead(p, clock, f)) == DoHookRead(s, p, clock, f)
  {
    hide DoHookResolve, DoHookRead;
  }

  lemma HookEndSteps(s: State, p: nat, clock: int, f: Fault)
    ensures Next(s, HookBegin(p, f)) == DoHookBegin(s, p, f) && Next(s, HookTx(p, clock, f)) == DoHookTx(s, p, clock, f)
    ensures Next(s, HookRecheck(p, f)) == DoHookRecheck(s, p, f)
  {
    hide DoHookBegin, DoHookTx, DoHookRecheck;
  }

  lemma HookFinishStep(s: State, p: nat)
    ensures Next(s, HookFinish(p)) == DoHookFinish(s, p)
  {
    hide DoHookFinish;
  }

  lemma SweepSteps(s: State, d: nat, ids: set<Uuid>, grace: nat)
    ensures Next(s, Tick(d)) == s.(now := s.now + d) && Next(s, Find(ids, grace)) == DoFind(s, ids, grace)
  {
    hide DoFind;
  }

  lemma JobSteps(s: State, p: nat, id: Uuid, kind: JobKind, f: Fault)
    ensures Next(s, JobRead(p, id, kind)) == DoJobRead(s, p, id, kind) && Next(s, JobTx(p, f)) == DoJobTx(s, p, f)
  {
    hide DoJobRead, DoJobTx;
  }

  lemma PayOpenSteps(s: State, p: nat, id: Uuid, clock: int, offer: string)
    ensures Next(s, PayRead(p, id, clock)) == DoPayRead(s, p, id, clock) && Next(s, PayGateway(p, offer)) == DoPayGateway(s, p, offer)
  {
    hide DoPayRead, DoPayGateway;
  }

  lemma PaySetStep(s: State, p: nat, clock: int, f: Fault)
    ensures Next(s, PaySet(p, clock, f)) == DoPaySet(s, p, clock, f)
  {
    hide DoPaySet;
  }

  lemma ConfirmStep(s: State, id: Uuid)
    ensures Next(s, Confirm(id)) == DoConfirm(s, id)
  {
    hide DoConfirm;
  }

  lemma CrashStep(s: State, p: nat)
    ensures Next(s, Crash(p)) == DoCrash(s, p)
  {
    hide DoCrash;
  }

  lemma GuardStep(s: State, key: GuardKey)
    ensures Next(s, GuardLost(key)) == DoGuardLost(s, key)
  {
    hide DoGuardLost;
  }
}
