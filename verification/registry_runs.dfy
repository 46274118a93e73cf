/**
 Every interleaving of spawners, reapers, local joiners and sealers of one
 thread registry. One action is one lock-held region, one OS event, or one
 notification; condition variables are the frames that are asleep.
 */
module RegistryRuns {
  import opened Base
  import opened Registry

  /** One activation of `spawn_inner`, `seal_and_join` or `ThreadHandle::join`. */
  type Call = nat

  datatype Life = Running | Exited | Panicked

  /** `JoinState`: the OS handle is present, taken by one joiner, or its result is known. */
  datatype JoinState = HandleHeld | HandleTaken(owner: Call) | Joined(ok: bool)

  /** History: who is responsible for reporting this thread to the final result. */
  datatype Custody = Starting(c: Call) | InVector | JoiningBy(c: Call) | Collected

  datatype Thread = Thread(life: Life, join: JoinState, custody: Custody)

  datatype Purpose = Reap | Seal | Local

  /** Inside `ThreadHandle::join`: before the lock, in the OS join, or asleep. */
  datatype Phase = Entering | Blocking | Waiting

  datatype Pc =
    | Spawning
    | Started(t: Tid)
    | Releasing
    | Notifying
    | SealCheck
    | SealAsleep
    | Joining(purpose: Purpose, todo: seq<Tid>, failed: bool, phase: Phase)
    | SealReturned(ok: bool)

  /** `me` is the registry thread executing the call, if it is one. */
  datatype Frame = Frame(me: Option<Tid>, pc: Pc)

  /**
   History: `sealer` is the call that began the final join, `selfJoined` records
   whether a reaper or sealer met its own thread.
   */
  datatype System = System(
    threads: map<Tid, Thread>,
    reg: RegistryState,
    calls: map<Call, Frame>,
    sealer: Option<Call>,
    selfJoined: bool)

  const INITIAL := System(map[], EMPTY_REGISTRY, map[], None, false)

  datatype Action =
    | ReapFirst(c: Call, me: Option<Tid>, finished: set<Tid>)
    | Reserve(c: Call, me: Option<Tid>, reap: bool, finished: set<Tid>)
    | ReapDone(c: Call)
    | SpawnOk(c: Call, t: Tid)
    | SpawnFails(c: Call)
    | PushHandle(c: Call)
    | Release(c: Call)
    | Notify(c: Call)
    | SealCall(c: Call, me: Option<Tid>)
    | SealObserve(c: Call)
    | SealBegin(c: Call)
    | SealSleep(c: Call)
    | SealPublish(c: Call)
    | Wake(c: Call)
    | JoinSelf(c: Call)
    | JoinKnown(c: Call)
    | JoinTake(c: Call)
    | JoinWait(c: Call)
    | JoinReturn(c: Call)
    | LocalJoin(c: Call, me: Option<Tid>, t: Tid)
    | LocalDone(c: Call)
    | ThreadEnds(t: Tid, panicked: bool)

  predicate IsStarter(f: Frame) { f.pc.Spawning? || f.pc.Started? || f.pc.Releasing? }

  predicate IsReaper(f: Frame) { f.pc.Joining? && f.pc.purpose.Reap? }

  predicate IsSealJoiner(f: Frame) { f.pc.Joining? && f.pc.purpose.Seal? }

  function Starters(calls: map<Call, Frame>): (r: set<Call>) { set c | c in calls && IsStarter(calls[c]) }

  function Reapers(calls: map<Call, Frame>): (r: set<Call>) { set c | c in calls && IsReaper(calls[c]) }

  /** A reaper or sealer that already knows of a failure. */
  predicate Carries(f: Frame) { f.pc.Joining? && !f.pc.purpose.Local? && f.pc.failed }

  predicate IsJoining(s: System, c: Call) { c in s.calls && s.calls[c].pc.Joining? }

  predicate Drained(s: System, c: Call, p: Purpose)
  {
    IsJoining(s, c) && s.calls[c].pc.purpose == p && s.calls[c].pc.todo == []
  }

  predicate AtHead(s: System, c: Call, phase: Phase)
  {
    && IsJoining(s, c) && s.calls[c].pc.phase == phase
    && s.calls[c].pc.todo != [] && s.calls[c].pc.todo[0] in s.threads
  }

  predicate CallerAlive(s: System, me: Option<Tid>)
  {
    me.Some? ==> me.value in s.threads && s.threads[me.value].life.Running?
  }

  /** What `is_finished` may answer while the registry lock is held: only threads that are over. */
  predicate SeenFinished(s: System, finished: set<Tid>)
  {
    forall t :: t in finished ==> t in s.threads && !s.threads[t].life.Running?
  }

  predicate SealChecks(s: System, c: Call) { c in s.calls && s.calls[c].pc.SealCheck? }

  /** The handle a joiner is about to look at, which is not its own thread. */
  predicate EntersOther(s: System, c: Call)
  {
    AtHead(s, c, Entering) && s.calls[c].me != Some(s.calls[c].pc.todo[0])
  }

  function HeadJoin(s: System, c: Call): (r: JoinState)
    requires IsJoining(s, c) && s.calls[c].pc.todo != [] && s.calls[c].pc.todo[0] in s.threads
  {
    s.threads[s.calls[c].pc.todo[0]].join
  }

  predicate Enabled(s: System, a: Action)
  {
    match a
    case ReapFirst(c, me, finished) =>
      c !in s.calls && CallerAlive(s, me) && SeenFinished(s, finished) && Admit(s.reg, true, finished).1.MustReap?
    case Reserve(c, me, reap, finished) =>
      c !in s.calls && CallerAlive(s, me) && SeenFinished(s, finished) && Admit(s.reg, reap, finished).1.Reserved?
    case ReapDone(c) => Drained(s, c, Reap) && s.reg.reaping > 0
    case SpawnOk(c, t) => c in s.calls && s.calls[c].pc.Spawning? && t !in s.threads
    case SpawnFails(c) => c in s.calls && s.calls[c].pc.Spawning?
    case PushHandle(c) => c in s.calls && s.calls[c].pc.Started?
    case Release(c) => c in s.calls && s.calls[c].pc.Releasing? && s.reg.starting > 0
    case Notify(c) => c in s.calls && s.calls[c].pc.Notifying?
    case SealCall(c, me) => c !in s.calls && CallerAlive(s, me)
    case SealObserve(c) => SealChecks(s, c) && Examine(s.reg).1.Finished?
    case SealBegin(c) => SealChecks(s, c) && Examine(s.reg).1.JoinAll?
    case SealSleep(c) => SealChecks(s, c) && Examine(s.reg).1.Wait?
    case SealPublish(c) => Drained(s, c, Seal)
    case Wake(c) => c in s.calls && (s.calls[c].pc.SealAsleep? || (IsJoining(s, c) && s.calls[c].pc.phase.Waiting?))
    case JoinSelf(c) => AtHead(s, c, Entering) && s.calls[c].me == Some(s.calls[c].pc.todo[0])
    case JoinKnown(c) => EntersOther(s, c) && HeadJoin(s, c).Joined?
    case JoinTake(c) => EntersOther(s, c) && HeadJoin(s, c).HandleHeld?
    case JoinWait(c) => EntersOther(s, c) && HeadJoin(s, c).HandleTaken?
    case JoinReturn(c) => AtHead(s, c, Blocking) && !s.threads[s.calls[c].pc.todo[0]].life.Running?
    case LocalJoin(c, me, t) => c !in s.calls && CallerAlive(s, me) && t in s.threads
    case LocalDone(c) => Drained(s, c, Local)
    case ThreadEnds(t, panicked) =>
      && t in s.threads && s.threads[t].life.Running?
      && forall c :: c in s.calls ==> s.calls[c].me != Some(t)
  }

  /** `changed.notify_all()` of the registry. */
  function WakeSealers(calls: map<Call, Frame>): (r: map<Call, Frame>)
  {
    map c | c in calls :: if calls[c].pc.SealAsleep? then calls[c].(pc := SealCheck) else calls[c]
  }

  predicate WaitsFor(f: Frame, t: Tid)
  {
    f.pc.Joining? && f.pc.phase.Waiting? && f.pc.todo != [] && f.pc.todo[0] == t
  }

  /** `changed.notify_all()` of one thread handle. */
  function WakeJoiners(calls: map<Call, Frame>, t: Tid): (r: map<Call, Frame>)
  {
    map c | c in calls :: if WaitsFor(calls[c], t) then calls[c].(pc := calls[c].pc.(phase := Entering)) else calls[c]
  }

  function Assign(threads: map<Tid, Thread>, ids: seq<Tid>, custody: Custody): (r: map<Tid, Thread>)
  {
    map t | t in threads :: if t in ids then threads[t].(custody := custody) else threads[t]
  }

  function SetPc(s: System, c: Call, pc: Pc): (r: System)
    requires c in s.calls
  {
    s.(calls := s.calls[c := s.calls[c].(pc := pc)])
  }

  /** `failed |= handle.join().is_err()` for the first handle of the list. */
  function PopHead(s: System, c: Call, join: JoinState, ok: bool): (r: System)
    requires IsJoining(s, c) && s.calls[c].pc.todo != [] && s.calls[c].pc.todo[0] in s.threads
  {
    var pc := s.calls[c].pc;
    var t := pc.todo[0];
    var popped := pc.(todo := pc.todo[1..], failed := pc.failed || !ok, phase := Entering);
    var custody := if pc.purpose.Local? then s.threads[t].custody else Collected;
    SetPc(s, c, popped).(threads := s.threads[t := s.threads[t].(join := join, custody := custody)])
  }

  function Apply(s: System, a: Action): (r: System)
    requires Enabled(s, a)
  {
    match a
    case ReapFirst(c, me, finished) =>
      var (reg, admission) := Admit(s.reg, true, finished);
      s.(reg := reg,
      calls := s.calls[c := Frame(me, Joining(Reap, admission.retired, false, Entering))],
      threads := Assign(s.threads, admission.retired, JoiningBy(c)))
    case Reserve(c, me, reap, finished) =>
      s.(reg := Admit(s.reg, reap, finished).0, calls := s.calls[c := Frame(me, Spawning)])
    case ReapDone(c) =>
      var (reg, admission) := FinishReap(s.reg, s.calls[c].pc.failed);
      var woken := WakeSealers(s.calls);
      s.(reg := reg, calls := if admission.Refused? then woken - {c} else woken[c := Frame(s.calls[c].me, Spawning)])
    case SpawnOk(c, t) =>
      SetPc(s, c, Pc.Started(t)).(threads := s.threads[t := Thread(Running, HandleHeld, Starting(c))])
    case SpawnFails(c) => SetPc(s, c, Releasing)
    case PushHandle(c) =>
      var t := s.calls[c].pc.t;
      SetPc(s, c, Releasing).(reg := Push(s.reg, t), threads := Assign(s.threads, [t], InVector))
    case Release(c) => SetPc(s, c, Notifying).(reg := ReleaseStart(s.reg))
    case Notify(c) => s.(calls := WakeSealers(s.calls) - {c})
    case SealCall(c, me) => s.(reg := s.reg.(sealed := true), calls := s.calls[c := Frame(me, SealCheck)])
    case SealObserve(c) => s.(calls := s.calls[c := Frame(None, SealReturned(Examine(s.reg).1.ok))])
    case SealBegin(c) =>
      var (reg, decision) := Examine(s.reg);
      SetPc(s, c, Joining(Seal, decision.threads, decision.failed, Entering)).
      (reg := reg, threads := Assign(s.threads, decision.threads, JoiningBy(c)), sealer := Some(c))
    case SealSleep(c) => SetPc(s, c, SealAsleep)
    case SealPublish(c) =>
      var failed := s.calls[c].pc.failed;
      s.(reg := Publish(s.reg, failed), calls := WakeSealers(s.calls)[c := Frame(None, SealReturned(!failed))])
    case Wake(c) =>
      SetPc(s, c, if s.calls[c].pc.SealAsleep? then SealCheck else s.calls[c].pc.(phase := Entering))
    case JoinSelf(c) =>
      PopHead(s, c, HeadJoin(s, c), false).(selfJoined := s.selfJoined || !s.calls[c].pc.purpose.Local?)
    case JoinKnown(c) => PopHead(s, c, HeadJoin(s, c), HeadJoin(s, c).ok)
    case JoinTake(c) =>
      var t := s.calls[c].pc.todo[0];
      SetPc(s, c, s.calls[c].pc.(phase := Blocking)).(threads := s.threads[t := s.threads[t].(join := HandleTaken(c))])
    case JoinWait(c) => SetPc(s, c, s.calls[c].pc.(phase := Waiting))
    case JoinReturn(c) =>
      var t := s.calls[c].pc.todo[0];
      var ok := s.threads[t].life.Exited?;
      PopHead(s.(calls := WakeJoiners(s.calls, t)), c, Joined(ok), ok)
    case LocalJoin(c, me, t) => s.(calls := s.calls[c := Frame(me, Joining(Local, [t], false, Entering))])
    case LocalDone(c) => s.(calls := s.calls - {c})
    case ThreadEnds(t, panicked) =>
      s.(threads := s.threads[t := s.threads[t].(life := if panicked then Panicked else Exited)])
  }

  // ---------------------------------------------------------------- invariants

  ghost predicate FrameOk(s: System, c: Call)
    requires c in s.calls
  {
    var pc := s.calls[c].pc;
    && (pc.Started? ==> pc.t in s.threads)
    && (pc.Joining? ==>
          && (forall t :: t in pc.todo ==> t in s.threads)
          && (!pc.phase.Entering? ==> pc.todo != [])
          && (pc.phase.Blocking? ==> s.threads[pc.todo[0]].join == HandleTaken(c))
          && (pc.phase.Waiting? ==> s.threads[pc.todo[0]].join.HandleTaken?))
    && (pc.SealReturned? ==> s.reg.result == Some(pc.ok))
  }

  ghost predicate ThreadOk(s: System, t: Tid)
    requires t in s.threads
  {
    match s.threads[t].join
    case HandleHeld => true
    case HandleTaken(c) =>
      IsJoining(s, c) && s.calls[c].pc.phase.Blocking? && s.calls[c].pc.todo != [] && s.calls[c].pc.todo[0] == t
    case Joined(ok) => !s.threads[t].life.Running? && (ok <==> s.threads[t].life.Exited?)
  }

  /** Handles, joiners and the vector are consistent; sleeping joiners have an owner at work. */
  ghost predicate HandlesOk(s: System)
  {
    && (forall c :: c in s.calls ==> FrameOk(s, c))
    && (forall t :: t in s.threads ==> ThreadOk(s, t))
    && (forall t :: t in s.reg.threads ==> t in s.threads)
  }

  /** The two counters count frames, so zero really means nobody. */
  ghost predicate CountersOk(s: System)
  {
    && s.reg.starting == |Starters(s.calls)|
    && s.reg.reaping == |Reapers(s.calls)|
  }

  /** One sealer at most performs the final join, and nothing starts from then on. */
  ghost predicate SealOk(s: System)
  {
    && (s.reg.joining ==> s.reg.sealed && s.reg.starting == 0 && s.reg.reaping == 0 && s.reg.threads == [])
    && (s.reg.result.Some? ==> s.reg.joining)
    && (forall c :: c in s.calls && IsSealJoiner(s.calls[c]) ==>
          s.reg.joining && s.reg.result.None? && s.sealer == Some(c) && (s.reg.failed ==> s.calls[c].pc.failed))
    && (s.reg.joining && s.reg.result.None? ==>
          s.sealer.Some? && s.sealer.value in s.calls && IsSealJoiner(s.calls[s.sealer.value]))
    && (forall c :: c in s.calls && (s.calls[c].pc.SealCheck? || s.calls[c].pc.SealAsleep?) ==> s.reg.sealed)
    && (s.reg.result == Some(true) ==> !s.reg.failed)
  }

  ghost predicate FailureNoted(s: System)
  {
    s.reg.failed || s.reg.result == Some(false) || exists c :: c in s.calls && Carries(s.calls[c])
  }

  ghost predicate CustodyOk(s: System, t: Tid)
    requires t in s.threads
  {
    match s.threads[t].custody
    case Starting(c) => c in s.calls && s.calls[c].pc == Pc.Started(t)
    case InVector => t in s.reg.threads
    case JoiningBy(c) => IsJoining(s, c) && !s.calls[c].pc.purpose.Local? && t in s.calls[c].pc.todo
    case Collected =>
      && (s.threads[t].join == Joined(true) || FailureNoted(s))
      && (s.threads[t].join.Joined? || s.selfJoined)
  }

  /** Every thread ever started is somebody's responsibility until it was reported. */
  ghost predicate AllAccounted(s: System)
  {
    forall t :: t in s.threads ==> CustodyOk(s, t)
  }

  /** A sealer asleep although it could proceed still has a notification coming. */
  ghost predicate WakeupOk(s: System)
  {
    forall c :: c in s.calls && s.calls[c].pc.SealAsleep? && SealReady(s.reg) ==>
      exists d :: d in s.calls && s.calls[d].pc.Notifying?
  }

  /** Somebody is to blame: a thread panicked, or a registry thread retired itself. */
  ghost predicate Culprit(s: System)
  {
    s.selfJoined || exists t :: t in s.threads && s.threads[t].life.Panicked?
  }

  ghost predicate BlameOk(s: System)
  {
    (FailureNoted(s) ==> Culprit(s)) && (s.selfJoined ==> FailureNoted(s))
  }

  ghost predicate Inv(s: System)
  {
    HandlesOk(s) && CountersOk(s) && SealOk(s) && AllAccounted(s) && WakeupOk(s) && BlameOk(s)
  }

  // -------------------------------------------------------------- preservation

  lemma HandlesReapFirst(s: System, c: Call, me: Option<Tid>, finished: set<Tid>)
    requires HandlesOk(s) && Enabled(s, ReapFirst(c, me, finished))
    ensures HandlesOk(Apply(s, ReapFirst(c, me, finished)))
  {
    SweepMembers(s.reg.threads, finished);
  }

  lemma HandlesReserve(s: System, c: Call, me: Option<Tid>, reap: bool, finished: set<Tid>)
    requires HandlesOk(s) && Enabled(s, Reserve(c, me, reap, finished))
    ensures HandlesOk(Apply(s, Reserve(c, me, reap, finished)))
  {
    SweepMembers(s.reg.threads, finished);
  }

  lemma HandlesReapDone(s: System, c: Call)
    requires HandlesOk(s) && Enabled(s, ReapDone(c))
    ensures HandlesOk(Apply(s, ReapDone(c)))
  {
  }

  lemma HandlesSpawnOk(s: System, c: Call, t: Tid)
    requires HandlesOk(s) && Enabled(s, SpawnOk(c, t))
    ensures HandlesOk(Apply(s, SpawnOk(c, t)))
  {
  }

  lemma HandlesPushHandle(s: System, c: Call)
    requires HandlesOk(s) && Enabled(s, PushHandle(c))
    ensures HandlesOk(Apply(s, PushHandle(c)))
  {
  }

  lemma HandlesRelease(s: System, a: Action)
    requires HandlesOk(s) && Enabled(s, a) && (a.SpawnFails? || a.Release? || a.Notify?)
    ensures HandlesOk(Apply(s, a))
  {
  }

  lemma HandlesSealCheck(s: System, a: Action)
    requires HandlesOk(s) && Enabled(s, a) && (a.SealCall? || a.SealObserve? || a.SealSleep?)
    ensures HandlesOk(Apply(s, a))
  {
  }

  lemma HandlesSealJoin(s: System, a: Action)
    requires HandlesOk(s) && Enabled(s, a) && (a.SealBegin? || a.SealPublish?) && s.reg.result.None?
    ensures HandlesOk(Apply(s, a))
  {
  }

  lemma HandlesWait(s: System, a: Action)
    requires HandlesOk(s) && Enabled(s, a) && (a.Wake? || a.JoinWait?)
    ensures HandlesOk(Apply(s, a))
  {
  }

  lemma HandlesLocal(s: System, a: Action)
    requires HandlesOk(s) && Enabled(s, a) && (a.LocalJoin? || a.LocalDone?)
    ensures HandlesOk(Apply(s, a))
  {
  }

  /** Popping a handle without touching its join state. */
  lemma HandlesPopped(s: System, c: Call, ok: bool)
    requires HandlesOk(s) && AtHead(s, c, Entering)
    ensures HandlesOk(PopHead(s, c, HeadJoin(s, c), ok))
  {
    assert FrameOk(s, c);
  }

  lemma HandlesJoinSelf(s: System, c: Call)
    requires HandlesOk(s) && Enabled(s, JoinSelf(c))
    ensures HandlesOk(Apply(s, JoinSelf(c)))
  {
    HandlesPopped(s, c, false);
    SelfJoinedAside(PopHead(s, c, HeadJoin(s, c), false), s.selfJoined || !s.calls[c].pc.purpose.Local?);
  }

  lemma SelfJoinedAside(s: System, b: bool)
    requires HandlesOk(s)
    ensures HandlesOk(s.(selfJoined := b))
  {
    var t := s.(selfJoined := b);
    forall c | c in t.calls ensures FrameOk(t, c) { assert FrameOk(s, c); }
    forall i | i in t.threads ensures ThreadOk(t, i) { assert ThreadOk(s, i); }
  }

  lemma HandlesJoinKnown(s: System, c: Call)
    requires HandlesOk(s) && Enabled(s, JoinKnown(c))
    ensures HandlesOk(Apply(s, JoinKnown(c)))
  {
    HandlesPopped(s, c, HeadJoin(s, c).ok);
  }

  lemma HandlesJoinTake(s: System, c: Call)
    requires HandlesOk(s) && Enabled(s, JoinTake(c))
    ensures HandlesOk(Apply(s, JoinTake(c)))
  {
  }

  lemma HandlesJoinReturn(s: System, c: Call)
    requires HandlesOk(s) && Enabled(s, JoinReturn(c))
    ensures HandlesOk(Apply(s, JoinReturn(c)))
  {
  }

  lemma HandlesThreadEnds(s: System, t: Tid, panicked: bool)
    requires HandlesOk(s) && Enabled(s, ThreadEnds(t, panicked))
    ensures HandlesOk(Apply(s, ThreadEnds(t, panicked)))
  {
  }

  predicate IsStarting(a: Action)
  {
    || a.ReapFirst? || a.Reserve? || a.ReapDone? || a.SpawnOk? || a.SpawnFails? || a.PushHandle? || a.Release?
    || a.Notify?
  }

  predicate IsSealing(a: Action) { a.SealCall? || a.SealObserve? || a.SealBegin? || a.SealSleep? || a.SealPublish? }

  predicate IsJoinMove(a: Action)
  {
    a.Wake? || a.JoinSelf? || a.JoinKnown? || a.JoinTake? || a.JoinWait? || a.JoinReturn? || a.LocalJoin?
    || a.LocalDone?
  }

  predicate IsPop(a: Action) { a.JoinSelf? || a.JoinKnown? || a.JoinReturn? }

  lemma HandlesStarting(s: System, a: Action)
    requires HandlesOk(s) && Enabled(s, a) && IsStarting(a)
    ensures HandlesOk(Apply(s, a))
  {
    match a
    case ReapFirst(c, me, finished) => HandlesReapFirst(s, c, me, finished);
    case Reserve(c, me, reap, finished) => HandlesReserve(s, c, me, reap, finished);
    case ReapDone(c) => HandlesReapDone(s, c);
    case SpawnOk(c, t) => HandlesSpawnOk(s, c, t);
    case PushHandle(c) => HandlesPushHandle(s, c);
    case _ => HandlesRelease(s, a);
  }

  lemma HandlesSealing(s: System, a: Action)
    requires HandlesOk(s) && Enabled(s, a) && IsSealing(a) && (a.SealPublish? ==> s.reg.result.None?)
    ensures HandlesOk(Apply(s, a))
  {
    if a.SealBegin? || a.SealPublish? { HandlesSealJoin(s, a); } else { HandlesSealCheck(s, a); }
  }

  lemma HandlesHead(s: System, a: Action)
    requires HandlesOk(s) && Enabled(s, a) && (IsPop(a) || a.JoinTake?)
    ensures HandlesOk(Apply(s, a))
  {
    match a
    case JoinSelf(c) => HandlesJoinSelf(s, c);
    case JoinKnown(c) => HandlesJoinKnown(s, c);
    case JoinTake(c) => HandlesJoinTake(s, c);
    case JoinReturn(c) => HandlesJoinReturn(s, c);
  }

  lemma HandlesJoining(s: System, a: Action)
    requires HandlesOk(s) && Enabled(s, a) && IsJoinMove(a)
    ensures HandlesOk(Apply(s, a))
  {
    if a.LocalJoin? || a.LocalDone? {
      HandlesLocal(s, a);
    } else if a.Wake? || a.JoinWait? {
      HandlesWait(s, a);
    } else {
      HandlesHead(s, a);
    }
  }

  lemma HandlesStep(s: System, a: Action)
    requires HandlesOk(s) && SealOk(s) && Enabled(s, a)
    ensures HandlesOk(Apply(s, a))
  {
    if IsStarting(a) {
      HandlesStarting(s, a);
    } else if IsSealing(a) {
      HandlesSealing(s, a);
    } else if IsJoinMove(a) {
      HandlesJoining(s, a);
    } else {
      HandlesThreadEnds(s, a.t, a.panicked);
    }
  }

  /** What an action of another call may do to a frame: at most wake it. */
  predicate Nudged(f: Frame, g: Frame)
  {
    || g == f
    || (f.pc.SealAsleep? && g == f.(pc := SealCheck))
    || (f.pc.Joining? && f.pc.phase.Waiting? && g == f.(pc := f.pc.(phase := Entering)))
  }

  lemma OthersNudged(s: System, a: Action)
    requires Enabled(s, a)
    ensures forall d :: a.ThreadEnds? || d != a.c ==>
              && (d in s.calls <==> d in Apply(s, a).calls)
              && (d in s.calls ==> Nudged(s.calls[d], Apply(s, a).calls[d]))
  {
  }

  /** Each counter moves exactly as the frame of call `c` enters or leaves the counted role. */
  predicate Balanced(s: System, s': System, c: Call)
  {
    && s'.reg.starting - One(c in s'.calls && IsStarter(s'.calls[c]))
       == s.reg.starting - One(c in s.calls && IsStarter(s.calls[c]))
    && s'.reg.reaping - One(c in s'.calls && IsReaper(s'.calls[c]))
       == s.reg.reaping - One(c in s.calls && IsReaper(s.calls[c]))
  }

  lemma StartingBalance(s: System, a: Action)
    requires Enabled(s, a) && IsStarting(a)
    ensures Balanced(s, Apply(s, a), a.c)
  {
  }

  lemma SealingBalance(s: System, a: Action)
    requires Enabled(s, a) && IsSealing(a)
    ensures Balanced(s, Apply(s, a), a.c)
  {
  }

  lemma JoiningBalance(s: System, a: Action)
    requires Enabled(s, a) && IsJoinMove(a)
    ensures Balanced(s, Apply(s, a), a.c)
  {
  }

  lemma RolesBalance(s: System, a: Action)
    requires Enabled(s, a) && !a.ThreadEnds?
    ensures Balanced(s, Apply(s, a), a.c)
  {
    if IsStarting(a) {
      StartingBalance(s, a);
    } else if IsSealing(a) {
      SealingBalance(s, a);
    } else {
      JoiningBalance(s, a);
    }
  }

  lemma RolesMove(before: map<Call, Frame>, after: map<Call, Frame>, c: Call)
    requires forall d :: d != c ==> (d in before <==> d in after) && (d in before ==> Nudged(before[d], after[d]))
    ensures |Starters(after)| - One(c in after && IsStarter(after[c]))
         == |Starters(before)| - One(c in before && IsStarter(before[c]))
    ensures |Reapers(after)| - One(c in after && IsReaper(after[c]))
         == |Reapers(before)| - One(c in before && IsReaper(before[c]))
  {
    SizeMoves(Starters(before), Starters(after), c);
    SizeMoves(Reapers(before), Reapers(after), c);
  }

  lemma CountersStep(s: System, a: Action)
    requires CountersOk(s) && Enabled(s, a)
    ensures CountersOk(Apply(s, a))
  {
    if !a.ThreadEnds? {
      OthersNudged(s, a);
      RolesBalance(s, a);
      RolesMove(s.calls, Apply(s, a).calls, a.c);
    }
  }

  /** Joining handles touches neither the registry nor who performs the final join. */
  lemma JoinMoves(s: System, a: Action)
    requires Enabled(s, a) && IsJoinMove(a)
    ensures Apply(s, a).reg == s.reg && Apply(s, a).sealer == s.sealer
    ensures a.c in s.calls && IsSealJoiner(s.calls[a.c]) <==>
            a.c in Apply(s, a).calls && IsSealJoiner(Apply(s, a).calls[a.c])
    ensures a.c in s.calls && IsSealJoiner(s.calls[a.c]) && s.calls[a.c].pc.failed ==> Apply(s, a).calls[a.c].pc.failed
    ensures a.c in Apply(s, a).calls ==> !Apply(s, a).calls[a.c].pc.SealAsleep?
    ensures a.c in Apply(s, a).calls && Apply(s, a).calls[a.c].pc.SealCheck? ==>
              a.c in s.calls && s.calls[a.c].pc.SealAsleep?
  {
  }

  lemma SealStepJoining(s: System, s': System, c: Call)
    requires SealOk(s)
    requires s'.reg == s.reg && s'.sealer == s.sealer
    requires forall d :: d != c ==>
               && (d in s.calls <==> d in s'.calls)
               && (d in s.calls ==> Nudged(s.calls[d], s'.calls[d]))
    requires c in s.calls && IsSealJoiner(s.calls[c]) <==> c in s'.calls && IsSealJoiner(s'.calls[c])
    requires c in s.calls && IsSealJoiner(s.calls[c]) && s.calls[c].pc.failed ==> s'.calls[c].pc.failed
    requires c in s'.calls ==> !s'.calls[c].pc.SealAsleep?
    requires c in s'.calls && s'.calls[c].pc.SealCheck? ==> c in s.calls && s.calls[c].pc.SealAsleep?
    ensures SealOk(s')
  {
  }

  predicate IsStart(a: Action) { a.SpawnOk? || a.SpawnFails? || a.PushHandle? || a.Release? }

  lemma SealStepSealing(s: System, a: Action)
    requires SealOk(s) && Enabled(s, a) && IsSealing(a)
    ensures SealOk(Apply(s, a))
  {
  }

  /** Admission and reaping happen before the final join, or are refused by the seal. */
  lemma SealStepAdmitting(s: System, a: Action)
    requires SealOk(s) && Enabled(s, a) && (a.ReapFirst? || a.Reserve? || a.ReapDone?)
    ensures SealOk(Apply(s, a))
  {
  }

  lemma SealStepStarting(s: System, a: Action)
    requires SealOk(s) && CountersOk(s) && Enabled(s, a) && IsStart(a)
    ensures SealOk(Apply(s, a))
  {
    if a.PushHandle? { assert a.c in Starters(s.calls); }
  }

  lemma SealStepNotify(s: System, c: Call)
    requires SealOk(s) && Enabled(s, Notify(c))
    ensures SealOk(Apply(s, Notify(c)))
  {
  }

  lemma SealStep(s: System, a: Action)
    requires SealOk(s) && CountersOk(s) && Enabled(s, a)
    ensures SealOk(Apply(s, a))
  {
    if IsSealing(a) {
      SealStepSealing(s, a);
    } else if IsJoinMove(a) {
      OthersNudged(s, a);
      JoinMoves(s, a);
      SealStepJoining(s, Apply(s, a), a.c);
    } else if IsStart(a) {
      SealStepStarting(s, a);
    } else if a.Notify? {
      SealStepNotify(s, a.c);
    } else if !a.ThreadEnds? {
      SealStepAdmitting(s, a);
    }
  }

  /** A sealer found asleep was asleep before, and no notification passed, or has just gone to sleep. */
  lemma SleeperBefore(s: System, a: Action, c: Call)
    requires Enabled(s, a) && c in Apply(s, a).calls && Apply(s, a).calls[c].pc.SealAsleep?
    ensures a == SealSleep(c) || (c in s.calls && s.calls[c].pc.SealAsleep?)
    ensures !a.Notify? && !a.ReapDone? && !a.SealPublish?
  {
  }

  lemma ReadyBefore(s: System, a: Action)
    requires Enabled(s, a) && !a.Release? && !a.ReapDone? && !a.SealPublish? && SealReady(Apply(s, a).reg)
    ensures SealReady(s.reg)
  {
  }

  lemma NotifierStays(s: System, a: Action, d: Call)
    requires Enabled(s, a) && !a.Notify? && d in s.calls && s.calls[d].pc.Notifying?
    ensures d in Apply(s, a).calls && Apply(s, a).calls[d].pc.Notifying?
  {
  }

  lemma WakeupStep(s: System, a: Action)
    requires WakeupOk(s) && Enabled(s, a)
    ensures WakeupOk(Apply(s, a))
  {
    var s' := Apply(s, a);
    forall c | c in s'.calls && s'.calls[c].pc.SealAsleep? && SealReady(s'.reg)
      ensures exists d :: d in s'.calls && s'.calls[d].pc.Notifying?
    {
      SleeperBefore(s, a, c);
      if a.Release? {
        assert s'.calls[a.c].pc.Notifying?;
      } else {
        ReadyBefore(s, a);
        var d :| d in s.calls && s.calls[d].pc.Notifying?;
        NotifierStays(s, a, d);
      }
    }
  }

  /** A failure once noticed by a reaper or sealer is never forgotten. */
  lemma FailureStays(s: System, a: Action)
    requires FailureNoted(s) && SealOk(s) && Enabled(s, a)
    ensures FailureNoted(Apply(s, a))
  {
    var s' := Apply(s, a);
    if !s.reg.failed && s.reg.result != Some(false) {
      var d :| d in s.calls && Carries(s.calls[d]);
      if d in s'.calls && Carries(s'.calls[d]) {
      } else {
        assert s'.reg.failed || s'.reg.result == Some(false);
      }
    }
  }

  lemma CustodyAdmit(s: System, a: Action, t: Tid)
    requires Enabled(s, a) && (a.ReapFirst? || a.Reserve?) && t in s.threads && CustodyOk(s, t)
    requires FailureNoted(s) ==> FailureNoted(Apply(s, a))
    ensures CustodyOk(Apply(s, a), t)
  {
    SweepMembers(s.reg.threads, a.finished);
  }

  lemma CustodyJoinSelf(s: System, c: Call, t: Tid)
    requires HandlesOk(s) && Enabled(s, JoinSelf(c)) && t in s.threads && CustodyOk(s, t)
    requires FailureNoted(s) ==> FailureNoted(Apply(s, JoinSelf(c)))
    ensures CustodyOk(Apply(s, JoinSelf(c)), t)
  {
    if Carries(Apply(s, JoinSelf(c)).calls[c]) { assert FailureNoted(Apply(s, JoinSelf(c))); }
  }

  lemma CustodyJoinKnown(s: System, c: Call, t: Tid)
    requires HandlesOk(s) && Enabled(s, JoinKnown(c)) && t in s.threads && CustodyOk(s, t)
    requires FailureNoted(s) ==> FailureNoted(Apply(s, JoinKnown(c)))
    ensures CustodyOk(Apply(s, JoinKnown(c)), t)
  {
    if Carries(Apply(s, JoinKnown(c)).calls[c]) { assert FailureNoted(Apply(s, JoinKnown(c))); }
  }

  lemma CustodyJoinReturn(s: System, c: Call, t: Tid)
    requires HandlesOk(s) && Enabled(s, JoinReturn(c)) && t in s.threads && CustodyOk(s, t)
    requires FailureNoted(s) ==> FailureNoted(Apply(s, JoinReturn(c)))
    ensures CustodyOk(Apply(s, JoinReturn(c)), t)
  {
    if Carries(Apply(s, JoinReturn(c)).calls[c]) { assert FailureNoted(Apply(s, JoinReturn(c))); }
  }

  lemma CustodyPop(s: System, a: Action, t: Tid)
    requires HandlesOk(s) && Enabled(s, a) && IsPop(a) && t in s.threads && CustodyOk(s, t)
    requires FailureNoted(s) ==> FailureNoted(Apply(s, a))
    ensures CustodyOk(Apply(s, a), t)
  {
    match a
    case JoinSelf(c) => CustodyJoinSelf(s, c, t);
    case JoinKnown(c) => CustodyJoinKnown(s, c, t);
    case JoinReturn(c) => CustodyJoinReturn(s, c, t);
  }

  lemma CustodySeal(s: System, a: Action, t: Tid)
    requires Enabled(s, a) && IsSealing(a) && t in s.threads && CustodyOk(s, t)
    requires FailureNoted(s) ==> FailureNoted(Apply(s, a))
    ensures CustodyOk(Apply(s, a), t)
  {
  }

  predicate IsAnnounce(a: Action) { a.ReapDone? || a.Notify? }

  lemma CustodyStart(s: System, a: Action, t: Tid)
    requires Enabled(s, a) && IsStart(a) && t in Apply(s, a).threads && (t in s.threads ==> CustodyOk(s, t))
    requires FailureNoted(s) ==> FailureNoted(Apply(s, a))
    ensures CustodyOk(Apply(s, a), t)
  {
  }

  lemma CustodyAnnounce(s: System, a: Action, t: Tid)
    requires Enabled(s, a) && IsAnnounce(a) && t in s.threads && CustodyOk(s, t)
    requires FailureNoted(s) ==> FailureNoted(Apply(s, a))
    ensures t in Apply(s, a).threads && CustodyOk(Apply(s, a), t)
  {
  }

  lemma CustodyLocal(s: System, a: Action, t: Tid)
    requires Enabled(s, a) && (a.LocalJoin? || a.LocalDone? || a.ThreadEnds?) && t in s.threads && CustodyOk(s, t)
    requires FailureNoted(s) ==> FailureNoted(Apply(s, a))
    ensures t in Apply(s, a).threads && CustodyOk(Apply(s, a), t)
  {
  }

  lemma CustodyMove(s: System, a: Action, t: Tid)
    requires Enabled(s, a) && (a.Wake? || a.JoinTake? || a.JoinWait?) && t in s.threads && CustodyOk(s, t)
    requires FailureNoted(s) ==> FailureNoted(Apply(s, a))
    ensures t in Apply(s, a).threads && CustodyOk(Apply(s, a), t)
  {
  }

  lemma CustodyAt(s: System, a: Action, t: Tid)
    requires HandlesOk(s) && Enabled(s, a) && t in Apply(s, a).threads && (t in s.threads ==> CustodyOk(s, t))
    requires FailureNoted(s) ==> FailureNoted(Apply(s, a))
    ensures CustodyOk(Apply(s, a), t)
  {
    if IsStart(a) {
      CustodyStart(s, a, t);
    } else {
      ThreadKnown(s, a, t);
      if a.ReapFirst? || a.Reserve? {
        CustodyAdmit(s, a, t);
      } else if IsPop(a) {
        CustodyPop(s, a, t);
      } else if IsSealing(a) {
        CustodySeal(s, a, t);
      } else if IsAnnounce(a) {
        CustodyAnnounce(s, a, t);
      } else if a.LocalJoin? || a.LocalDone? || a.ThreadEnds? {
        CustodyLocal(s, a, t);
      } else {
        CustodyMove(s, a, t);
      }
    }
  }

  lemma ThreadKnown(s: System, a: Action, t: Tid)
    requires Enabled(s, a) && !a.SpawnOk? && t in Apply(s, a).threads
    ensures t in s.threads
  {
  }

  lemma CustodyStep(s: System, a: Action)
    requires Inv(s) && Enabled(s, a)
    ensures AllAccounted(Apply(s, a))
  {
    if FailureNoted(s) { FailureStays(s, a); }
    forall t | t in Apply(s, a).threads ensures CustodyOk(Apply(s, a), t) { CustodyAt(s, a, t); }
  }

  /** Threads never come back to life, so a culprit stays one. */
  lemma CulpritStays(s: System, a: Action)
    requires Culprit(s) && Enabled(s, a)
    ensures Culprit(Apply(s, a))
  {
    var s' := Apply(s, a);
    if !s.selfJoined {
      var t :| t in s.threads && s.threads[t].life.Panicked?;
      assert t in s'.threads && s'.threads[t].life.Panicked?;
    }
  }

  /** A failure that was not noted before is carried by the call that just joined a handle. */
  lemma FailureArises(s: System, a: Action)
    requires SealOk(s) && Enabled(s, a) && !FailureNoted(s) && FailureNoted(Apply(s, a))
    ensures IsPop(a) && a.c in Apply(s, a).calls && Carries(Apply(s, a).calls[a.c])
  {
    OthersNudged(s, a);
  }

  lemma PopBlames(s: System, a: Action)
    requires HandlesOk(s) && Enabled(s, a) && IsPop(a) && !Carries(s.calls[a.c]) && Carries(Apply(s, a).calls[a.c])
    ensures Culprit(Apply(s, a))
  {
    var t := s.calls[a.c].pc.todo[0];
    assert t in Apply(s, a).threads;
    assert ThreadOk(s, t);
  }

  lemma NewFailure(s: System, a: Action)
    requires HandlesOk(s) && SealOk(s) && Enabled(s, a) && !FailureNoted(s) && FailureNoted(Apply(s, a))
    ensures Culprit(Apply(s, a))
  {
    FailureArises(s, a);
    PopBlames(s, a);
  }

  lemma BlameStep(s: System, a: Action)
    requires Inv(s) && Enabled(s, a)
    ensures BlameOk(Apply(s, a))
  {
    if FailureNoted(s) {
      FailureStays(s, a);
      CulpritStays(s, a);
    } else {
      if FailureNoted(Apply(s, a)) { NewFailure(s, a); }
      if Apply(s, a).selfJoined { assert Carries(Apply(s, a).calls[a.c]); }
    }
  }

  lemma InvStep(s: System, a: Action)
    requires Inv(s) && Enabled(s, a)
    ensures Inv(Apply(s, a))
  {
    HandlesStep(s, a);
    CountersStep(s, a);
    SealStep(s, a);
    CustodyStep(s, a);
    WakeupStep(s, a);
    BlameStep(s, a);
  }

  // ---------------------------------------------------------------------- runs

  ghost predicate StepsAt(run: seq<System>, i: nat)
    requires i + 1 < |run|
  {
    exists a :: Enabled(run[i], a) && run[i + 1] == Apply(run[i], a)
  }

  ghost predicate IsRun(run: seq<System>)
  {
    |run| > 0 && run[0] == INITIAL && forall i :: 0 <= i < |run| - 1 ==> StepsAt(run, i)
  }

  lemma {:induction false} RunInv(run: seq<System>, i: nat)
    requires IsRun(run) && i < |run|
    ensures forall k :: 0 <= k <= i ==> Inv(run[k])
  {
    if i > 0 {
      RunInv(run, i - 1);
      var a := StepAt(run, i - 1);
      InvStep(run[i - 1], a);
      forall k | 0 <= k <= i ensures Inv(run[k]) {
        if k == i { assert run[k] == Apply(run[i - 1], a); }
      }
    }
  }

  /** A step the run takes. */
  ghost function StepAt(run: seq<System>, i: nat): (a: Action)
    requires IsRun(run) && i + 1 < |run|
    ensures Enabled(run[i], a) && run[i + 1] == Apply(run[i], a)
  {
    assert StepsAt(run, i);
    var a :| Enabled(run[i], a) && run[i + 1] == Apply(run[i], a);
    a
  }

  /** From the final join on, no spawner or reaper is anywhere in between. */
  lemma FinalJoinAlone(s: System)
    requires CountersOk(s) && SealOk(s) && s.reg.joining
    ensures forall c :: c in s.calls ==> !IsStarter(s.calls[c]) && !IsReaper(s.calls[c])
  {
    assert Starters(s.calls) == {} && Reapers(s.calls) == {};
    forall c | c in s.calls ensures !IsStarter(s.calls[c]) && !IsReaper(s.calls[c]) {
      assert c !in Starters(s.calls) && c !in Reapers(s.calls);
    }
  }

  /** A final join once begun stays begun, its result stays, and no thread is started any more. */
  lemma SealedStep(s: System, a: Action)
    requires Inv(s) && Enabled(s, a) && s.reg.joining
    ensures Apply(s, a).reg.joining && Apply(s, a).threads.Keys == s.threads.Keys
    ensures s.reg.result.Some? ==> Apply(s, a).reg.result == s.reg.result
  {
    FinalJoinAlone(s);
  }

  lemma SealedNext(run: seq<System>, j: nat)
    requires IsRun(run) && j + 1 < |run| && run[j].reg.joining
    ensures run[j + 1].reg.joining && run[j + 1].threads.Keys == run[j].threads.Keys
    ensures run[j].reg.result.Some? ==> run[j + 1].reg.result == run[j].reg.result
  {
    RunInv(run, j);
    var a := StepAt(run, j);
    SealedStep(run[j], a);
  }

  lemma {:induction false} SealedForGood(run: seq<System>, i: nat, j: nat)
    requires IsRun(run) && i <= j < |run| && run[i].reg.joining
    ensures run[j].reg.joining && run[j].threads.Keys == run[i].threads.Keys
    ensures run[i].reg.result.Some? ==> run[j].reg.result == run[i].reg.result
  {
    if i < j {
      SealedForGood(run, i, j - 1);
      SealedNext(run, j - 1);
    }
  }

  /** With a result published, nobody holds a thread any more. */
  lemma ResultMeansCollected(s: System, t: Tid)
    requires Inv(s) && s.reg.result.Some? && t in s.threads
    ensures s.threads[t].custody.Collected?
  {
    FinalJoinAlone(s);
    assert CustodyOk(s, t);
  }

  /**
   `seal_and_join` yields `Ok` exactly when no thread the registry ever started
   panicked and no registry thread tried to retire itself; in that case every
   thread, reaped and locally joined ones included, was joined and had exited.
   */
  lemma SealResult(run: seq<System>, i: nat)
    requires IsRun(run) && i < |run| && run[i].reg.result.Some?
    ensures run[i].reg.result == Some(true) <==>
            !run[i].selfJoined && forall t :: t in run[i].threads ==> !run[i].threads[t].life.Panicked?
    ensures run[i].reg.result == Some(true) ==>
            forall t :: t in run[i].threads ==> run[i].threads[t].join == Joined(true) && run[i].threads[t].life.Exited?
    ensures !run[i].selfJoined ==>
              forall t :: t in run[i].threads ==> run[i].threads[t].join.Joined? && !run[i].threads[t].life.Running?
  {
    RunInv(run, i);
    var s := run[i];
    FinalJoinAlone(s);
    if s.reg.result.value {
      assert !FailureNoted(s);
    } else {
      assert s.reg.result == Some(false);
      assert FailureNoted(s);
    }
    forall t | t in s.threads ensures CustodyOk(s, t) && s.threads[t].custody.Collected? && ThreadOk(s, t) {
      ResultMeansCollected(s, t);
    }
  }

  /** All sealers, whenever they return, report the same result. */
  lemma SealersAgree(run: seq<System>, i: nat, j: nat, c: Call, d: Call)
    requires IsRun(run) && i <= j < |run|
    requires c in run[i].calls && run[i].calls[c].pc.SealReturned?
    requires d in run[j].calls && run[j].calls[d].pc.SealReturned?
    ensures run[i].calls[c].pc.ok == run[j].calls[d].pc.ok
  {
    RunInv(run, i);
    RunInv(run, j);
    assert FrameOk(run[i], c) && FrameOk(run[j], d);
    SealedForGood(run, i, j);
  }

  /**
   No lost wakeup. A sealer asleep although it may proceed has a notification
   pending; a sleeping joiner's thread is in the hands of a call inside the OS join.
   */
  lemma NoLostWakeup(run: seq<System>, i: nat, c: Call)
    requires IsRun(run) && i < |run| && c in run[i].calls
    ensures run[i].calls[c].pc.SealAsleep? && SealReady(run[i].reg) ==>
            exists d :: d in run[i].calls && run[i].calls[d].pc.Notifying?
    ensures IsJoining(run[i], c) && run[i].calls[c].pc.phase.Waiting? ==>
            && AtHead(run[i], c, Waiting) && HeadJoin(run[i], c).HandleTaken?
            && AtHead(run[i], HeadJoin(run[i], c).owner, Blocking)
            && run[i].calls[HeadJoin(run[i], c).owner].pc.todo[0] == run[i].calls[c].pc.todo[0]
  {
    RunInv(run, i);
    assert FrameOk(run[i], c);
    if IsJoining(run[i], c) && run[i].calls[c].pc.phase.Waiting? {
      assert ThreadOk(run[i], run[i].calls[c].pc.todo[0]);
    }
  }

  // ------------------------------------------------------------------ progress

  /** Actions by which calls already in progress advance on their own. */
  predicate Advances(a: Action)
  {
    || a.ReapDone? || a.SpawnFails? || a.PushHandle? || a.Release? || a.Notify? || a.SealObserve? || a.SealBegin?
    || a.SealSleep? || a.SealPublish? || IsPop(a) || a.JoinTake? || a.JoinWait? || a.LocalDone?
  }

  ghost predicate CanAdvance(s: System) { exists a :: Advances(a) && Enabled(s, a) }

  lemma EnteringAdvances(s: System, c: Call)
    requires AtHead(s, c, Entering)
    ensures CanAdvance(s)
  {
    if s.calls[c].me == Some(s.calls[c].pc.todo[0]) {
      assert Enabled(s, JoinSelf(c));
    } else {
      match HeadJoin(s, c)
      case Joined(_) => assert Enabled(s, JoinKnown(c));
      case HandleHeld => assert Enabled(s, JoinTake(c));
      case HandleTaken(_) => assert Enabled(s, JoinWait(c));
    }
  }

  lemma DrainedAdvances(s: System, c: Call)
    requires CountersOk(s) && IsJoining(s, c) && s.calls[c].pc.todo == []
    ensures CanAdvance(s)
  {
    match s.calls[c].pc.purpose
    case Reap => assert c in Reapers(s.calls); assert Enabled(s, ReapDone(c));
    case Seal => assert Enabled(s, SealPublish(c));
    case Local => assert Enabled(s, LocalDone(c));
  }

  lemma JoinerAdvances(s: System, c: Call)
    requires Inv(s) && IsJoining(s, c)
    requires forall t :: t in s.threads ==> !s.threads[t].life.Running?
    ensures CanAdvance(s)
  {
    var pc := s.calls[c].pc;
    assert FrameOk(s, c);
    if pc.todo == [] {
      DrainedAdvances(s, c);
    } else if pc.phase.Entering? {
      EnteringAdvances(s, c);
    } else if pc.phase.Blocking? {
      assert Enabled(s, JoinReturn(c));
    } else {
      assert ThreadOk(s, pc.todo[0]);
      assert Enabled(s, JoinReturn(s.threads[pc.todo[0]].join.owner));
    }
  }

  lemma StarterAdvances(s: System, c: Call)
    requires Inv(s) && c in s.calls && IsStarter(s.calls[c])
    ensures CanAdvance(s)
  {
    assert c in Starters(s.calls);
    match s.calls[c].pc
    case Spawning => assert Enabled(s, SpawnFails(c));
    case Started(_) => assert Enabled(s, PushHandle(c));
    case Releasing => assert Enabled(s, Release(c));
  }

  lemma SleeperAdvances(s: System, c: Call)
    requires Inv(s) && c in s.calls && s.calls[c].pc.SealAsleep?
    requires forall t :: t in s.threads ==> !s.threads[t].life.Running?
    ensures CanAdvance(s)
  {
    if SealReady(s.reg) {
      var d :| d in s.calls && s.calls[d].pc.Notifying?;
      assert Enabled(s, Notify(d));
    } else if s.reg.joining {
      JoinerAdvances(s, s.sealer.value);
    } else if s.reg.reaping > 0 {
      var d :| d in Reapers(s.calls);
      JoinerAdvances(s, d);
    } else {
      var d :| d in Starters(s.calls);
      StarterAdvances(s, d);
    }
  }

  /** A registry that is not sealed lets every caller begin: it reaps what is over, or reserves a start. */
  lemma OpenAdmits(s: System, c: Call, me: Option<Tid>, reap: bool, finished: set<Tid>)
    requires c !in s.calls && CallerAlive(s, me) && SeenFinished(s, finished)
    ensures !s.reg.sealed <==>
            Enabled(s, Reserve(c, me, reap, finished)) || (reap && Enabled(s, ReapFirst(c, me, finished)))
    ensures forall d, t :: d in s.calls && s.calls[d].pc.Spawning? && t !in s.threads ==> Enabled(s, SpawnOk(d, t))
  {
    AdmitMeans(s.reg, reap, finished);
  }

  lemma CheckerAdvances(s: System, c: Call)
    requires c in s.calls && (s.calls[c].pc.SealCheck? || s.calls[c].pc.Notifying?)
    ensures CanAdvance(s)
  {
    if s.calls[c].pc.Notifying? {
      assert Enabled(s, Notify(c));
    } else {
      assert Enabled(s, SealObserve(c)) || Enabled(s, SealBegin(c)) || Enabled(s, SealSleep(c));
    }
  }

  lemma CallAdvances(s: System, c: Call)
    requires Inv(s) && c in s.calls && !s.calls[c].pc.SealReturned?
    requires forall t :: t in s.threads ==> !s.threads[t].life.Running?
    ensures CanAdvance(s)
  {
    match s.calls[c].pc
    case Joining(_, _, _, _) => JoinerAdvances(s, c);
    case SealAsleep => SleeperAdvances(s, c);
    case Notifying => CheckerAdvances(s, c);
    case SealCheck => CheckerAdvances(s, c);
    case _ => StarterAdvances(s, c);
  }

  /**
   Once every thread is over, no call is ever stuck: as long as any call has not
   returned, some call in progress can take its next step.
   */
  lemma NeverStuck(run: seq<System>, i: nat, c: Call)
    requires IsRun(run) && i < |run| && c in run[i].calls && !run[i].calls[c].pc.SealReturned?
    requires forall t :: t in run[i].threads ==> !run[i].threads[t].life.Running?
    ensures CanAdvance(run[i])
  {
    RunInv(run, i);
    CallAdvances(run[i], c);
  }

  // ------------------------------------------------------------------- all calls return

  /** Notifications a call may still cause, counting the chance to begin the final join. */
  function Credit(f: Frame): (n: nat)
  {
    match f.pc
    case Joining(Reap, _, _, _) => 2
    case Joining(Seal, _, _, _) => 1
    case Joining(Local, _, _, _) => 0
    case SealCheck => 2
    case SealAsleep => 2
    case SealReturned(_) => 0
    case _ => 1
  }

  /** Steps a call can take before the next notification or OS join concerns it. */
  function Rank(f: Frame): (n: nat)
  {
    match f.pc
    case Spawning => 3
    case Started(_) => 2
    case Releasing => 1
    case SealCheck => 1
    case Joining(_, todo, _, phase) => 3 * |todo| + (if phase.Entering? then 2 else 1)
    case _ => 0
  }

  function Credits(s: System): (r: set<(Call, nat)>)
  {
    set c: Call, n: nat | c in s.calls && 0 <= n < Credit(s.calls[c]) :: (c, n)
  }

  function Unjoined(s: System): (r: set<Tid>) { set t | t in s.threads && !s.threads[t].join.Joined? }

  function Ranks(s: System): (r: set<(Call, nat)>)
  {
    set c: Call, n: nat | c in s.calls && 0 <= n < Rank(s.calls[c]) :: (c, n)
  }

  /** Fewer notifications to come, or as many and fewer threads to join, or as many of both and fewer steps. */
  predicate Lower(t: System, s: System)
  {
    || |Credits(t)| < |Credits(s)|
    || (|Credits(t)| == |Credits(s)| && |Unjoined(t)| < |Unjoined(s)|)
    || (|Credits(t)| == |Credits(s)| && |Unjoined(t)| == |Unjoined(s)| && |Ranks(t)| < |Ranks(s)|)
  }

  function CreditAt(s: System, c: Call): (n: nat) { if c in s.calls then Credit(s.calls[c]) else 0 }

  function RankAt(s: System, c: Call): (n: nat) { if c in s.calls then Rank(s.calls[c]) else 0 }

  lemma CreditsShrink(s: System, t: System, c: Call)
    requires forall d :: d != c ==> CreditAt(t, d) == CreditAt(s, d)
    requires CreditAt(t, c) <= CreditAt(s, c)
    ensures |Credits(t)| <= |Credits(s)| && (CreditAt(t, c) < CreditAt(s, c) ==> |Credits(t)| < |Credits(s)|)
    ensures CreditAt(t, c) == CreditAt(s, c) ==> |Credits(t)| == |Credits(s)|
  {
    forall p | p in Credits(t) ensures p in Credits(s) { assert p.1 < CreditAt(t, p.0) <= CreditAt(s, p.0); }
    SubsetSize(Credits(t), Credits(s));
    if CreditAt(t, c) < CreditAt(s, c) {
      assert (c, CreditAt(t, c)) in Credits(s) && (c, CreditAt(t, c)) !in Credits(t);
    } else {
      forall p | p in Credits(s) ensures p in Credits(t) { assert p.1 < CreditAt(s, p.0) == CreditAt(t, p.0); }
      assert Credits(t) == Credits(s);
    }
  }

  lemma RanksShrink(s: System, t: System, c: Call)
    requires forall d :: d != c ==> RankAt(t, d) == RankAt(s, d)
    requires RankAt(t, c) < RankAt(s, c)
    ensures |Ranks(t)| < |Ranks(s)|
  {
    forall p | p in Ranks(t) ensures p in Ranks(s) { assert p.1 < RankAt(t, p.0) <= RankAt(s, p.0); }
    assert (c, RankAt(t, c)) in Ranks(s) && (c, RankAt(t, c)) !in Ranks(t);
    SubsetSize(Ranks(t), Ranks(s));
  }

  /** Steps that notify all sealers, or settle who seals. */
  predicate SpendsCredit(a: Action) { a.ReapDone? || a.Notify? || a.SealPublish? || a.SealBegin? || a.SealObserve? }

  lemma CreditStep(s: System, a: Action)
    requires Enabled(s, a) && Advances(a)
    ensures if SpendsCredit(a) then CreditAt(Apply(s, a), a.c) < CreditAt(s, a.c)
            else CreditAt(Apply(s, a), a.c) == CreditAt(s, a.c)
  {
  }

  lemma OtherCredits(s: System, a: Action, d: Call)
    requires Enabled(s, a) && Advances(a) && d != a.c
    ensures CreditAt(Apply(s, a), d) == CreditAt(s, d)
  {
    OthersNudged(s, a);
  }

  /** Joining never reopens a handle, and returning from the OS join settles one. */
  lemma UnjoinedStep(s: System, a: Action)
    requires HandlesOk(s) && Enabled(s, a) && Advances(a) && !SpendsCredit(a)
    ensures Unjoined(Apply(s, a)) <= Unjoined(s) && (a.JoinReturn? ==> Unjoined(Apply(s, a)) != Unjoined(s))
  {
    if a.JoinReturn? {
      assert FrameOk(s, a.c);
      var t := s.calls[a.c].pc.todo[0];
      assert t in Unjoined(s) && t !in Unjoined(Apply(s, a));
    }
  }

  lemma RankStep(s: System, a: Action)
    requires Enabled(s, a) && Advances(a) && !SpendsCredit(a) && !a.JoinReturn?
    ensures RankAt(Apply(s, a), a.c) < RankAt(s, a.c)
    ensures forall d :: d != a.c ==> RankAt(Apply(s, a), d) == RankAt(s, d)
  {
  }

  /** Every step by which a call advances lowers a well-founded measure. */
  lemma MeasureFalls(run: seq<System>, i: nat, a: Action)
    requires IsRun(run) && i < |run| && Enabled(run[i], a) && Advances(a)
    ensures Lower(Apply(run[i], a), run[i])
  {
    var s, t := run[i], Apply(run[i], a);
    RunInv(run, i);
    CreditStep(s, a);
    forall d | d != a.c ensures CreditAt(t, d) == CreditAt(s, d) { OtherCredits(s, a, d); }
    CreditsShrink(s, t, a.c);
    if !SpendsCredit(a) {
      UnjoinedStep(s, a);
      SubsetSize(Unjoined(t), Unjoined(s));
      if !a.JoinReturn? {
        RankStep(s, a);
        RanksShrink(s, t, a.c);
      }
    }
  }

  predicate ThreadsOver(s: System) { forall t :: t in s.threads ==> !s.threads[t].life.Running? }

  predicate AllReturned(s: System) { forall c :: c in s.calls ==> s.calls[c].pc.SealReturned? }

  lemma AdvancesQuietly(s: System, a: Action)
    requires Enabled(s, a) && Advances(a) && ThreadsOver(s)
    ensures ThreadsOver(Apply(s, a)) && Apply(s, a).calls.Keys <= s.calls.Keys
  {
  }

  lemma Extends(run: seq<System>, a: Action)
    requires IsRun(run) && Enabled(run[|run| - 1], a)
    ensures IsRun(run + [Apply(run[|run| - 1], a)])
  {
    var run' := run + [Apply(run[|run| - 1], a)];
    forall i | 0 <= i < |run'| - 1 ensures StepsAt(run', i) {
      var b := if i < |run| - 1 then StepAt(run, i) else a;
      assert Enabled(run'[i], b) && run'[i + 1] == Apply(run'[i], b);
    }
  }

  /** The run goes on, without new calls, until every call has returned. */
  ghost predicate Completes(run: seq<System>, run': seq<System>)
    requires run != [] && run' != []
  {
    run <= run' && run'[|run'| - 1].calls.Keys <= run[|run| - 1].calls.Keys && AllReturned(run'[|run'| - 1])
  }

  /**
   Once all threads are over and no call begins, the calls in progress go on until every one
   has returned. By `MeasureFalls` they do so in whichever order they take their steps.
   */
  lemma {:induction false} AllCallsReturn(run: seq<System>)
    requires IsRun(run) && ThreadsOver(run[|run| - 1])
    ensures exists run' :: IsRun(run') && Completes(run, run')
    decreases |Credits(run[|run| - 1])|, |Unjoined(run[|run| - 1])|, |Ranks(run[|run| - 1])|
  {
    var s := run[|run| - 1];
    if c :| c in s.calls && !s.calls[c].pc.SealReturned? {
      NeverStuck(run, |run| - 1, c);
      var a :| Advances(a) && Enabled(s, a);
      MeasureFalls(run, |run| - 1, a);
      AdvancesQuietly(s, a);
      Extends(run, a);
      AllCallsReturn(run + [Apply(s, a)]);
      var run' :| IsRun(run') && Completes(run + [Apply(s, a)], run');
      assert Completes(run, run');
    } else {
      assert Completes(run, run);
    }
  }
}
