/**
 Engine shutdown: the two management queues that drain after the close signal, and
 the coordinator that retires management, resources, retirement work, callbacks and
 the runtime in that order. Registries, the work tracker and the pool appear through
 what `RegistryRuns.SealResult`, `WorkTracker.WaitReturnsWithoutWork` and
 `CallbackPool.ShutdownDrains` state about them.
 */
module EngineShutdown {
  import opened Base

  type Future = nat
  type Tid = nat
  type Lease = nat
  type Coordinator = nat

  /** A management queue: a bounded channel and the worker that serves it. */
  datatype Phase = Serving | Draining | Done

  /**
   `permits` are sends admitted but not yet delivered; `running` is the future being
   awaited. History: `sent`, `ran` and `lost` list futures in order; `unwound` says that a
   panic payload's destructor took the serving task down.
   */
  datatype Channel = Channel(
    buffer: seq<Future>,
    permits: nat,
    closed: bool,
    phase: Phase,
    running: Option<Future>,
    sent: seq<Future>,
    ran: seq<Future>,
    lost: seq<Future>,
    unwound: bool)

  const NEW_CHANNEL := Channel([], 0, false, Serving, None, [], [], [], false)

  function Awaited(q: Channel): (r: seq<Future>) { if q.running.Some? then [q.running.value] else [] }

  /** Every future sent was run, is running, is buffered or was lost, in that order; only an unwound task loses any. */
  predicate ChannelOk(q: Channel)
  {
    && q.sent == q.ran + Awaited(q) + q.buffer + q.lost
    && (q.phase.Serving? <==> !q.closed)
    && (q.phase.Done? ==> q.buffer == [] && q.running.None?)
    && (q.phase.Done? && !q.unwound ==> q.permits == 0)
    && (q.unwound ==> q.phase.Done?) && (!q.unwound ==> q.lost == [])
  }

  datatype QueueOp = Reserve | Deliver(future: Future) | Receive | FinishFuture | Unwind | SeeClose | QueueEnds

  /** `signal` is the watched close flag, which may rise between the two polls of the select. */
  predicate CanDo(q: Channel, signal: bool, op: QueueOp)
  {
    match op
    case Reserve => !q.closed
    case Deliver(_) => q.permits > 0
    case Receive => q.running.None? && q.buffer != [] && !q.phase.Done?
    case FinishFuture => q.running.Some?
    case Unwind => q.running.Some?
    case SeeClose => q.phase.Serving? && q.running.None? && signal
    case QueueEnds => q.phase.Draining? && q.running.None? && q.buffer == [] && q.permits == 0
  }

  /** An unwinding task drops its receiver: the channel is closed, and what it holds or still gets is lost. */
  function Do(q: Channel, op: QueueOp): (r: Channel)
    requires CanDo(q, true, op)
  {
    match op
    case Reserve => q.(permits := q.permits + 1)
    case Deliver(f) =>
      if q.phase.Done? then q.(permits := q.permits - 1, lost := q.lost + [f], sent := q.sent + [f])
      else q.(permits := q.permits - 1, buffer := q.buffer + [f], sent := q.sent + [f])
    case Receive => q.(running := Some(q.buffer[0]), buffer := q.buffer[1..])
    case FinishFuture => q.(running := None, ran := q.ran + [q.running.value])
    case Unwind =>
      q.(running := None, ran := q.ran + [q.running.value], buffer := [], lost := q.buffer,
      closed := true, phase := Done, unwound := true)
    case SeeClose => q.(closed := true, phase := Draining)
    case QueueEnds => q.(phase := Done)
  }

  /** A step that loses a future: unwinding over buffered ones, or a delivery to a task already unwound. */
  predicate Loses(q: Channel, op: QueueOp) { (op.Unwind? && q.buffer != []) || (op.Deliver? && q.phase.Done?) }

  /** Serving a queue duplicates and reorders no future, and exactly the steps above lose one. */
  lemma ChannelStep(q: Channel, signal: bool, op: QueueOp)
    requires ChannelOk(q) && CanDo(q, signal, op)
    ensures ChannelOk(Do(q, op)) && (Do(q, op).lost == [] <==> q.lost == [] && !Loses(q, op))
  {
  }

  /** What a closing queue still has to do. */
  function Work(q: Channel): (n: nat)
  {
    3 * q.permits + 2 * |q.buffer| + |Awaited(q)| + (if q.phase.Serving? then 2 else if q.phase.Draining? then 1 else 0)
  }

  predicate Serves(op: QueueOp) { !op.Reserve? }

  /** Once told to close, a queue has a step until it is done, and every step but a new send uses up its work. */
  lemma QueueFinishes(q: Channel)
    requires ChannelOk(q)
    ensures q.phase.Done? || exists op :: Serves(op) && CanDo(q, true, op)
    ensures forall op :: Serves(op) && CanDo(q, true, op) ==> Work(Do(q, op)) < Work(q)
  {
    if q.running.Some? {
      assert CanDo(q, true, FinishFuture);
    } else if q.phase.Serving? {
      assert CanDo(q, true, SeeClose);
    } else if !q.phase.Done? {
      assert CanDo(q, true, Receive) || CanDo(q, true, QueueEnds) || CanDo(q, true, Deliver(0));
    }
  }

  /** How many futures run, in order, until one takes the worker down. */
  function RunCount(all: seq<Future>, fatal: set<Future>): (n: nat)
    ensures n <= |all| && (n < |all| ==> n > 0 && all[n - 1] in fatal)
    ensures forall i :: 0 <= i < n - 1 ==> all[i] !in fatal
  {
    if all == [] then 0 else if all[0] in fatal then 1 else 1 + RunCount(all[1..], fatal)
  }

  lemma {:induction false} RunCountIs(all: seq<Future>, fatal: set<Future>, n: nat)
    requires n <= |all| && (forall i :: 0 <= i < n - 1 ==> all[i] !in fatal)
    requires n < |all| ==> n > 0 && all[n - 1] in fatal
    ensures n == RunCount(all, fatal)
  {
    if all != [] && all[0] !in fatal {
      assert forall i :: 0 <= i < |all[1..]| ==> all[1..][i] == all[i + 1];
      RunCountIs(all[1..], fatal, n - 1);
    }
  }

  lemma TakeFront(all: seq<Future>, n: nat, buffer: seq<Future>, coming: seq<Future>)
    requires n <= |all| && buffer != [] && buffer + coming == all[n..]
    ensures n < |all| && buffer[0] == all[n] && buffer[1..] + coming == all[n + 1..]
    ensures all[..n + 1] == all[..n] + [buffer[0]]
  {
    assert (buffer + coming)[1..] == buffer[1..] + coming && all[n..][1..] == all[n + 1..];
    assert (buffer + coming)[0] == all[n..][0];
  }

  /** Some late sends arrive, then one future is received. */
  lemma ReceiveNext(all: seq<Future>, n: nat, buffer: seq<Future>, coming: seq<Future>, k: nat)
    requires n <= |all| && buffer + coming == all[n..] && k <= |coming| && (buffer != [] || k > 0)
    ensures var b, c := buffer + coming[..k], coming[k..];
            && b != [] && n < |all| && b[0] == all[n] && b[1..] + c == all[n + 1..] && all[..n + 1] == all[..n] + [b[0]]
  {
    assert coming[..k] + coming[k..] == coming;
    assert buffer + coming[..k] + coming[k..] == buffer + coming;
    TakeFront(all, n, buffer + coming[..k], coming[k..]);
  }

  class EngineQueue {
    var buffer: seq<Future>
    var ran: seq<Future>

    constructor (pending: seq<Future>)
      ensures buffer == pending && ran == []
    {
      buffer, ran := pending, [];
    }

    /**
     The loop after the close signal. Sends admitted earlier (`late`) arrive at any moment,
     and receiving waits for them; running a future in `fatal` unwinds the worker. Whatever the
     timing, exactly the futures up to the first fatal one run, in order; the rest is dropped.
     */
    method DrainClosed(late: seq<Future>, fatal: set<Future>) returns (dropped: seq<Future>)
      modifies this
      ensures var all := old(buffer) + late;
              ran == old(ran) + all[..RunCount(all, fatal)] && dropped == all[RunCount(all, fatal)..]
    {
      ghost var all := buffer + late;
      ghost var n := 0;
      var coming := late;
      while buffer != [] || coming != []
        invariant n <= |all| && ran == old(ran) + all[..n] && buffer + coming == all[n..]
        invariant forall i :: 0 <= i < n ==> all[i] !in fatal
        decreases |buffer| + |coming|
      {
        var k :| 0 <= k <= |coming| && (buffer == [] ==> k > 0);
        ReceiveNext(all, n, buffer, coming, k);
        buffer, coming := buffer + coming[..k], coming[k..];
        var future := buffer[0];
        buffer, ran, n := buffer[1..], ran + [future], n + 1;
        if future in fatal {
          dropped := buffer + coming;
          RunCountIs(all, fatal, n);
          return;
        }
      }
      RunCountIs(all, fatal, n);
      dropped := [];
    }
  }

  datatype Life = Running | Exited | Panicked

  /** Where the coordinator is inside `shutdown_blocking`. */
  const JOIN_MANAGEMENT := 0
  const SEAL_RESOURCES := 1
  const JOIN_RESOURCES := 2
  const AWAIT_WORK := 3
  const CLOSE_POOL := 4
  const JOIN_POOL := 5
  const DROP_RUNTIME := 6
  const RETURNED := 7

  /** `inTokio`: the calling thread is inside a Tokio context, where the runtime refuses to be dropped. */
  datatype Frame = Frame(stage: nat, failed: bool, inTokio: bool)

  /**
   Who may register retirement work or dispatch a callback. `Unleased` is everyone else:
   callers outside the engine, and callback jobs or runtime tasks that hold no lease.
   */
  datatype Producer = Management(isSync: bool) | Resource(t: Tid) | Holder(l: Lease) | Unleased

  datatype System = System(
    syncQueue: Channel,
    asyncQueue: Channel,
    closeSignal: bool,
    management: Life,
    resources: map<Tid, Life>,
    resourcesSealed: bool,
    leases: set<Lease>,
    poolClosed: bool,
    poolResult: Option<bool>,
    runtimeResult: Option<bool>,
    coordinators: map<Coordinator, Frame>)

  const INITIAL := System(NEW_CHANNEL, NEW_CHANNEL, false, Running, map[], false, {}, false, None, None, map[])

  datatype Action =
    | OnQueue(isSync: bool, op: QueueOp)
    | ManagementEnds(panicked: bool)
    | SpawnResource(t: Tid, producer: Producer)
    | ResourceEnds(t: Tid, panicked: bool)
    | Register(l: Lease, producer: Producer)
    | DropLease(l: Lease)
    | Begin(c: Coordinator, inTokio: bool)
    | Advance(c: Coordinator, ok: bool)

  function Queue(s: System, isSync: bool): (q: Channel) { if isSync then s.syncQueue else s.asyncQueue }

  predicate QueuesDone(s: System) { s.syncQueue.phase.Done? && s.asyncQueue.phase.Done? }

  predicate Alive(s: System, p: Producer)
  {
    match p
    case Management(isSync) => Queue(s, isSync).running.Some?
    case Resource(t) => t in s.resources && s.resources[t].Running?
    case Holder(l) => l in s.leases
    case Unleased => true
  }

  predicate ResourcesOver(s: System) { forall t :: t in s.resources ==> !s.resources[t].Running? }

  predicate ResourcePanicked(s: System) { exists t :: t in s.resources && s.resources[t].Panicked? }

  /** When the call made at a stage may return; `ok` is what the pool or the runtime reports. */
  predicate Passable(s: System, stage: nat, inTokio: bool, ok: bool)
  {
    && (stage == JOIN_MANAGEMENT ==> !s.management.Running?)
    && (stage == JOIN_RESOURCES ==> ResourcesOver(s))
    && (stage == AWAIT_WORK ==> s.leases == {})
    && (stage == JOIN_POOL && s.poolResult.Some? ==> ok == s.poolResult.value)
    && (stage == DROP_RUNTIME && !inTokio && s.runtimeResult.Some? ==> ok == s.runtimeResult.value)
    && stage < RETURNED
  }

  /** Whether the call made at a stage reports an error. */
  predicate StageFails(s: System, f: Frame, ok: bool)
  {
    || (f.stage == JOIN_MANAGEMENT && s.management.Panicked?)
    || (f.stage == JOIN_RESOURCES && ResourcePanicked(s))
    || (f.stage >= JOIN_POOL && !ok)
    || (f.stage == DROP_RUNTIME && f.inTokio)
  }

  predicate Enabled(s: System, a: Action)
  {
    match a
    case OnQueue(isSync, op) => CanDo(Queue(s, isSync), s.closeSignal, op)
    case ManagementEnds(_) => s.management.Running? && QueuesDone(s)
    case SpawnResource(t, p) => t !in s.resources && !s.resourcesSealed && Alive(s, p)
    case ResourceEnds(t, _) => t in s.resources && s.resources[t].Running?
    case Register(l, p) => l !in s.leases && Alive(s, p)
    case DropLease(l) => l in s.leases
    case Begin(c, _) => c !in s.coordinators
    case Advance(c, ok) => c in s.coordinators && Passable(s, s.coordinators[c].stage, s.coordinators[c].inTokio, ok)
  }

  function Apply(s: System, a: Action): (r: System)
    requires Enabled(s, a)
  {
    match a
    case OnQueue(isSync, op) =>
      if isSync then s.(syncQueue := Do(s.syncQueue, op)) else s.(asyncQueue := Do(s.asyncQueue, op))
    case ManagementEnds(panicked) => s.(management := if panicked then Panicked else Exited)
    case SpawnResource(t, _) => s.(resources := s.resources[t := Running])
    case ResourceEnds(t, panicked) => s.(resources := s.resources[t := if panicked then Panicked else Exited])
    case Register(l, _) => s.(leases := s.leases + {l})
    case DropLease(l) => s.(leases := s.leases - {l})
    case Begin(c, inTokio) =>
      s.(closeSignal := true, coordinators := s.coordinators[c := Frame(JOIN_MANAGEMENT, false, inTokio)])
    case Advance(c, ok) =>
      var f := s.coordinators[c];
      var bad := StageFails(s, f, ok);
      s.(coordinators := s.coordinators[c := Frame(f.stage + 1, f.failed || bad, f.inTokio)],
         resourcesSealed := s.resourcesSealed || f.stage == SEAL_RESOURCES,
         poolClosed := s.poolClosed || f.stage == CLOSE_POOL,
         poolResult := if f.stage == JOIN_POOL then Some(ok) else s.poolResult,
         runtimeResult := if f.stage == DROP_RUNTIME && !f.inTokio then Some(ok) else s.runtimeResult)
  }

  /** Until the seal anyone alive can start a resource thread, and a new lease is never refused. */
  lemma OpenRegisters(s: System, t: Tid, l: Lease)
    ensures t !in s.resources && !s.resourcesSealed <==> Enabled(s, SpawnResource(t, Unleased))
    ensures l !in s.leases <==> Enabled(s, Register(l, Unleased))
  {
  }

  // ---------------------------------------------------------------- invariants

  ghost predicate QueuesOk(s: System)
  {
    ChannelOk(s.syncQueue) && ChannelOk(s.asyncQueue) && (!s.management.Running? ==> QueuesDone(s))
  }

  /** What a coordinator knows at its stage. */
  ghost predicate CoordinatorOk(s: System, f: Frame)
  {
    && (f.stage > JOIN_MANAGEMENT ==> !s.management.Running?)
    && (f.stage > SEAL_RESOURCES ==> s.resourcesSealed)
    && (f.stage > JOIN_RESOURCES ==> ResourcesOver(s))
    && (f.stage > CLOSE_POOL ==> s.poolClosed)
    && (f.stage > JOIN_POOL ==> s.poolResult.Some?)
    && (f.stage > DROP_RUNTIME && !f.inTokio ==> s.runtimeResult.Some?)
    && (f.failed <==> FailedSoFar(s, f))
  }

  /** Some stage passed so far reported an error. */
  ghost predicate FailedSoFar(s: System, f: Frame)
  {
    || (f.stage > JOIN_MANAGEMENT && s.management.Panicked?)
    || (f.stage > JOIN_RESOURCES && ResourcePanicked(s))
    || (f.stage > JOIN_POOL && s.poolResult == Some(false))
    || (f.stage > DROP_RUNTIME && (f.inTokio || s.runtimeResult == Some(false)))
  }

  ghost predicate Inv(s: System)
  {
    QueuesOk(s) && forall c :: c in s.coordinators ==> CoordinatorOk(s, s.coordinators[c])
  }

  ghost predicate PastWait(s: System)
  {
    exists c :: c in s.coordinators && s.coordinators[c].stage > AWAIT_WORK
  }

  /** A closed pool means that some coordinator has passed the wait. */
  ghost predicate PoolOk(s: System) { (s.poolClosed ==> PastWait(s)) && (s.runtimeResult.Some? ==> s.poolClosed) }

  lemma QueuesStep(s: System, a: Action)
    requires QueuesOk(s) && Enabled(s, a)
    ensures QueuesOk(Apply(s, a))
  {
    if a.OnQueue? { ChannelStep(Queue(s, a.isSync), s.closeSignal, a.op); }
  }

  /** Whatever the rest of the engine does, what a coordinator has established stays true. */
  lemma KnowledgeStays(s: System, a: Action, f: Frame)
    requires CoordinatorOk(s, f) && Enabled(s, a)
    ensures CoordinatorOk(Apply(s, a), f)
  {
  }

  lemma OwnStep(s: System, a: Action)
    requires Enabled(s, a) && a.Advance? && CoordinatorOk(s, s.coordinators[a.c])
    ensures CoordinatorOk(Apply(s, a), Apply(s, a).coordinators[a.c])
  {
  }

  /** Only its own step moves a coordinator. */
  lemma FrameKept(s: System, a: Action, c: Coordinator)
    requires Enabled(s, a) && !(a.Begin? && a.c == c) && !(a.Advance? && a.c == c)
    ensures c in s.coordinators <==> c in Apply(s, a).coordinators
    ensures c in s.coordinators ==> Apply(s, a).coordinators[c] == s.coordinators[c]
  {
    if !a.Advance? && !a.Begin? {
      assert Apply(s, a).coordinators == s.coordinators;
    }
  }

  lemma CoordinatorStep(s: System, a: Action, c: Coordinator)
    requires Enabled(s, a) && c in Apply(s, a).coordinators
    requires (c in s.coordinators ==> CoordinatorOk(s, s.coordinators[c]))
    ensures CoordinatorOk(Apply(s, a), Apply(s, a).coordinators[c])
  {
    if a.Advance? && c == a.c {
      OwnStep(s, a);
    } else if a.Begin? && a.c == c {
      assert Apply(s, a).coordinators[c] == Frame(JOIN_MANAGEMENT, false, a.inTokio);
    } else {
      FrameKept(s, a, c);
      KnowledgeStays(s, a, s.coordinators[c]);
    }
  }

  /** Coordinators only move forward. */
  lemma RanksRise(s: System, a: Action, c: Coordinator)
    requires Enabled(s, a) && c in s.coordinators
    ensures c in Apply(s, a).coordinators && Apply(s, a).coordinators[c].stage >= s.coordinators[c].stage
  {
    if !(a.Advance? && a.c == c) { FrameKept(s, a, c); }
  }

  /** The coordinator has been through the last stage, outside any Tokio context. */
  predicate Dropped(s: System, c: Coordinator)
  {
    c in s.coordinators && !s.coordinators[c].inTokio && s.coordinators[c].stage > DROP_RUNTIME
  }

  lemma DroppedStays(s: System, a: Action, c: Coordinator)
    requires Enabled(s, a)
    ensures Dropped(Apply(s, a), c) <==>
            Dropped(s, c)
            || (a.Advance? && a.c == c && s.coordinators[c].stage == DROP_RUNTIME && !s.coordinators[c].inTokio)
  {
    if !(a.Begin? && a.c == c) && !(a.Advance? && a.c == c) { FrameKept(s, a, c); }
  }

  lemma PastWaitStays(s: System, a: Action)
    requires PastWait(s) && Enabled(s, a)
    ensures PastWait(Apply(s, a))
  {
    var c :| c in s.coordinators && s.coordinators[c].stage > AWAIT_WORK;
    RanksRise(s, a, c);
  }

  lemma PoolStep(s: System, a: Action)
    requires Inv(s) && PoolOk(s) && Enabled(s, a)
    ensures PoolOk(Apply(s, a))
  {
    if PastWait(s) { PastWaitStays(s, a); }
    if a.Advance? {
      assert CoordinatorOk(s, s.coordinators[a.c]);
      assert s.coordinators[a.c].stage == CLOSE_POOL ==> Apply(s, a).coordinators[a.c].stage > AWAIT_WORK;
    }
  }

  // ---------------------------------------------------------------------- runs

  ghost predicate StepsAt(run: seq<System>, acts: seq<Action>, i: nat)
    requires i + 1 < |run| && i < |acts|
  {
    Enabled(run[i], acts[i]) && run[i + 1] == Apply(run[i], acts[i])
  }

  ghost predicate IsRun(run: seq<System>, acts: seq<Action>)
  {
    |run| == |acts| + 1 && run[0] == INITIAL && forall i :: 0 <= i < |acts| ==> StepsAt(run, acts, i)
  }

  lemma {:induction false} RunInv(run: seq<System>, acts: seq<Action>, i: nat)
    requires IsRun(run, acts) && i < |run|
    ensures forall k :: 0 <= k <= i ==> Inv(run[k]) && PoolOk(run[k])
  {
    if i > 0 {
      RunInv(run, acts, i - 1);
      assert StepsAt(run, acts, i - 1);
      var s, a := run[i - 1], acts[i - 1];
      QueuesStep(s, a);
      forall c | c in Apply(s, a).coordinators ensures CoordinatorOk(Apply(s, a), Apply(s, a).coordinators[c]) {
        CoordinatorStep(s, a, c);
      }
      PoolStep(s, a);
    }
  }

  /** The runtime is dropped by the first coordinator at the last stage that is outside any Tokio context. */
  lemma {:induction false} RuntimeDownExactly(run: seq<System>, acts: seq<Action>, i: nat)
    requires IsRun(run, acts) && i < |run|
    ensures run[i].runtimeResult.Some? <==> exists c :: Dropped(run[i], c)
  {
    if i > 0 {
      RuntimeDownExactly(run, acts, i - 1);
      assert StepsAt(run, acts, i - 1);
      var s, a := run[i - 1], acts[i - 1];
      forall c ensures Dropped(s, c) ==> Dropped(run[i], c) { DroppedStays(s, a, c); }
      if c :| Dropped(run[i], c) && !Dropped(s, c) {
        DroppedStays(s, a, c);
      }
      if a.Advance? { DroppedStays(s, a, a.c); }
    }
  }

  /**
   Only lease holders, management futures and resource threads register work once a coordinator
   has passed the wait.
   */
  ghost predicate ProducersClosed(run: seq<System>, acts: seq<Action>)
    requires |run| == |acts| + 1
  {
    forall k :: 0 <= k < |acts| && acts[k].Register? && acts[k].producer.Unleased? ==> !PastWait(run[k])
  }

  /** The work barrier: past the wait no retirement lease is ever live. */
  ghost predicate BarrierHolds(run: seq<System>)
  {
    forall i :: 0 <= i < |run| ==> (PastWait(run[i]) ==> run[i].leases == {})
  }

  /** Past the wait, management and resources are over, so only lease holders could register. */
  lemma PastWaitProducers(s: System, p: Producer)
    requires Inv(s) && PastWait(s) && s.leases == {} && Alive(s, p)
    ensures p.Unleased?
  {
    var c :| c in s.coordinators && s.coordinators[c].stage > AWAIT_WORK;
    assert CoordinatorOk(s, s.coordinators[c]);
  }

  /** The first coordinator to pass the wait does so by seeing no lease. */
  lemma FirstPastWait(s: System, a: Action)
    requires Enabled(s, a) && !PastWait(s) && PastWait(Apply(s, a))
    ensures s.leases == {} && Apply(s, a).leases == {}
  {
    var c :| c in Apply(s, a).coordinators && Apply(s, a).coordinators[c].stage > AWAIT_WORK;
  }

  lemma BarrierStep(s: System, a: Action)
    requires Inv(s) && Enabled(s, a) && (PastWait(s) ==> s.leases == {})
    requires a.Register? && a.producer.Unleased? ==> !PastWait(s)
    ensures PastWait(Apply(s, a)) ==> Apply(s, a).leases == {}
  {
    if PastWait(s) {
      if a.Register? { PastWaitProducers(s, a.producer); }
    } else if PastWait(Apply(s, a)) {
      FirstPastWait(s, a);
    }
  }

  lemma {:induction false} BarrierAt(run: seq<System>, acts: seq<Action>, i: nat)
    requires IsRun(run, acts) && ProducersClosed(run, acts) && i < |run|
    ensures PastWait(run[i]) ==> run[i].leases == {}
  {
    if i > 0 {
      BarrierAt(run, acts, i - 1);
      RunInv(run, acts, i - 1);
      assert StepsAt(run, acts, i - 1);
      BarrierStep(run[i - 1], acts[i - 1]);
    }
  }

  /**
   The barrier holds exactly on the runs whose external producers obey the tracker's
   condition of use; work registered by management futures, resource threads and lease
   holders can never break it.
   */
  lemma WorkBarrier(run: seq<System>, acts: seq<Action>)
    requires IsRun(run, acts)
    ensures BarrierHolds(run) <==> ProducersClosed(run, acts)
  {
    if ProducersClosed(run, acts) {
      forall i | 0 <= i < |run| ensures PastWait(run[i]) ==> run[i].leases == {} { BarrierAt(run, acts, i); }
    } else {
      var k :| 0 <= k < |acts| && acts[k].Register? && acts[k].producer.Unleased? && PastWait(run[k]);
      assert StepsAt(run, acts, k);
      PastWaitStays(run[k], acts[k]);
      assert acts[k].l in run[k + 1].leases;
    }
  }

  /** While any lease is live the callback pool is open, so its holder is never refused for closing. */
  lemma PoolOpenForLeases(run: seq<System>, acts: seq<Action>, i: nat, l: Lease)
    requires IsRun(run, acts) && ProducersClosed(run, acts) && i < |run| && l in run[i].leases
    ensures !run[i].poolClosed && run[i].runtimeResult.None?
  {
    RunInv(run, acts, i);
    BarrierAt(run, acts, i);
  }

  /**
   Any return of `shutdown_blocking` means that the management queues are finished, that all
   resource threads are over and that the callback pool was shut down; the runtime is down
   exactly if some call reached that stage outside a Tokio context, this one for instance. It
   reports `Ok` exactly when every stage retired cleanly.
   */
  lemma ReturnMeansRetired(run: seq<System>, acts: seq<Action>, i: nat, c: Coordinator)
    requires IsRun(run, acts) && i < |run| && c in run[i].coordinators && run[i].coordinators[c].stage == RETURNED
    ensures QueuesDone(run[i]) && !run[i].management.Running? && ResourcesOver(run[i])
    ensures run[i].poolClosed && run[i].poolResult.Some?
    ensures run[i].runtimeResult.Some? <==> exists d :: Dropped(run[i], d)
    ensures !run[i].coordinators[c].inTokio ==> run[i].runtimeResult.Some?
    ensures !run[i].coordinators[c].failed <==>
            && run[i].management.Exited? && (forall t :: t in run[i].resources ==> run[i].resources[t].Exited?)
            && run[i].poolResult == Some(true) && run[i].runtimeResult == Some(true)
            && !run[i].coordinators[c].inTokio
  {
    RunInv(run, acts, i);
    RuntimeDownExactly(run, acts, i);
    var s := run[i];
    assert CoordinatorOk(s, s.coordinators[c]);
    TwoResults(s.poolResult);
    if s.runtimeResult.Some? { TwoResults(s.runtimeResult); }
  }

  lemma TwoResults(r: Option<bool>)
    requires r.Some?
    ensures r == Some(true) || r == Some(false)
  {
    if r.value { assert r == Some(true); }
  }

  /** A step of a run at which a management queue loses a future. */
  ghost predicate LosesAt(run: seq<System>, acts: seq<Action>, isSync: bool, k: nat)
    requires k < |acts| && k < |run|
  {
    acts[k].OnQueue? && acts[k].isSync == isSync && Loses(Queue(run[k], isSync), acts[k].op)
  }

  lemma QueueFrame(s: System, a: Action, isSync: bool)
    requires Enabled(s, a)
    ensures Queue(Apply(s, a), isSync) == if a.OnQueue? && a.isSync == isSync then Do(Queue(s, isSync), a.op)
            else Queue(s, isSync)
  {
  }

  lemma {:induction false} LostExactly(run: seq<System>, acts: seq<Action>, isSync: bool, i: nat)
    requires IsRun(run, acts) && i < |run|
    ensures Queue(run[i], isSync).lost == [] <==> forall k :: 0 <= k < i ==> !LosesAt(run, acts, isSync, k)
  {
    if i > 0 {
      var n := i - 1;
      LostExactly(run, acts, isSync, n);
      RunInv(run, acts, n);
      assert StepsAt(run, acts, n);
      QueueFrame(run[n], acts[n], isSync);
      if acts[n].OnQueue? && acts[n].isSync == isSync {
        ChannelStep(Queue(run[n], isSync), run[n].closeSignal, acts[n].op);
      }
      assert LosesAt(run, acts, isSync, n) ==> Queue(run[i], isSync).lost != [];
    }
  }

  /**
   When `shutdown_blocking` returns, a management queue has run every future it accepted, in
   order, if and only if its task never unwound over futures still buffered or still on
   their way to it.
   */
  lemma QueuesRanAll(run: seq<System>, acts: seq<Action>, isSync: bool, i: nat, c: Coordinator)
    requires IsRun(run, acts) && i < |run| && c in run[i].coordinators && run[i].coordinators[c].stage == RETURNED
    ensures Queue(run[i], isSync).ran <= Queue(run[i], isSync).sent
    ensures Queue(run[i], isSync).ran == Queue(run[i], isSync).sent <==>
            forall k :: 0 <= k < i ==> !LosesAt(run, acts, isSync, k)
  {
    RunInv(run, acts, i);
    ReturnMeansRetired(run, acts, i, c);
    LostExactly(run, acts, isSync, i);
    var q := Queue(run[i], isSync);
    assert q.sent == q.ran + q.lost;
  }

  ghost predicate Reachable(s: System)
  {
    exists run: seq<System>, acts: seq<Action> :: IsRun(run, acts) && run[|acts|] == s
  }

  lemma Start() returns (s: System)
    ensures s == INITIAL && Reachable(s)
  {
    var run: seq<System>, acts: seq<Action> := [INITIAL], [];
    assert IsRun(run, acts) && run[|acts|] == INITIAL;
    s := INITIAL;
  }

  lemma Reach(s: System, a: Action) returns (t: System)
    requires Reachable(s) && Enabled(s, a)
    ensures t == Apply(s, a) && Reachable(t)
  {
    var run, acts :| IsRun(run, acts) && run[|acts|] == s;
    t := Apply(s, a);
    var run', acts' := run + [t], acts + [a];
    forall i | 0 <= i < |acts'| ensures StepsAt(run', acts', i) {
      if i < |acts| { assert StepsAt(run, acts, i); }
    }
    assert IsRun(run', acts') && run'[|acts'|] == t;
  }

  /** Nothing stands in the way of coordinator 0, and nothing fails but to drop the runtime inside a Tokio context. */
  ghost predicate Clear(s: System, stage: nat, inTokio: bool)
  {
    && 0 in s.coordinators && s.coordinators[0] == Frame(stage, inTokio && stage > DROP_RUNTIME, inTokio)
    && s.management.Exited? && s.resources == map[] && s.leases == {} && s.poolResult != Some(false)
    && s.runtimeResult != Some(false) && (inTokio ==> s.runtimeResult.None?)
  }

  lemma PassStage(s: System, stage: nat, inTokio: bool)
    requires Clear(s, stage, inTokio) && stage < RETURNED
    ensures Enabled(s, Advance(0, true)) && Clear(Apply(s, Advance(0, true)), stage + 1, inTokio)
    ensures Apply(s, Advance(0, true)).syncQueue == s.syncQueue
  {
  }

  lemma Pass(s: System, stage: nat, last: nat, inTokio: bool) returns (t: System)
    requires Reachable(s) && Clear(s, stage, inTokio) && stage <= last <= RETURNED
    ensures Reachable(t) && Clear(t, last, inTokio) && t.syncQueue == s.syncQueue
    decreases last - stage
  {
    t := s;
    if stage < last {
      PassStage(s, stage, inTokio);
      t := Reach(s, Advance(0, true));
      t := Pass(t, stage + 1, last, inTokio);
    }
  }

  /** An idle engine whose management is over. */
  lemma Idle(inTokio: bool) returns (s: System)
    ensures Reachable(s) && Clear(s, JOIN_MANAGEMENT, inTokio)
  {
    s := Start();
    s := Reach(s, Begin(0, inTokio));
    s := Reach(s, OnQueue(true, SeeClose));
    s := Reach(s, OnQueue(false, SeeClose));
    s := Reach(s, OnQueue(true, QueueEnds));
    s := Reach(s, OnQueue(false, QueueEnds));
    s := Reach(s, ManagementEnds(false));
  }

  /**
   A late external registration defeats the barrier: with nothing else happening, a
   coordinator passes the wait, work is registered from outside, and the pool closes
   under a live lease.
   */
  lemma LateRegistration()
    ensures exists run: seq<System>, acts: seq<Action> ::
              IsRun(run, acts) && !ProducersClosed(run, acts) && run[|acts|].poolClosed && run[|acts|].leases != {}
  {
    var s := Idle(false);
    s := Pass(s, JOIN_MANAGEMENT, CLOSE_POOL, false);
    s := Reach(s, Register(7, Unleased));
    s := Reach(s, Advance(0, true));
    assert 7 in s.leases && s.poolClosed;
    var run, acts :| IsRun(run, acts) && run[|acts|] == s;
    RunInv(run, acts, |acts|);
    assert !BarrierHolds(run);
    WorkBarrier(run, acts);
  }

  /** Two futures on one queue, the first of which takes the worker down. */
  const UNWOUND := Channel([], 0, true, Done, None, [1, 2], [1], [2], true)

  lemma Unwinds() returns (s: System)
    ensures Reachable(s) && s == INITIAL.(syncQueue := UNWOUND)
  {
    s := Start();
    s := Reach(s, OnQueue(true, Reserve));
    s := Reach(s, OnQueue(true, Reserve));
    s := Reach(s, OnQueue(true, Deliver(1)));
    s := Reach(s, OnQueue(true, Deliver(2)));
    s := Reach(s, OnQueue(true, Receive));
    s := Reach(s, OnQueue(true, Unwind));
  }

  lemma Unwound() returns (s: System)
    ensures Reachable(s) && Clear(s, JOIN_MANAGEMENT, false) && s.syncQueue == UNWOUND
  {
    s := Unwinds();
    s := Reach(s, Begin(0, false));
    s := Reach(s, OnQueue(false, SeeClose));
    s := Reach(s, OnQueue(false, QueueEnds));
    s := Reach(s, ManagementEnds(false));
  }

  /** `shutdown_blocking` can report `Ok` although an accepted management future never ran. */
  lemma OkWithLostFuture()
    ensures exists s ::
              && Reachable(s) && 0 in s.coordinators && s.coordinators[0] == Frame(RETURNED, false, false)
              && s.syncQueue.ran != s.syncQueue.sent
  {
    var s := Unwound();
    s := Pass(s, JOIN_MANAGEMENT, RETURNED, false);
  }

  /** Called inside a Tokio context, `shutdown_blocking` can return with the runtime still up. */
  lemma ReturnWithRuntimeUp()
    ensures exists s ::
              && Reachable(s) && 0 in s.coordinators && s.coordinators[0] == Frame(RETURNED, true, true)
              && s.runtimeResult.None?
  {
    var s := Idle(true);
    s := Pass(s, JOIN_MANAGEMENT, RETURNED, true);
  }
}
