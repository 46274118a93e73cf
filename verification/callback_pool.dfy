/**
 The lazily started callback pool: a FIFO queue shared by worker threads, closed
 once and drained by its workers. `Workers` is the queue object updated in place;
 the step system runs submitters, workers, failing start-ups and shutdowns against it.
 */
module CallbackPool {
  import opened Base

  type Job = nat
  type Wid = nat
  type Tid = nat
  type Call = nat

  datatype Queue = Queue(jobs: seq<Job>, closed: bool)

  datatype Next = Take(job: Job) | Leave | Sleep

  /** Locked region of `execute`. */
  function Offer(q: Queue, job: Job): (r: (Queue, bool))
  {
    if q.closed then (q, false) else (q.(jobs := q.jobs + [job]), true)
  }

  /** Locked region of the worker loop: pop first, and look at `closed` only when empty. */
  function Poll(q: Queue): (r: (Queue, Next))
  {
    if q.jobs != [] then (q.(jobs := q.jobs[1..]), Take(q.jobs[0]))
    else (q, if q.closed then Leave else Sleep)
  }

  class Workers {
    var jobs: seq<Job>
    var closed: bool

    function State(): (q: Queue)
      reads this
    {
      Queue(jobs, closed)
    }

    constructor ()
      ensures State() == Queue([], false)
    {
      jobs, closed := [], false;
    }

    method Execute(job: Job) returns (accepted: bool)
      modifies this
      ensures (State(), accepted) == Offer(old(State()), job)
      ensures accepted <==> !old(closed)
      ensures jobs == if accepted then old(jobs) + [job] else old(jobs)
      ensures closed == old(closed)
    {
      if closed {
        return false;
      }
      jobs := jobs + [job];
      accepted := true;
    }

    method Close()
      modifies this
      ensures State() == old(State()).(closed := true)
    {
      closed := true;
    }

    method NextJob() returns (next: Next)
      modifies this
      ensures (State(), next) == Poll(old(State()))
      ensures old(jobs) != [] ==> next == Take(old(jobs)[0]) && jobs == old(jobs)[1..]
      ensures old(jobs) == [] ==> jobs == [] && next == if old(closed) then Leave else Sleep
      ensures closed == old(closed)
    {
      if jobs != [] {
        next := Take(jobs[0]);
        jobs := jobs[1..];
      } else if closed {
        next := Leave;
      } else {
        next := Sleep;
      }
    }
  }

  /** `Running(k)` runs the job started as number `k`; `Died` is a worker unwound by a panic payload. */
  datatype WorkerPc = AtQueue | Asleep | Running(k: nat) | Exited | Died

  datatype Worker = Worker(wid: Wid, pc: WorkerPc)

  /** Frames from `StartUp` to `CloseNotify` hold the `ready` lock, except `Submitting` and `PushNotify`. */
  datatype Pc =
    | StartUp(w: Wid, crew: set<Tid>, job: Option<Job>)
    | RollBackNotify(w: Wid, crew: set<Tid>)
    | RollBack(w: Wid, crew: set<Tid>)
    | Submitting(w: Wid, offered: Job)
    | PushNotify(w: Wid)
    | Closing
    | CloseNotify(w: Wid)
    | Sealing
    | Joining
    | ShutDown(ok: bool)

  /**
   History: `accepted` and `started` list jobs in order, `runners[k]` is the worker
   that started job number `k`, `finished` the numbers whose call returned or unwound.
   */
  datatype System = System(
    threadCount: nat,
    ready: Option<Wid>,
    ownerClosed: bool,
    readyLock: Option<Call>,
    queues: map<Wid, Queue>,
    threads: map<Tid, Worker>,
    sealed: bool,
    calls: map<Call, Pc>,
    crew: set<Tid>,
    accepted: seq<Job>,
    started: seq<Job>,
    runners: seq<Tid>,
    finished: set<nat>)

  function Initial(threadCount: nat): (s: System)
  {
    System(threadCount, None, false, None, map[], map[], false, map[], {}, [], [], [], {})
  }

  datatype Action =
    | EnterReady(c: Call, job: Job)
    | EnterStart(c: Call, first: Option<Job>, w: Wid)
    | SpawnWorker(c: Call, t: Tid)
    | SpawnFails(c: Call)
    | RollBackWake(c: Call)
    | RollBackDone(c: Call)
    | Publish(c: Call)
    | Push(c: Call)
    | PushRefused(c: Call)
    | NotifyOne(c: Call, target: Option<Tid>)
    | ShutdownBegin(c: Call)
    | ShutdownClose(c: Call)
    | ShutdownWake(c: Call)
    | Seal(c: Call)
    | SealReturn(c: Call, ok: bool)
    | Pop(t: Tid)
    | Exit(t: Tid)
    | FallAsleep(t: Tid)
    | SpuriousWake(t: Tid)
    | Finish(t: Tid)
    | Die(t: Tid)

  predicate HoldsLock(pc: Pc) { pc.StartUp? || pc.RollBackNotify? || pc.RollBack? || pc.Closing? || pc.CloseNotify? }

  predicate Sleeper(s: System, t: Tid, w: Wid) { t in s.threads && s.threads[t] == Worker(w, Asleep) }

  predicate AtQueueOf(s: System, t: Tid)
  {
    t in s.threads && s.threads[t].pc.AtQueue? && s.threads[t].wid in s.queues
  }

  function Polled(s: System, t: Tid): (r: (Queue, Next))
    requires AtQueueOf(s, t)
  {
    Poll(s.queues[s.threads[t].wid])
  }

  predicate Enabled(s: System, a: Action)
  {
    match a
    case EnterReady(c, _) => c !in s.calls && s.readyLock.None? && !s.ownerClosed && s.ready.Some?
    case EnterStart(c, _, w) =>
      c !in s.calls && s.readyLock.None? && !s.ownerClosed && s.ready.None? && s.threadCount > 0 && w !in s.queues
    case SpawnWorker(c, t) =>
      c in s.calls && s.calls[c].StartUp? && |s.calls[c].crew| < s.threadCount && t !in s.threads && !s.sealed
    case SpawnFails(c) =>
      c in s.calls && s.calls[c].StartUp? && |s.calls[c].crew| < s.threadCount && s.calls[c].w in s.queues
    case RollBackWake(c) => c in s.calls && s.calls[c].RollBackNotify?
    case RollBackDone(c) =>
      && c in s.calls && s.calls[c].RollBack?
      && forall t :: t in s.calls[c].crew ==> t in s.threads && (s.threads[t].pc.Exited? || s.threads[t].pc.Died?)
    case Publish(c) => c in s.calls && s.calls[c].StartUp? && |s.calls[c].crew| == s.threadCount
    case Push(c) =>
      && c in s.calls && s.calls[c].Submitting? && s.calls[c].w in s.queues
      && Offer(s.queues[s.calls[c].w], s.calls[c].offered).1
    case PushRefused(c) =>
      && c in s.calls && s.calls[c].Submitting? && s.calls[c].w in s.queues
      && !Offer(s.queues[s.calls[c].w], s.calls[c].offered).1
    case NotifyOne(c, target) =>
      && c in s.calls && s.calls[c].PushNotify?
      && (if target.Some? then Sleeper(s, target.value, s.calls[c].w)
          else forall t :: t in s.threads ==> !Sleeper(s, t, s.calls[c].w))
    case ShutdownBegin(c) => c !in s.calls && s.readyLock.None?
    case ShutdownClose(c) => c in s.calls && s.calls[c].Closing? && (s.ready.Some? ==> s.ready.value in s.queues)
    case ShutdownWake(c) => c in s.calls && s.calls[c].CloseNotify?
    case Seal(c) => c in s.calls && s.calls[c].Sealing?
    case SealReturn(c, ok) =>
      // What the thread registry guarantees of an `Ok`: every thread was joined and none panicked.
      c in s.calls && s.calls[c].Joining? && (ok ==> forall t :: t in s.threads ==> s.threads[t].pc.Exited?)
    case Pop(t) => AtQueueOf(s, t) && Polled(s, t).1.Take?
    case Exit(t) => AtQueueOf(s, t) && Polled(s, t).1.Leave?
    case FallAsleep(t) => AtQueueOf(s, t) && Polled(s, t).1.Sleep?
    case SpuriousWake(t) => t in s.threads && s.threads[t].pc.Asleep?
    case Finish(t) => t in s.threads && s.threads[t].pc.Running?
    case Die(t) => t in s.threads && s.threads[t].pc.Running?
  }

  /** `available.notify_all()` */
  function WakeAll(threads: map<Tid, Worker>, w: Wid): (r: map<Tid, Worker>)
  {
    map t | t in threads :: if threads[t] == Worker(w, Asleep) then Worker(w, AtQueue) else threads[t]
  }

  function SetPc(s: System, c: Call, pc: Pc): (r: System) { s.(calls := s.calls[c := pc]) }

  function SetWorker(s: System, t: Tid, pc: WorkerPc): (r: System)
    requires t in s.threads
  {
    s.(threads := s.threads[t := s.threads[t].(pc := pc)])
  }

  function Apply(s: System, a: Action): (r: System)
    requires Enabled(s, a)
  {
    match a
    case EnterReady(c, job) => SetPc(s, c, Submitting(s.ready.value, job))
    case EnterStart(c, job, w) =>
      SetPc(s, c, StartUp(w, {}, job)).(readyLock := Some(c), queues := s.queues[w := Queue([], false)])
    case SpawnWorker(c, t) =>
      var StartUp(w, crew, job) := s.calls[c];
      SetPc(s, c, StartUp(w, crew + {t}, job)).(threads := s.threads[t := Worker(w, AtQueue)])
    case SpawnFails(c) =>
      var w := s.calls[c].w;
      SetPc(s, c, RollBackNotify(w, s.calls[c].crew)).(queues := s.queues[w := s.queues[w].(closed := true)])
    case RollBackWake(c) =>
      SetPc(s, c, RollBack(s.calls[c].w, s.calls[c].crew)).(threads := WakeAll(s.threads, s.calls[c].w))
    case RollBackDone(c) => s.(calls := s.calls - {c}, readyLock := None)
    case Publish(c) =>
      var pc := s.calls[c];
      s.(ready := Some(pc.w), crew := pc.crew, readyLock := None,
      calls := if pc.job.Some? then s.calls[c := Submitting(pc.w, pc.job.value)] else s.calls - {c})
    case Push(c) =>
      var w, job := s.calls[c].w, s.calls[c].offered;
      SetPc(s, c, PushNotify(w)).(queues := s.queues[w := Offer(s.queues[w], job).0], accepted := s.accepted + [job])
    case PushRefused(c) => s.(calls := s.calls - {c})
    case NotifyOne(c, target) =>
      s.(calls := s.calls - {c},
      threads := if target.Some? then s.threads[target.value := Worker(s.calls[c].w, AtQueue)] else s.threads)
    case ShutdownBegin(c) => SetPc(s, c, Closing).(readyLock := Some(c), ownerClosed := true)
    case ShutdownClose(c) =>
      if s.ready.Some? then
        var w := s.ready.value;
        SetPc(s, c, CloseNotify(w)).(queues := s.queues[w := s.queues[w].(closed := true)])
      else SetPc(s, c, Sealing).(readyLock := None)
    case ShutdownWake(c) => SetPc(s, c, Sealing).(readyLock := None, threads := WakeAll(s.threads, s.calls[c].w))
    case Seal(c) => SetPc(s, c, Joining).(sealed := true)
    case SealReturn(c, ok) => SetPc(s, c, ShutDown(ok))
    case Pop(t) =>
      var (q, next) := Polled(s, t);
      SetWorker(s, t, Running(|s.started|)).
      (queues := s.queues[s.threads[t].wid := q], started := s.started + [next.job], runners := s.runners + [t])
    case Exit(t) => SetWorker(s, t, Exited)
    case FallAsleep(t) => SetWorker(s, t, Asleep)
    case SpuriousWake(t) => SetWorker(s, t, AtQueue)
    case Finish(t) => SetWorker(s, t, AtQueue).(finished := s.finished + {s.threads[t].pc.k})
    case Die(t) => SetWorker(s, t, Died).(finished := s.finished + {s.threads[t].pc.k})
  }

  // ---------------------------------------------------------------- invariants

  /** The `ready` lock has one holder, and only the published queue is ever offered a job. */
  ghost predicate LockOk(s: System)
  {
    && (forall c :: c in s.calls && HoldsLock(s.calls[c]) ==> s.readyLock == Some(c))
    && (s.readyLock.Some? ==> s.readyLock.value in s.calls && HoldsLock(s.calls[s.readyLock.value]))
  }

  ghost predicate RollingBack(s: System, w: Wid, crew: set<Tid>)
  {
    && w in s.queues && s.queues[w].closed
    && forall t :: t in crew ==> t in s.threads && s.threads[t].wid == w
  }

  ghost predicate FrameOk(s: System, pc: Pc)
  {
    match pc
    case StartUp(w, crew, _) =>
      && w in s.queues && s.ready.None? && !s.ownerClosed && !s.queues[w].closed && s.queues[w].jobs == []
      && s.threadCount > 0
      && |crew| <= s.threadCount && forall t :: t in crew ==> t in s.threads && s.threads[t].wid == w
    case RollBackNotify(w, crew) => s.ready.None? && RollingBack(s, w, crew)
    case RollBack(w, crew) => s.ready.None? && RollingBack(s, w, crew)
    case Submitting(w, _) => s.ready == Some(w)
    case PushNotify(w) => s.ready == Some(w)
    case Closing => s.ownerClosed
    case CloseNotify(w) => s.ownerClosed && s.ready == Some(w) && w in s.queues && s.queues[w].closed
    case Sealing => s.ownerClosed && (s.ready.Some? ==> s.ready.value in s.queues && s.queues[s.ready.value].closed)
    case Joining => s.sealed
    case ShutDown(ok) => s.sealed && (ok ==> forall t :: t in s.threads ==> s.threads[t].pc.Exited?)
  }

  ghost predicate FramesOk(s: System) { forall c :: c in s.calls ==> FrameOk(s, s.calls[c]) }

  ghost predicate PublishedOk(s: System)
  {
    && (s.ready.Some? ==> s.ready.value in s.queues && s.crew != {} && s.crew <= s.threads.Keys)
    && (s.sealed ==> s.ownerClosed && (s.ready.Some? ==> s.queues[s.ready.value].closed))
    && (s.ready.Some? && s.queues[s.ready.value].closed ==> s.ownerClosed)
    && (s.ready.Some? ==> forall t :: t in s.crew ==> s.threads[t].wid == s.ready.value)
  }

  /** Workers belong to known queues, and a worker leaves only a closed and empty queue. */
  ghost predicate WorkerOk(s: System, t: Tid)
    requires t in s.threads
  {
    && s.threads[t].wid in s.queues
    && (s.threads[t].pc.Exited? ==> s.queues[s.threads[t].wid] == Queue([], true))
  }

  ghost predicate WorkersOk(s: System) { forall t :: t in s.threads ==> WorkerOk(s, t) }

  /** Jobs leave the published queue in the order they entered it. */
  ghost predicate OrderOk(s: System)
  {
    && s.accepted == s.started + (if s.ready.Some? && s.ready.value in s.queues then s.queues[s.ready.value].jobs
       else [])
    && (forall w :: w in s.queues && s.ready != Some(w) ==> s.queues[w].jobs == [])
  }

  ghost predicate RunsOk(s: System)
  {
    && |s.runners| == |s.started|
    && (forall k :: 0 <= k < |s.started| && k !in s.finished ==>
          s.runners[k] in s.threads && s.threads[s.runners[k]].pc == Running(k))
  }

  function Notifiers(s: System, w: Wid): (r: set<Call>) { set c | c in s.calls && s.calls[c] == PushNotify(w) }

  function Idle(s: System, w: Wid): (r: set<Tid>) { set t | t in s.threads && s.threads[t] == Worker(w, AtQueue) }

  predicate WillWakeAll(pc: Pc, w: Wid) { pc == CloseNotify(w) || (pc.RollBackNotify? && pc.w == w) }

  /** While a worker sleeps, every queued job has a worker on its way and a close has its wakeup coming. */
  ghost predicate WakeupAt(s: System, t: Tid)
    requires t in s.threads && s.threads[t].wid in s.queues
  {
    var w := s.threads[t].wid;
    s.threads[t].pc.Asleep? ==>
      && |s.queues[w].jobs| <= |Notifiers(s, w)| + |Idle(s, w)|
      && (s.queues[w].closed ==> exists c :: c in s.calls && WillWakeAll(s.calls[c], w))
  }

  ghost predicate WakeupOk(s: System)
    requires WorkersOk(s)
  {
    forall t :: t in s.threads ==> WakeupAt(s, t)
  }

  ghost predicate Inv(s: System)
  {
    LockOk(s) && FramesOk(s) && PublishedOk(s) && WorkersOk(s) && OrderOk(s) && RunsOk(s) && WakeupOk(s)
  }

  // -------------------------------------------------------------- preservation

  predicate IsWorkerAction(a: Action)
  {
    a.Pop? || a.Exit? || a.FallAsleep? || a.SpuriousWake? || a.Finish? || a.Die?
  }

  predicate IsStartAction(a: Action)
  {
    a.EnterStart? || a.SpawnWorker? || a.SpawnFails? || a.RollBackWake? || a.RollBackDone? || a.Publish?
  }

  predicate IsSubmitAction(a: Action) { a.EnterReady? || a.Push? || a.PushRefused? || a.NotifyOne? }

  predicate IsShutdownAction(a: Action)
  {
    a.ShutdownBegin? || a.ShutdownClose? || a.ShutdownWake? || a.Seal? || a.SealReturn?
  }

  /** Worker steps neither open, close, publish nor start anything. */
  ghost predicate Quiet(s: System, s': System)
  {
    && s'.ready == s.ready && s'.ownerClosed == s.ownerClosed && s'.sealed == s.sealed
    && s'.threadCount == s.threadCount
    && s'.calls == s.calls && s'.crew == s.crew && s'.readyLock == s.readyLock
    && s'.queues.Keys == s.queues.Keys && s'.threads.Keys == s.threads.Keys
    && (forall w :: w in s.queues ==>
          && s'.queues[w].closed == s.queues[w].closed
          && (s.queues[w].jobs == [] ==> s'.queues[w].jobs == []))
    && (forall t :: t in s.threads ==>
          && s'.threads[t].wid == s.threads[t].wid
          && (s.threads[t].pc.Exited? ==> s'.threads[t].pc.Exited?))
  }

  lemma PopIsQuiet(s: System, a: Action)
    requires Enabled(s, a) && a.Pop?
    ensures Quiet(s, Apply(s, a))
  {
  }

  lemma WorkersAreQuiet(s: System, a: Action)
    requires Enabled(s, a) && IsWorkerAction(a)
    ensures Quiet(s, Apply(s, a))
  {
    if a.Pop? {
      PopIsQuiet(s, a);
    } else {
      assert Apply(s, a).queues == s.queues;
    }
  }

  lemma QuietKeeps(s: System, s': System)
    requires Quiet(s, s') && FramesOk(s) && PublishedOk(s)
    ensures FramesOk(s') && PublishedOk(s')
  {
    forall c | c in s'.calls ensures FrameOk(s', s'.calls[c]) { assert FrameOk(s, s.calls[c]); }
  }

  lemma LockSubmit(s: System, a: Action)
    requires LockOk(s) && Enabled(s, a) && IsSubmitAction(a)
    ensures LockOk(Apply(s, a))
  {
  }

  lemma LockCall(s: System, a: Action)
    requires LockOk(s) && Enabled(s, a) && !IsWorkerAction(a)
    ensures LockOk(Apply(s, a))
  {
    if IsSubmitAction(a) { LockSubmit(s, a); }
  }

  lemma LockStep(s: System, a: Action)
    requires LockOk(s) && Enabled(s, a)
    ensures LockOk(Apply(s, a))
  {
    if IsWorkerAction(a) { WorkersAreQuiet(s, a); } else { LockCall(s, a); }
  }

  lemma FrameStart(s: System, a: Action, c: Call)
    requires LockOk(s) && FramesOk(s) && OrderOk(s)
    requires Enabled(s, a) && IsStartAction(a) && c in Apply(s, a).calls
    ensures FrameOk(Apply(s, a), Apply(s, a).calls[c])
  {
    if c in s.calls { assert FrameOk(s, s.calls[c]); }
  }

  lemma FrameSubmit(s: System, a: Action, c: Call)
    requires FramesOk(s) && Enabled(s, a) && IsSubmitAction(a) && c in Apply(s, a).calls
    ensures FrameOk(Apply(s, a), Apply(s, a).calls[c])
  {
    if c in s.calls { assert FrameOk(s, s.calls[c]); }
  }

  lemma FrameClose(s: System, d: Call, c: Call)
    requires LockOk(s) && FramesOk(s) && PublishedOk(s)
    requires Enabled(s, ShutdownClose(d)) && c in Apply(s, ShutdownClose(d)).calls
    ensures FrameOk(Apply(s, ShutdownClose(d)), Apply(s, ShutdownClose(d)).calls[c])
  {
    if c in s.calls { assert FrameOk(s, s.calls[c]); }
    assert FrameOk(s, s.calls[d]);
  }

  lemma FrameBegin(s: System, d: Call, c: Call)
    requires LockOk(s) && FramesOk(s) && Enabled(s, ShutdownBegin(d)) && c in Apply(s, ShutdownBegin(d)).calls
    ensures FrameOk(Apply(s, ShutdownBegin(d)), Apply(s, ShutdownBegin(d)).calls[c])
  {
    if c in s.calls { assert FrameOk(s, s.calls[c]); }
  }

  lemma FrameShutdown(s: System, a: Action, c: Call)
    requires FramesOk(s) && PublishedOk(s) && Enabled(s, a)
    requires a.ShutdownWake? || a.Seal? || a.SealReturn?
    requires c in Apply(s, a).calls
    ensures FrameOk(Apply(s, a), Apply(s, a).calls[c])
  {
    if c in s.calls { assert FrameOk(s, s.calls[c]); }
  }

  lemma FramesStep(s: System, a: Action)
    requires LockOk(s) && FramesOk(s) && PublishedOk(s) && OrderOk(s) && Enabled(s, a)
    ensures FramesOk(Apply(s, a))
  {
    if IsWorkerAction(a) {
      WorkersAreQuiet(s, a);
      QuietKeeps(s, Apply(s, a));
    } else {
      forall c | c in Apply(s, a).calls ensures FrameOk(Apply(s, a), Apply(s, a).calls[c]) {
        if IsStartAction(a) {
          FrameStart(s, a, c);
        } else if IsSubmitAction(a) {
          FrameSubmit(s, a, c);
        } else if a.ShutdownBegin? {
          FrameBegin(s, a.c, c);
        } else if a.ShutdownClose? {
          FrameClose(s, a.c, c);
        } else {
          FrameShutdown(s, a, c);
        }
      }
    }
  }

  lemma PublishedStart(s: System, a: Action)
    requires FramesOk(s) && PublishedOk(s) && Enabled(s, a) && IsStartAction(a)
    ensures PublishedOk(Apply(s, a))
  {
    if a.Publish? { assert FrameOk(s, s.calls[a.c]); }
  }

  lemma PublishedSubmit(s: System, a: Action)
    requires PublishedOk(s) && Enabled(s, a) && IsSubmitAction(a)
    ensures PublishedOk(Apply(s, a))
  {
  }

  lemma PublishedShutdown(s: System, a: Action)
    requires FramesOk(s) && PublishedOk(s) && Enabled(s, a) && IsShutdownAction(a)
    ensures PublishedOk(Apply(s, a))
  {
    if a.Seal? { assert FrameOk(s, s.calls[a.c]); }
  }

  lemma PublishedStep(s: System, a: Action)
    requires FramesOk(s) && PublishedOk(s) && Enabled(s, a)
    ensures PublishedOk(Apply(s, a))
  {
    if IsWorkerAction(a) {
      WorkersAreQuiet(s, a);
      QuietKeeps(s, Apply(s, a));
    } else if IsStartAction(a) {
      PublishedStart(s, a);
    } else if IsSubmitAction(a) {
      PublishedSubmit(s, a);
    } else {
      PublishedShutdown(s, a);
    }
  }

  lemma WorkersStart(s: System, a: Action, t: Tid)
    requires FramesOk(s) && WorkersOk(s) && Enabled(s, a) && IsStartAction(a) && t in Apply(s, a).threads
    ensures WorkerOk(Apply(s, a), t)
  {
    if t in s.threads { assert WorkerOk(s, t); }
  }

  lemma WorkersSubmit(s: System, a: Action, t: Tid)
    requires Enabled(s, a) && IsSubmitAction(a) && t in s.threads && WorkerOk(s, t)
    ensures t in Apply(s, a).threads && WorkerOk(Apply(s, a), t)
  {
  }

  lemma WorkersShutdown(s: System, a: Action, t: Tid)
    requires Enabled(s, a) && IsShutdownAction(a) && t in s.threads && WorkerOk(s, t)
    ensures t in Apply(s, a).threads && WorkerOk(Apply(s, a), t)
  {
  }

  lemma WorkersPop(s: System, u: Tid, t: Tid)
    requires WorkersOk(s) && Enabled(s, Pop(u)) && t in s.threads
    ensures t in Apply(s, Pop(u)).threads && WorkerOk(Apply(s, Pop(u)), t)
  {
    assert WorkerOk(s, t) && WorkerOk(s, u);
  }

  lemma WorkersOther(s: System, a: Action, t: Tid)
    requires WorkersOk(s) && Enabled(s, a) && IsWorkerAction(a) && !a.Pop? && t in s.threads
    ensures t in Apply(s, a).threads && WorkerOk(Apply(s, a), t)
  {
    assert WorkerOk(s, t) && Apply(s, a).queues == s.queues;
  }

  lemma WorkersStep(s: System, a: Action, t: Tid)
    requires FramesOk(s) && WorkersOk(s) && Enabled(s, a) && t in Apply(s, a).threads
    ensures WorkerOk(Apply(s, a), t)
  {
    if a.Pop? {
      WorkersPop(s, a.t, t);
    } else if IsWorkerAction(a) {
      WorkersOther(s, a, t);
    } else if IsStartAction(a) {
      WorkersStart(s, a, t);
    } else if IsSubmitAction(a) {
      WorkersSubmit(s, a, t);
    } else {
      WorkersShutdown(s, a, t);
    }
  }

  lemma OrderStart(s: System, a: Action)
    requires FramesOk(s) && OrderOk(s) && Enabled(s, a) && IsStartAction(a)
    ensures OrderOk(Apply(s, a))
  {
    if a.Publish? { assert FrameOk(s, s.calls[a.c]); }
  }

  lemma OrderSubmit(s: System, a: Action)
    requires FramesOk(s) && OrderOk(s) && Enabled(s, a) && IsSubmitAction(a)
    ensures OrderOk(Apply(s, a))
  {
    if a.Push? { assert FrameOk(s, s.calls[a.c]); }
  }

  lemma OrderShutdown(s: System, a: Action)
    requires OrderOk(s) && Enabled(s, a) && IsShutdownAction(a)
    ensures OrderOk(Apply(s, a))
  {
  }

  lemma OrderPop(s: System, t: Tid)
    requires WorkersOk(s) && OrderOk(s) && PublishedOk(s) && Enabled(s, Pop(t))
    ensures OrderOk(Apply(s, Pop(t)))
  {
    assert s.queues[s.threads[t].wid].jobs != [];
  }

  lemma OrderWorker(s: System, a: Action)
    requires OrderOk(s) && Enabled(s, a) && IsWorkerAction(a) && !a.Pop?
    ensures OrderOk(Apply(s, a))
  {
    assert Apply(s, a).queues == s.queues;
  }

  lemma OrderStep(s: System, a: Action)
    requires FramesOk(s) && WorkersOk(s) && OrderOk(s) && PublishedOk(s) && Enabled(s, a)
    ensures OrderOk(Apply(s, a))
  {
    if a.Pop? {
      OrderPop(s, a.t);
    } else if IsWorkerAction(a) {
      OrderWorker(s, a);
    } else if IsStartAction(a) {
      OrderStart(s, a);
    } else if IsSubmitAction(a) {
      OrderSubmit(s, a);
    } else {
      OrderShutdown(s, a);
    }
  }

  /** Calls neither start nor finish a job, and leave running workers alone. */
  lemma RunsCall(s: System, a: Action)
    requires Enabled(s, a) && !IsWorkerAction(a)
    ensures var t := Apply(s, a); t.runners == s.runners && t.started == s.started && t.finished == s.finished
  {
  }

  lemma RunningKept(s: System, a: Action, u: Tid)
    requires Enabled(s, a) && !IsWorkerAction(a) && u in s.threads && s.threads[u].pc.Running?
    ensures u in Apply(s, a).threads && Apply(s, a).threads[u] == s.threads[u]
  {
  }

  lemma RunsPop(s: System, t: Tid)
    requires RunsOk(s) && Enabled(s, Pop(t))
    ensures RunsOk(Apply(s, Pop(t)))
  {
  }

  lemma RunsWorker(s: System, a: Action)
    requires RunsOk(s) && Enabled(s, a) && IsWorkerAction(a) && !a.Pop?
    ensures RunsOk(Apply(s, a))
  {
  }

  lemma RunsStep(s: System, a: Action)
    requires RunsOk(s) && Enabled(s, a)
    ensures RunsOk(Apply(s, a))
  {
    if a.Pop? {
      RunsPop(s, a.t);
    } else if IsWorkerAction(a) {
      RunsWorker(s, a);
    } else {
      RunsCall(s, a);
      forall k | 0 <= k < |s.started| && k !in s.finished
        ensures s.runners[k] in Apply(s, a).threads && Apply(s, a).threads[s.runners[k]].pc == Running(k)
      {
        RunningKept(s, a, s.runners[k]);
      }
    }
  }

  /** Number of jobs that a notification or an awake worker still covers. */
  function Cover(s: System, w: Wid): (n: nat) { |Notifiers(s, w)| + |Idle(s, w)| }

  lemma IdleMoves(s: System, s': System, w: Wid, u: Tid)
    requires forall t :: t != u ==>
               && (t in s.threads <==> t in s'.threads)
               && (t in s.threads ==> s.threads[t] == s'.threads[t])
    ensures |Idle(s', w)| - One(u in Idle(s', w)) == |Idle(s, w)| - One(u in Idle(s, w))
  {
    SizeMoves(Idle(s, w), Idle(s', w), u);
  }

  lemma NotifiersMove(s: System, s': System, w: Wid, d: Call)
    requires forall c :: c != d ==> (c in s.calls <==> c in s'.calls) && (c in s.calls ==> s.calls[c] == s'.calls[c])
    ensures |Notifiers(s', w)| - One(d in Notifiers(s', w)) == |Notifiers(s, w)| - One(d in Notifiers(s, w))
  {
    SizeMoves(Notifiers(s, w), Notifiers(s', w), d);
  }

  /** A worker step lowers the cover only together with the queue, or when the queue is empty. */
  lemma CoverWorker(s: System, a: Action, w: Wid)
    requires Enabled(s, a) && IsWorkerAction(a) && w in s.queues
    requires |s.queues[w].jobs| <= Cover(s, w)
    ensures |Apply(s, a).queues[w].jobs| <= Cover(Apply(s, a), w)
  {
    IdleMoves(s, Apply(s, a), w, a.t);
    assert Notifiers(Apply(s, a), w) == Notifiers(s, w);
    if a.Finish? || a.Die? || a.SpuriousWake? {
      assert a.t !in Idle(s, w);
    }
  }

  /** Pushing raises job count and cover together; a notification that finds a sleeper moves the cover to it. */
  lemma CoverSubmit(s: System, a: Action, w: Wid)
    requires Enabled(s, a) && IsSubmitAction(a) && w in s.queues
    requires |s.queues[w].jobs| <= Cover(s, w)
    requires a.NotifyOne? && a.target.None? ==> s.calls[a.c].w != w
    ensures |Apply(s, a).queues[w].jobs| <= Cover(Apply(s, a), w)
  {
    var s' := Apply(s, a);
    NotifiersMove(s, s', w, a.c);
    if a.NotifyOne? && a.target.Some? {
      IdleMoves(s, s', w, a.target.value);
    } else {
      assert Idle(s', w) == Idle(s, w);
    }
  }

  /** What a step outside submission and workers does to a queue's jobs and cover. */
  lemma CoverSpawn(s: System, c: Call, t: Tid, w: Wid)
    requires Enabled(s, SpawnWorker(c, t))
    ensures Cover(s, w) <= Cover(Apply(s, SpawnWorker(c, t)), w)
  {
    var s' := Apply(s, SpawnWorker(c, t));
    NotifiersMove(s, s', w, c);
    IdleMoves(s, s', w, t);
  }

  lemma CoverWake(s: System, a: Action, w: Wid)
    requires Enabled(s, a) && (a.RollBackWake? || a.ShutdownWake?) && s.calls[a.c].w != w
    ensures Cover(s, w) <= Cover(Apply(s, a), w)
  {
    NotifiersMove(s, Apply(s, a), w, a.c);
    assert Idle(Apply(s, a), w) == Idle(s, w);
  }

  lemma CoverStill(s: System, a: Action, w: Wid)
    requires Enabled(s, a) && !IsSubmitAction(a) && !IsWorkerAction(a)
    requires !a.SpawnWorker? && !a.RollBackWake? && !a.ShutdownWake?
    ensures Cover(s, w) <= Cover(Apply(s, a), w)
  {
    NotifiersMove(s, Apply(s, a), w, a.c);
    assert Apply(s, a).threads == s.threads;
    assert Idle(Apply(s, a), w) == Idle(s, w);
  }

  lemma JobsStill(s: System, a: Action, w: Wid)
    requires Enabled(s, a) && !IsSubmitAction(a) && !IsWorkerAction(a) && w in s.queues
    ensures w in Apply(s, a).queues && Apply(s, a).queues[w].jobs == s.queues[w].jobs
  {
  }

  /** Everything else leaves the published queue's cover alone. */
  lemma CoverOther(s: System, a: Action, w: Wid)
    requires Enabled(s, a) && !IsSubmitAction(a) && !IsWorkerAction(a) && w in s.queues
    requires |s.queues[w].jobs| <= Cover(s, w)
    requires (a.RollBackWake? || a.ShutdownWake?) ==> s.calls[a.c].w != w
    ensures w in Apply(s, a).queues && |Apply(s, a).queues[w].jobs| <= Cover(Apply(s, a), w)
  {
    JobsStill(s, a, w);
    if a.SpawnWorker? {
      CoverSpawn(s, a.c, a.t, w);
    } else if a.RollBackWake? || a.ShutdownWake? {
      CoverWake(s, a, w);
    } else {
      CoverStill(s, a, w);
    }
  }

  /** A worker found asleep after a step was asleep before, or went to sleep on an open empty queue. */
  lemma SleepersBefore(s: System, a: Action, t: Tid)
    requires Enabled(s, a) && t in Apply(s, a).threads && Apply(s, a).threads[t].pc.Asleep?
    ensures t in s.threads && Apply(s, a).threads[t].wid == s.threads[t].wid
    ensures a == FallAsleep(t) || s.threads[t].pc.Asleep?
    ensures (a.RollBackWake? || a.ShutdownWake?) ==> s.calls[a.c].w != s.threads[t].wid
    ensures a.NotifyOne? && a.target.None? ==> s.calls[a.c].w != s.threads[t].wid
  {
    if a.NotifyOne? && a.target.None? { assert !Sleeper(s, t, s.calls[a.c].w); }
  }

  lemma StartFrame(s: System, a: Action, c: Call)
    requires Enabled(s, a) && c in s.calls && IsStartAction(a) && a.c != c
    ensures c in Apply(s, a).calls && Apply(s, a).calls[c] == s.calls[c]
  {
  }

  lemma SubmitFrame(s: System, a: Action, c: Call)
    requires Enabled(s, a) && c in s.calls && IsSubmitAction(a) && a.c != c
    ensures c in Apply(s, a).calls && Apply(s, a).calls[c] == s.calls[c]
  {
  }

  lemma ShutdownFrame(s: System, a: Action, c: Call)
    requires Enabled(s, a) && c in s.calls && IsShutdownAction(a) && a.c != c
    ensures c in Apply(s, a).calls && Apply(s, a).calls[c] == s.calls[c]
  {
  }

  /** A call about to wake a queue's workers goes on to do so. */
  lemma WakerStays(s: System, a: Action, c: Call, w: Wid)
    requires Enabled(s, a) && c in s.calls && WillWakeAll(s.calls[c], w)
    requires (a.RollBackWake? || a.ShutdownWake?) ==> s.calls[a.c].w != w
    ensures c in Apply(s, a).calls && WillWakeAll(Apply(s, a).calls[c], w)
  {
    if IsWorkerAction(a) {
      WorkersAreQuiet(s, a);
    } else if IsStartAction(a) {
      StartFrame(s, a, c);
    } else if IsSubmitAction(a) {
      SubmitFrame(s, a, c);
    } else {
      ShutdownFrame(s, a, c);
    }
  }

  /** Whoever closes a queue goes on to wake its workers. */
  lemma CloserWakes(s: System, a: Action, w: Wid)
    requires Enabled(s, a) && w in s.queues && !s.queues[w].closed
    requires w in Apply(s, a).queues && Apply(s, a).queues[w].closed
    ensures !IsWorkerAction(a) && a.c in Apply(s, a).calls && WillWakeAll(Apply(s, a).calls[a.c], w)
  {
  }

  lemma CloseWakeup(s: System, a: Action, w: Wid)
    requires Enabled(s, a) && w in s.queues && w in Apply(s, a).queues && Apply(s, a).queues[w].closed
    requires s.queues[w].closed ==> exists c :: c in s.calls && WillWakeAll(s.calls[c], w)
    requires (a.RollBackWake? || a.ShutdownWake?) ==> s.calls[a.c].w != w
    ensures exists c :: c in Apply(s, a).calls && WillWakeAll(Apply(s, a).calls[c], w)
  {
    if s.queues[w].closed {
      var c :| c in s.calls && WillWakeAll(s.calls[c], w);
      WakerStays(s, a, c, w);
    } else {
      CloserWakes(s, a, w);
    }
  }

  lemma WakeupStep(s: System, a: Action, t: Tid)
    requires WorkersOk(s) && WakeupOk(s) && Enabled(s, a) && WorkersOk(Apply(s, a)) && t in Apply(s, a).threads
    ensures WakeupAt(Apply(s, a), t)
  {
    var s' := Apply(s, a);
    if s'.threads[t].pc.Asleep? {
      SleepersBefore(s, a, t);
      var w := s.threads[t].wid;
      assert WorkerOk(s, t) && WorkerOk(s', t);
      if a == FallAsleep(t) {
        assert s'.queues == s.queues;
      } else {
        assert WakeupAt(s, t);
        if IsWorkerAction(a) {
          CoverWorker(s, a, w);
        } else if IsSubmitAction(a) {
          CoverSubmit(s, a, w);
        } else {
          CoverOther(s, a, w);
        }
        if s'.queues[w].closed { CloseWakeup(s, a, w); }
      }
    }
  }

  lemma InvStep(s: System, a: Action)
    requires Inv(s) && Enabled(s, a)
    ensures Inv(Apply(s, a))
  {
    LockStep(s, a);
    FramesStep(s, a);
    PublishedStep(s, a);
    forall t | t in Apply(s, a).threads ensures WorkerOk(Apply(s, a), t) { WorkersStep(s, a, t); }
    OrderStep(s, a);
    RunsStep(s, a);
    forall t | t in Apply(s, a).threads ensures WakeupAt(Apply(s, a), t) { WakeupStep(s, a, t); }
  }

  // ---------------------------------------------------------------------- runs

  ghost predicate StepsAt(run: seq<System>, i: nat)
    requires i + 1 < |run|
  {
    exists a :: Enabled(run[i], a) && run[i + 1] == Apply(run[i], a)
  }

  ghost predicate IsRun(run: seq<System>)
  {
    |run| > 0 && run[0] == Initial(run[0].threadCount) && forall i :: 0 <= i < |run| - 1 ==> StepsAt(run, i)
  }

  /** A step the run takes. */
  ghost function StepAt(run: seq<System>, i: nat): (a: Action)
    requires IsRun(run) && i + 1 < |run|
    ensures Enabled(run[i], a) && run[i + 1] == Apply(run[i], a)
  {
    assert StepsAt(run, i);
    var a :| Enabled(run[i], a) && run[i + 1] == Apply(run[i], a);
    a
  }

  lemma {:induction false} RunInv(run: seq<System>, i: nat)
    requires IsRun(run) && i < |run|
    ensures forall k :: 0 <= k <= i ==> Inv(run[k])
  {
    if i > 0 {
      RunInv(run, i - 1);
      var a := StepAt(run, i - 1);
      InvStep(run[i - 1], a);
      forall k | 0 <= k <= i ensures Inv(run[k]) {
        if k == i { assert run[k] == Apply(run[i - 1], a); }
      }
    }
  }

  /** An open pool with its lock free lets a job in, by way of its running workers or by starting them. */
  lemma OpenPoolEnters(s: System, c: Call, job: Job, w: Wid)
    requires c !in s.calls && s.readyLock.None? && w !in s.queues
    ensures !s.ownerClosed && (s.ready.Some? || s.threadCount > 0) <==>
            Enabled(s, EnterReady(c, job)) || Enabled(s, EnterStart(c, Some(job), w))
  {
  }

  /** Steps by which a call goes on, or a worker it waits for. */
  predicate Helps(s: System, c: Call, a: Action)
    requires c in s.calls
  {
    if IsWorkerAction(a) then s.calls[c].RollBack? && a.t in s.calls[c].crew && !a.SpuriousWake? else a.c == c
  }

  lemma CrewGoesOn(s: System, c: Call, t: Tid)
    requires c in s.calls && s.calls[c].RollBack? && t in s.calls[c].crew && t in s.threads && WorkerOk(s, t)
    requires !s.threads[t].pc.Exited? && !s.threads[t].pc.Died? && !s.threads[t].pc.Asleep?
    ensures exists a :: Helps(s, c, a) && Enabled(s, a)
  {
    if s.threads[t].pc.Running? {
      assert Helps(s, c, Finish(t)) && Enabled(s, Finish(t));
    } else {
      assert Helps(s, c, Pop(t)) && Helps(s, c, Exit(t)) && Helps(s, c, FallAsleep(t));
      assert Enabled(s, Pop(t)) || Enabled(s, Exit(t)) || Enabled(s, FallAsleep(t));
    }
  }

  /** While a failed start-up waits for its crew, none of them is asleep. */
  lemma CrewAwake(s: System, c: Call, t: Tid)
    requires Inv(s) && c in s.calls && s.calls[c].RollBack? && t in s.calls[c].crew
    ensures t in s.threads && !s.threads[t].pc.Asleep?
  {
    assert FrameOk(s, s.calls[c]);
    assert WorkerOk(s, t) && WakeupAt(s, t);
    OneHolder(s, c);
  }

  lemma OneHolder(s: System, c: Call)
    requires LockOk(s) && c in s.calls && HoldsLock(s.calls[c])
    ensures forall d :: d in s.calls && HoldsLock(s.calls[d]) ==> d == c
  {
  }

  lemma NotifierGoesOn(s: System, c: Call)
    requires c in s.calls && s.calls[c].PushNotify?
    ensures exists a :: Helps(s, c, a) && Enabled(s, a)
  {
    if t :| Sleeper(s, t, s.calls[c].w) {
      assert Helps(s, c, NotifyOne(c, Some(t))) && Enabled(s, NotifyOne(c, Some(t)));
    } else {
      assert Helps(s, c, NotifyOne(c, None)) && Enabled(s, NotifyOne(c, None));
    }
  }

  lemma CallGoesOn(s: System, c: Call)
    requires c in s.calls
    requires FrameOk(s, s.calls[c]) && PublishedOk(s) && !s.calls[c].ShutDown? && !s.calls[c].RollBack?
    ensures exists a :: Helps(s, c, a) && Enabled(s, a)
  {
    match s.calls[c]
    case StartUp(_, _, _) =>
      assert Helps(s, c, SpawnFails(c)) && Helps(s, c, Publish(c));
      assert Enabled(s, SpawnFails(c)) || Enabled(s, Publish(c));
    case RollBackNotify(_, _) => assert Helps(s, c, RollBackWake(c));
    case Submitting(_, _) =>
      assert Helps(s, c, Push(c)) && Helps(s, c, PushRefused(c));
      assert Enabled(s, Push(c)) || Enabled(s, PushRefused(c));
    case PushNotify(_) => NotifierGoesOn(s, c);
    case Closing => assert Helps(s, c, ShutdownClose(c));
    case CloseNotify(_) => assert Helps(s, c, ShutdownWake(c));
    case Sealing => assert Helps(s, c, Seal(c));
    case Joining => assert Helps(s, c, SealReturn(c, false));
  }

  /** A call in progress can always take its next step, or a worker it waits for can. */
  lemma CallsGoOn(run: seq<System>, i: nat, c: Call)
    requires IsRun(run) && i < |run| && c in run[i].calls && !run[i].calls[c].ShutDown?
    ensures exists a :: Helps(run[i], c, a) && Enabled(run[i], a)
  {
    RunInv(run, i);
    var s := run[i];
    if !s.calls[c].RollBack? {
      CallGoesOn(s, c);
    } else {
      forall t | t in s.calls[c].crew ensures t in s.threads && !s.threads[t].pc.Asleep? { CrewAwake(s, c, t); }
      if t :| t in s.calls[c].crew && !s.threads[t].pc.Exited? && !s.threads[t].pc.Died? {
        assert WorkerOk(s, t);
        CrewGoesOn(s, c, t);
      } else {
        assert Helps(s, c, RollBackDone(c)) && Enabled(s, RollBackDone(c));
      }
    }
  }

  /** A submitted job is refused exactly if the pool's queue was closed, which only its shutdown does. */
  lemma RefusedOnlyByShutdown(run: seq<System>, i: nat, c: Call)
    requires IsRun(run) && i < |run| && c in run[i].calls && run[i].calls[c].Submitting?
    ensures var q := run[i].queues; var w := run[i].calls[c].w;
            && w in q && (Enabled(run[i], PushRefused(c)) <==> q[w].closed)
            && (Enabled(run[i], Push(c)) <==> !q[w].closed) && (q[w].closed ==> run[i].ownerClosed)
  {
    RunInv(run, i);
    assert FrameOk(run[i], run[i].calls[c]);
  }

  /** Jobs are started in acceptance order and none is started twice. */
  lemma StartedInOrder(run: seq<System>, i: nat)
    requires IsRun(run) && i < |run|
    ensures run[i].started <= run[i].accepted
  {
    RunInv(run, i);
  }

  /** After the registry is sealed the pool accepts nothing and starts no worker. */
  lemma SealedStep(s: System, a: Action)
    requires FramesOk(s) && PublishedOk(s) && Enabled(s, a) && s.sealed
    ensures Apply(s, a).sealed && Apply(s, a).accepted == s.accepted && Apply(s, a).threads.Keys == s.threads.Keys
  {
    if a.Push? || a.SpawnWorker? { assert FrameOk(s, s.calls[a.c]); }
  }

  lemma {:induction false} SealedForGood(run: seq<System>, i: nat, j: nat)
    requires IsRun(run) && i <= j < |run| && run[i].sealed
    ensures run[j].sealed && run[j].accepted == run[i].accepted && run[j].threads.Keys == run[i].threads.Keys
  {
    if i < j {
      SealedForGood(run, i, j - 1);
      RunInv(run, j - 1);
      var a := StepAt(run, j - 1);
      SealedStep(run[j - 1], a);
    }
  }

  /**
   Whenever `shutdown_blocking` returned `Ok`, every job whose `execute` returned `Ok`
   was started exactly once, in acceptance order, and has finished; nothing is
   accepted afterwards, in any interleaving with submissions and failed start-ups.
   */
  lemma ShutdownDrains(run: seq<System>, i: nat, j: nat, c: Call)
    requires IsRun(run) && i <= j < |run| && c in run[i].calls && run[i].calls[c] == ShutDown(true)
    ensures run[i].started == run[i].accepted
    ensures forall k :: 0 <= k < |run[i].accepted| ==> k in run[i].finished
    ensures run[j].accepted == run[i].accepted
  {
    RunInv(run, i);
    var s := run[i];
    assert FrameOk(s, s.calls[c]);
    SealedForGood(run, i, j);
    if s.ready.Some? {
      var t :| t in s.crew;
      assert WorkerOk(s, t);
      assert s.queues[s.ready.value].jobs == [];
    }
    assert s.accepted == s.started;
  }

  /**
   No worker sleeps on work: while one sleeps over a non-empty queue a notification is
   pending or another worker is about to look, and a closed queue still has its
   wakeup coming.
   */
  lemma NoSleepOnWork(run: seq<System>, i: nat, t: Tid)
    requires IsRun(run) && i < |run| && t in run[i].threads && run[i].threads[t].pc.Asleep?
    ensures var w := run[i].threads[t].wid;
            && w in run[i].queues
            && (run[i].queues[w].jobs != [] ==> Notifiers(run[i], w) != {} || Idle(run[i], w) != {})
            && (run[i].queues[w].closed ==> exists c :: c in run[i].calls && WillWakeAll(run[i].calls[c], w))
  {
    RunInv(run, i);
    assert WorkerOk(run[i], t) && WakeupAt(run[i], t);
  }
}
