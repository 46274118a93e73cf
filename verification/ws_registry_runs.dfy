/**
 Every interleaving of create, destroy, cancelled destroy, cleanup and engine
 shutdown against the registry of named WebSocket clients. A cleanup's payload is
 shared by any number of contenders; the first to run takes it.
 */
module WsRegistryRuns {
  import opened Base
  import opened WsRegistry

  type Oid = nat
  type Waiter = nat

  /** Progress of a cleanup's payload. */
  datatype Stage = Unclaimed | Joining | Joined | Released

  datatype Pc =
    | Reserved
    | Built(worker: Wid)
    | Refused(worker: Wid)
    | MakeFailed
    | Lost
    | Reaping(worker: Wid)
    | Guarding(worker: Wid)
    | Cleaning(worker: Wid, stage: Stage, contenders: nat, fallbacks: nat)
    | Done

  datatype Op = Op(name: Name, pc: Pc)

  /** Who is responsible for joining a worker. */
  datatype Holder = ByOp(op: Oid) | BySlot | ByShutdown | Nobody

  datatype Worker = Worker(name: Name, alive: bool, holder: Holder)

  /** A waiter registers before it looks, and `seen` is the number of notifications at that moment. */
  datatype WaiterPc =
    | Registered(name: Name, seen: nat)
    | CheckedOpen(name: Name, seen: nat)
    | Asleep(name: Name, seen: nat)
    | Left

  /** `selfJoined`: workers whose cleanup ran on their own thread, where joining returns at once. */
  datatype System = System(
    slots: Slots,
    closing: bool,
    networkClosed: bool,
    drained: bool,
    ops: map<Oid, Op>,
    workers: map<Wid, Worker>,
    notifications: nat,
    owed: nat,
    waiters: map<Waiter, WaiterPc>,
    selfJoined: set<Wid>)

  datatype Action =
    | ReserveStep(op: Oid, name: Name)
    | MakeStep(op: Oid, worker: Wid)
    | MakeFails(op: Oid)
    | LoseCreate(op: Oid)
    | CommitStep(op: Oid)
    | CommitRefused(op: Oid)
    | DropRefusedStep(op: Oid)
    | DropFailedStep(op: Oid)
    | ReapStep(op: Oid)
    | DestroyStep(op: Oid, name: Name)
    | SubmitCleanup(op: Oid)
    | CancelDestroy(op: Oid)
    | SubmitPanics(op: Oid, queued: bool)
    | DiscardTask(op: Oid)
    | FallbackSpawns(op: Oid)
    | FallbackRuns(op: Oid)
    | FallbackOnWorker(op: Oid)
    | ContenderRuns(op: Oid)
    | JoinStep(op: Oid)
    | ReleaseStep(op: Oid)
    | WorkerExits(worker: Wid)
    | MarkClosing
    | CloseNetwork
    | DrainStep
    | Notify
    | Register(waiter: Waiter, name: Name)
    | CheckOpen(waiter: Waiter)
    | Inspect(waiter: Waiter)
    | Wake(waiter: Waiter)

  function Initial(): (s: System) { System(map[], false, false, false, map[], map[], 0, 0, map[], {}) }

  predicate At(s: System, o: Oid) { o in s.ops }

  predicate Exited(s: System, w: Wid) { w in s.workers && !s.workers[w].alive }

  predicate Enabled(s: System, a: Action)
  {
    match a
    case ReserveStep(o, n) => o !in s.ops && Reserve(s.slots, s.closing, n).1.Granted?
    case MakeStep(o, w) => At(s, o) && s.ops[o].pc.Reserved? && w !in s.workers
    case MakeFails(o) => At(s, o) && s.ops[o].pc.Reserved?
    case LoseCreate(o) => At(s, o) && s.ops[o].pc.Reserved?
    case CommitStep(o) => At(s, o) && s.ops[o].pc.Built? && !s.networkClosed && s.ops[o].pc.worker in s.workers
    case CommitRefused(o) => At(s, o) && s.ops[o].pc.Built? && s.networkClosed
    case DropRefusedStep(o) => At(s, o) && s.ops[o].pc.Refused?
    case DropFailedStep(o) => At(s, o) && s.ops[o].pc.MakeFailed?
    case ReapStep(o) => At(s, o) && s.ops[o].pc.Reaping? && Exited(s, s.ops[o].pc.worker)
    case DestroyStep(o, n) => o !in s.ops && n in s.slots && s.slots[n].Ready? && s.slots[n].worker in s.workers
    case SubmitCleanup(o) => At(s, o) && s.ops[o].pc.Guarding?
    case CancelDestroy(o) => At(s, o) && s.ops[o].pc.Guarding?
    case SubmitPanics(o, _) => At(s, o) && s.ops[o].pc.Guarding?
    case DiscardTask(o) => At(s, o) && s.ops[o].pc.Cleaning? && s.ops[o].pc.contenders > 0
    case FallbackSpawns(o) => At(s, o) && s.ops[o].pc.Cleaning? && s.ops[o].pc.fallbacks > 0
    case FallbackRuns(o) => At(s, o) && s.ops[o].pc.Cleaning? && s.ops[o].pc.fallbacks > 0
    case FallbackOnWorker(o) =>
      && At(s, o) && s.ops[o].pc.Cleaning? && s.ops[o].pc.fallbacks > 0 && s.ops[o].pc.stage.Unclaimed?
      && s.ops[o].pc.worker in s.workers && s.workers[s.ops[o].pc.worker].alive
    case ContenderRuns(o) => At(s, o) && s.ops[o].pc.Cleaning? && s.ops[o].pc.contenders > 0
    case JoinStep(o) => At(s, o) && s.ops[o].pc.Cleaning? && s.ops[o].pc.stage.Joining? && Exited(s, s.ops[o].pc.worker)
    case ReleaseStep(o) => At(s, o) && s.ops[o].pc.Cleaning? && s.ops[o].pc.stage.Joined?
    case WorkerExits(w) => w in s.workers && s.workers[w].alive
    case MarkClosing => true
    case CloseNetwork => s.closing
    case DrainStep => s.networkClosed && !s.drained
    case Notify => s.owed > 0
    case Register(t, _) => t !in s.waiters
    case CheckOpen(t) => t in s.waiters && s.waiters[t].Registered?
    case Inspect(t) => t in s.waiters && s.waiters[t].CheckedOpen?
    case Wake(t) => t in s.waiters && s.waiters[t].Asleep? && s.waiters[t].seen < s.notifications
  }

  // ------------------------------------------------------------- what a step does

  predicate OpAction(a: Action) { !a.WorkerExits? && !SharedAction(a) && !WaiterAction(a) }

  predicate SharedAction(a: Action) { a.MarkClosing? || a.CloseNetwork? || a.DrainStep? || a.Notify? }

  predicate WaiterAction(a: Action) { a.Register? || a.CheckOpen? || a.Inspect? || a.Wake? }

  /** The payload goes to the first who asks. */
  function Claim(stage: Stage): (r: Stage) { if stage.Unclaimed? then Joining else stage }

  /** The acting operation's next state. */
  function NextOp(s: System, a: Action): (r: Op)
    requires OpAction(a) && Enabled(s, a)
  {
    match a
    case ReserveStep(o, n) => Op(n, Reserved)
    case DestroyStep(o, n) => Op(n, Guarding(s.slots[n].worker))
    case MakeStep(o, w) => s.ops[o].(pc := Built(w))
    case MakeFails(o) => s.ops[o].(pc := MakeFailed)
    case LoseCreate(o) => s.ops[o].(pc := Lost)
    case CommitStep(o) => s.ops[o].(pc := Done)
    case CommitRefused(o) => s.ops[o].(pc := Refused(s.ops[o].pc.worker))
    case DropRefusedStep(o) => s.ops[o].(pc := Reaping(s.ops[o].pc.worker))
    case DropFailedStep(o) => s.ops[o].(pc := Done)
    case ReapStep(o) => s.ops[o].(pc := Done)
    case SubmitCleanup(o) => s.ops[o].(pc := Cleaning(s.ops[o].pc.worker, Unclaimed, 1, 0))
    case CancelDestroy(o) => s.ops[o].(pc := Cleaning(s.ops[o].pc.worker, Unclaimed, 0, 1))
    case SubmitPanics(o, queued) =>
      s.ops[o].(pc := Cleaning(s.ops[o].pc.worker, Unclaimed, if queued then 1 else 0, if queued then 1 else 2))
    case DiscardTask(o) =>
      var p := s.ops[o].pc;
      s.ops[o].(pc := Cleaning(p.worker, p.stage, p.contenders - 1, p.fallbacks + 1))
    case FallbackSpawns(o) =>
      var p := s.ops[o].pc;
      var contenders := if p.stage.Unclaimed? then p.contenders + 1 else p.contenders;
      s.ops[o].(pc := Cleaning(p.worker, p.stage, contenders, p.fallbacks - 1))
    case FallbackRuns(o) =>
      var p := s.ops[o].pc;
      s.ops[o].(pc := Cleaning(p.worker, Claim(p.stage), p.contenders, p.fallbacks - 1))
    case FallbackOnWorker(o) =>
      var p := s.ops[o].pc;
      s.ops[o].(pc := Cleaning(p.worker, Joined, p.contenders, p.fallbacks - 1))
    case ContenderRuns(o) =>
      var p := s.ops[o].pc;
      s.ops[o].(pc := Cleaning(p.worker, Claim(p.stage), p.contenders - 1, p.fallbacks))
    case JoinStep(o) => var p := s.ops[o].pc; s.ops[o].(pc := Cleaning(p.worker, Joined, p.contenders, p.fallbacks))
    case ReleaseStep(o) =>
      var p := s.ops[o].pc;
      s.ops[o].(pc := Cleaning(p.worker, Released, p.contenders, p.fallbacks))
  }

  function NextSlots(s: System, a: Action): (r: Slots)
    requires Enabled(s, a)
  {
    match a
    case ReserveStep(_, n) => Reserve(s.slots, s.closing, n).0
    case CommitStep(o) => Commit(s.slots, s.networkClosed, s.ops[o].name, s.ops[o].pc.worker).0
    case DropRefusedStep(o) => RemoveRefused(s.slots, s.ops[o].name)
    case DropFailedStep(o) => RemoveFailed(s.slots, s.ops[o].name)
    case DestroyStep(_, n) => BeginDestroy(s.slots, n).0
    case ReleaseStep(o) => Release(s.slots, s.ops[o].name)
    case DrainStep => map[]
    case _ => s.slots
  }

  function Hand(s: System, w: Wid, h: Holder): (r: map<Wid, Worker>)
    requires w in s.workers
  {
    s.workers[w := s.workers[w].(holder := h)]
  }

  function NextWorkers(s: System, a: Action): (r: map<Wid, Worker>)
    requires Enabled(s, a)
  {
    match a
    case MakeStep(o, w) => s.workers[w := Worker(s.ops[o].name, true, ByOp(o))]
    case CommitStep(o) => Hand(s, s.ops[o].pc.worker, BySlot)
    case ReapStep(o) => Hand(s, s.ops[o].pc.worker, Nobody)
    case DestroyStep(o, n) => Hand(s, s.slots[n].worker, ByOp(o))
    case JoinStep(o) => Hand(s, s.ops[o].pc.worker, Nobody)
    case FallbackOnWorker(o) => Hand(s, s.ops[o].pc.worker, Nobody)
    case WorkerExits(w) => s.workers[w := s.workers[w].(alive := false)]
    case DrainStep =>
      map w | w in s.workers :: s.workers[w].(holder := if s.workers[w].holder.BySlot? then ByShutdown
        else s.workers[w].holder)
    case _ => s.workers
  }

  /** Each region that ends a transient state owes one notification, and so does the start of shutdown. */
  predicate Owes(a: Action)
  {
    a.CommitStep? || a.DropRefusedStep? || a.DropFailedStep? || a.ReleaseStep? || a.DrainStep? || a.MarkClosing?
  }

  function NextWaiters(s: System, a: Action): (r: map<Waiter, WaiterPc>)
    requires Enabled(s, a)
  {
    match a
    case Register(t, n) => s.waiters[t := Registered(n, s.notifications)]
    case CheckOpen(t) => s.waiters[t := if s.closing then Left else CheckedOpen(s.waiters[t].name, s.waiters[t].seen)]
    case Inspect(t) =>
      var p := s.waiters[t];
      s.waiters[t := if Lookup(s.slots, p.name).Busy? then Asleep(p.name, p.seen) else Left]
    case Wake(t) => s.waiters[t := Registered(s.waiters[t].name, s.notifications)]
    case _ => s.waiters
  }

  function Apply(s: System, a: Action): (r: System)
    requires Enabled(s, a)
  {
    System(
      NextSlots(s, a),
      s.closing || a.MarkClosing?,
      s.networkClosed || a.CloseNetwork?,
      s.drained || a.DrainStep?,
      if OpAction(a) then s.ops[a.op := NextOp(s, a)] else s.ops,
      NextWorkers(s, a),
      if a.Notify? then s.notifications + 1 else s.notifications,
      if Owes(a) then s.owed + 1 else if a.Notify? then s.owed - 1 else s.owed,
      NextWaiters(s, a),
      if a.FallbackOnWorker? then s.selfJoined + {s.ops[a.op].pc.worker} else s.selfJoined)
  }

  // ------------------------------------------------------------------ invariant

  predicate CreatingPc(p: Pc) { p.Reserved? || p.Built? || p.Refused? || p.MakeFailed? || p.Lost? }

  predicate DestroyingPc(p: Pc) { p.Guarding? || (p.Cleaning? && !p.stage.Released?) }

  /** The operation still stands between its name and anyone else. */
  predicate HoldsName(p: Pc) { CreatingPc(p) || DestroyingPc(p) || p.Reaping? }

  function WorkerOf(p: Pc): (r: Option<Wid>)
  {
    match p
    case Built(w) => Some(w)
    case Refused(w) => Some(w)
    case Reaping(w) => Some(w)
    case Guarding(w) => Some(w)
    case Cleaning(w, Unclaimed, _, _) => Some(w)
    case Cleaning(w, Joining, _, _) => Some(w)
    case _ => None
  }

  predicate Gates(s: System) { (s.networkClosed ==> s.closing) && (s.drained ==> s.networkClosed && s.slots == map[]) }

  predicate NameOk(s: System, o: Oid)
    requires o in s.ops
  {
    var n, p := s.ops[o].name, s.ops[o].pc;
    && (CreatingPc(p) ==> s.drained || (n in s.slots && s.slots[n].Creating?))
    && (DestroyingPc(p) ==> s.drained || (n in s.slots && s.slots[n].Closing?))
    && (p.Reaping? ==> n !in s.slots && s.networkClosed)
    && (p.Refused? ==> s.networkClosed)
  }

  predicate GripOk(s: System, o: Oid)
    requires o in s.ops
  {
    var p := s.ops[o].pc;
    && (WorkerOf(p).Some? ==> WorkerOf(p).value in s.workers && s.workers[WorkerOf(p).value].holder == ByOp(o)
                              && s.workers[WorkerOf(p).value].name == s.ops[o].name)
    && (p.Cleaning? && WorkerOf(p).None? ==> Exited(s, p.worker) || p.worker in s.selfJoined)
  }

  predicate ClaimOk(p: Pc) { p.Cleaning? && p.stage.Unclaimed? ==> p.contenders + p.fallbacks > 0 }

  predicate PairOk(s: System, o: Oid, q: Oid)
    requires o in s.ops && q in s.ops
  {
    o != q && HoldsName(s.ops[o].pc) && HoldsName(s.ops[q].pc) ==> s.ops[o].name != s.ops[q].name
  }

  predicate SlotOk(s: System, n: Name)
  {
    n in s.slots && s.slots[n].Ready? ==>
      s.slots[n].worker in s.workers && s.workers[s.slots[n].worker].name == n
      && s.workers[s.slots[n].worker].holder == BySlot
  }

  predicate WorkerOk(s: System, w: Wid)
    requires w in s.workers
  {
    var v := s.workers[w];
    match v.holder
    case ByOp(o) => o in s.ops && WorkerOf(s.ops[o].pc) == Some(w) && s.ops[o].name == v.name
    case BySlot => v.name in s.slots && s.slots[v.name] == Ready(w)
    case ByShutdown => s.drained
    case Nobody => !v.alive || w in s.selfJoined
  }

  /** Workers left to the shutdown have names nobody else holds. */
  predicate ShutdownOk(s: System, w: Wid, o: Oid)
    requires w in s.workers && o in s.ops
  {
    s.workers[w].holder.ByShutdown? && HoldsName(s.ops[o].pc) ==> s.ops[o].name != s.workers[w].name
  }

  predicate ShutdownPairOk(s: System, w: Wid, v: Wid)
    requires w in s.workers && v in s.workers
  {
    w != v && s.workers[w].holder.ByShutdown? && s.workers[v].holder.ByShutdown? ==>
      s.workers[w].name != s.workers[v].name
  }

  /** A waiter that has looked and not been notified since is owed a notification once it could leave. */
  predicate WaiterOk(s: System, t: Waiter)
    requires t in s.waiters
  {
    match s.waiters[t]
    case Registered(_, seen) => seen <= s.notifications
    case CheckedOpen(_, seen) => seen <= s.notifications && (s.closing && seen == s.notifications ==> s.owed > 0)
    case Asleep(n, seen) =>
      seen <= s.notifications && ((s.closing || !Transient(s.slots, n)) && seen == s.notifications ==> s.owed > 0)
    case Left => true
  }

  ghost predicate Inv(s: System)
  {
    && Gates(s)
    && (forall o :: o in s.ops ==> NameOk(s, o) && GripOk(s, o) && ClaimOk(s.ops[o].pc))
    && (forall o, q :: o in s.ops && q in s.ops ==> PairOk(s, o, q))
    && (forall n :: SlotOk(s, n))
    && (forall w :: w in s.workers ==> WorkerOk(s, w))
    && (forall w, o :: w in s.workers && o in s.ops ==> ShutdownOk(s, w, o))
    && (forall w, v :: w in s.workers && v in s.workers ==> ShutdownPairOk(s, w, v))
    && (forall t :: t in s.waiters ==> WaiterOk(s, t))
  }

  // ---------------------------------------------------------------------- steps

  /** What a step may rely on about the operation that takes it. */
  ghost predicate ActorOk(s: System, a: Action)
  {
    OpAction(a) && a.op in s.ops ==> NameOk(s, a.op) && GripOk(s, a.op) && ClaimOk(s.ops[a.op].pc)
  }

  lemma GatesStep(s: System, a: Action)
    requires Enabled(s, a) && Gates(s) && ActorOk(s, a)
    ensures Gates(Apply(s, a))
  {
  }

  /** A name that is free while the engine is open is held by no operation. */
  lemma FreeNameUnheld(s: System, n: Name, o: Oid)
    requires Gates(s) && o in s.ops && NameOk(s, o) && n !in s.slots && !s.closing && HoldsName(s.ops[o].pc)
    ensures s.ops[o].name != n
  {
  }

  /** A ready name is held by no operation. */
  lemma ReadyNameUnheld(s: System, n: Name, o: Oid)
    requires Gates(s) && o in s.ops && NameOk(s, o) && n in s.slots && s.slots[n].Ready? && HoldsName(s.ops[o].pc)
    ensures s.ops[o].name != n
  {
  }

  /** The name whose slot a step changes. */
  function Target(s: System, a: Action): (r: Option<Name>)
    requires Enabled(s, a)
  {
    match a
    case ReserveStep(_, n) => Some(n)
    case DestroyStep(_, n) => Some(n)
    case CommitStep(o) => Some(s.ops[o].name)
    case DropRefusedStep(o) => Some(s.ops[o].name)
    case DropFailedStep(o) => Some(s.ops[o].name)
    case ReleaseStep(o) => Some(s.ops[o].name)
    case _ => None
  }

  lemma SlotFrame(s: System, a: Action, n: Name)
    requires Enabled(s, a) && !a.DrainStep? && Target(s, a) != Some(n)
    ensures SameSlot(s, Apply(s, a), n)
  {
  }

  lemma TargetMisses(s: System, a: Action, o: Oid)
    requires Enabled(s, a) && Gates(s) && OpAction(a) && a.op != o
    requires o in s.ops && NameOk(s, o) && HoldsName(s.ops[o].pc)
    requires a.op in s.ops ==> PairOk(s, o, a.op)
    ensures Target(s, a) != Some(s.ops[o].name)
  {
    if a.ReserveStep? { FreeNameUnheld(s, a.name, o); }
    if a.DestroyStep? { ReadyNameUnheld(s, a.name, o); }
  }

  /** The gates only ever close. */
  lemma FlagFrame(s: System, a: Action)
    requires Enabled(s, a)
    ensures var t := Apply(s, a);
            && (s.closing ==> t.closing) && (s.networkClosed ==> t.networkClosed)
            && (t.drained <==> s.drained || a.DrainStep?) && (a.DrainStep? ==> t.slots == map[])
            && s.selfJoined <= t.selfJoined
  {
  }

  lemma OpFrame(s: System, a: Action, o: Oid)
    requires Enabled(s, a) && o in s.ops && (OpAction(a) ==> a.op != o)
    ensures o in Apply(s, a).ops && Apply(s, a).ops[o] == s.ops[o]
  {
  }

  predicate SameSlot(s: System, t: System, n: Name)
  {
    (n in t.slots <==> n in s.slots) && (n in s.slots ==> t.slots[n] == s.slots[n])
  }

  lemma NameKept(s: System, t: System, o: Oid)
    requires o in s.ops && o in t.ops && t.ops[o] == s.ops[o] && NameOk(s, o)
    requires (s.networkClosed ==> t.networkClosed) && (s.drained ==> t.drained)
    requires HoldsName(s.ops[o].pc) ==> SameSlot(s, t, s.ops[o].name) || (t.drained && t.slots == map[])
    ensures NameOk(t, o)
  {
  }

  lemma OtherNameStep(s: System, a: Action, o: Oid)
    requires Enabled(s, a) && Gates(s) && o in s.ops && NameOk(s, o)
    requires !OpAction(a) || (a.op != o && (a.op in s.ops ==> PairOk(s, o, a.op)))
    ensures o in Apply(s, a).ops && NameOk(Apply(s, a), o)
  {
    var t := Apply(s, a);
    OpFrame(s, a, o);
    FlagFrame(s, a);
    if HoldsName(s.ops[o].pc) && !a.DrainStep? {
      if OpAction(a) { TargetMisses(s, a, o); }
      SlotFrame(s, a, s.ops[o].name);
    }
    NameKept(s, t, o);
  }

  predicate CleanupAction(a: Action) { SubmitAction(a) || ContendAction(a) || a.JoinStep? || a.ReleaseStep? }

  /** Steps that hand a fresh payload over. */
  predicate SubmitAction(a: Action) { a.SubmitCleanup? || a.CancelDestroy? || a.SubmitPanics? }

  /** Steps by which contenders and fallbacks pass the payload on, or take it. */
  predicate ContendAction(a: Action)
  {
    a.DiscardTask? || a.FallbackSpawns? || a.FallbackRuns? || a.FallbackOnWorker? || a.ContenderRuns?
  }

  lemma CreateNameStep(s: System, a: Action)
    requires Enabled(s, a) && Gates(s) && ActorOk(s, a) && OpAction(a) && !CleanupAction(a)
    ensures NameOk(Apply(s, a), a.op)
  {
  }

  lemma SubmitNameStep(s: System, a: Action)
    requires Enabled(s, a) && SubmitAction(a) && NameOk(s, a.op)
    ensures NameOk(Apply(s, a), a.op)
  {
  }

  lemma ContendNameStep(s: System, a: Action)
    requires Enabled(s, a) && ContendAction(a) && NameOk(s, a.op)
    ensures NameOk(Apply(s, a), a.op)
  {
  }

  lemma FinishNameStep(s: System, a: Action)
    requires Enabled(s, a) && (a.JoinStep? || a.ReleaseStep?) && NameOk(s, a.op)
    ensures NameOk(Apply(s, a), a.op)
  {
  }

  lemma OwnNameStep(s: System, a: Action)
    requires Enabled(s, a) && Gates(s) && ActorOk(s, a) && OpAction(a)
    ensures NameOk(Apply(s, a), a.op)
  {
    if SubmitAction(a) {
      SubmitNameStep(s, a);
    } else if ContendAction(a) {
      ContendNameStep(s, a);
    } else if a.JoinStep? || a.ReleaseStep? {
      FinishNameStep(s, a);
    } else {
      CreateNameStep(s, a);
    }
  }

  lemma JoinGrip(s: System, o: Oid)
    requires Enabled(s, JoinStep(o)) && ActorOk(s, JoinStep(o))
    ensures GripOk(Apply(s, JoinStep(o)), o) && ClaimOk(Apply(s, JoinStep(o)).ops[o].pc)
  {
  }

  lemma OnWorkerGrip(s: System, o: Oid)
    requires Enabled(s, FallbackOnWorker(o)) && ActorOk(s, FallbackOnWorker(o))
    ensures GripOk(Apply(s, FallbackOnWorker(o)), o) && ClaimOk(Apply(s, FallbackOnWorker(o)).ops[o].pc)
  {
  }

  /** The operation after a step that only hands its payload around. */
  predicate Carried(before: Op, after: Op)
    requires before.pc.Guarding? || before.pc.Cleaning?
  {
    && after.name == before.name && after.pc.Cleaning? && after.pc.worker == before.pc.worker
    && WorkerOf(after.pc) == WorkerOf(before.pc) && ClaimOk(after.pc)
    && (WorkerOf(after.pc).None? ==> before.pc.Cleaning?)
  }

  lemma SubmittedOp(s: System, a: Action)
    requires Enabled(s, a) && SubmitAction(a)
    ensures Carried(s.ops[a.op], NextOp(s, a))
  {
  }

  lemma ContendedOp(s: System, a: Action)
    requires Enabled(s, a) && (ContendAction(a) || a.ReleaseStep?) && !a.FallbackOnWorker? && ClaimOk(s.ops[a.op].pc)
    ensures Carried(s.ops[a.op], NextOp(s, a))
  {
  }

  lemma CarriedWorkers(s: System, a: Action)
    requires Enabled(s, a) && CleanupAction(a) && !a.JoinStep? && !a.FallbackOnWorker?
    ensures Apply(s, a).workers == s.workers && Apply(s, a).selfJoined == s.selfJoined
  {
  }

  lemma GripKeptBy(s: System, t: System, o: Oid)
    requires o in s.ops && o in t.ops && GripOk(s, o) && t.workers == s.workers && t.selfJoined == s.selfJoined
    requires t.ops[o].name == s.ops[o].name && WorkerOf(t.ops[o].pc) == WorkerOf(s.ops[o].pc)
    requires t.ops[o].pc.Cleaning? && WorkerOf(t.ops[o].pc).None? ==>
               s.ops[o].pc.Cleaning? && s.ops[o].pc.worker == t.ops[o].pc.worker
    ensures GripOk(t, o)
  {
  }

  /** Handing a payload around moves neither the worker nor who holds it. */
  lemma CarriedGrip(s: System, a: Action)
    requires Enabled(s, a) && ActorOk(s, a) && CleanupAction(a) && !a.JoinStep? && !a.FallbackOnWorker?
    ensures GripOk(Apply(s, a), a.op) && ClaimOk(Apply(s, a).ops[a.op].pc)
  {
    if SubmitAction(a) { SubmittedOp(s, a); } else { ContendedOp(s, a); }
    CarriedWorkers(s, a);
    ActorFrame(s, a);
    GripKeptBy(s, Apply(s, a), a.op);
  }

  lemma CleanupGripStep(s: System, a: Action)
    requires Enabled(s, a) && ActorOk(s, a) && CleanupAction(a)
    ensures GripOk(Apply(s, a), a.op) && ClaimOk(Apply(s, a).ops[a.op].pc)
  {
    if a.JoinStep? {
      JoinGrip(s, a.op);
    } else if a.FallbackOnWorker? {
      OnWorkerGrip(s, a.op);
    } else {
      CarriedGrip(s, a);
    }
  }

  lemma CreateGripStep(s: System, a: Action)
    requires Enabled(s, a) && ActorOk(s, a) && OpAction(a) && !CleanupAction(a)
    requires a.DestroyStep? ==> SlotOk(s, a.name)
    ensures GripOk(Apply(s, a), a.op) && ClaimOk(Apply(s, a).ops[a.op].pc)
  {
  }

  lemma OwnGripStep(s: System, a: Action)
    requires Enabled(s, a) && ActorOk(s, a) && OpAction(a)
    requires a.DestroyStep? ==> SlotOk(s, a.name)
    ensures GripOk(Apply(s, a), a.op) && ClaimOk(Apply(s, a).ops[a.op].pc)
  {
    if CleanupAction(a) { CleanupGripStep(s, a); } else { CreateGripStep(s, a); }
  }

  /** The worker whose holder a step changes. */
  function Touched(s: System, a: Action): (r: Option<Wid>)
    requires Enabled(s, a)
  {
    match a
    case MakeStep(_, w) => Some(w)
    case CommitStep(o) => Some(s.ops[o].pc.worker)
    case ReapStep(o) => Some(s.ops[o].pc.worker)
    case JoinStep(o) => Some(s.ops[o].pc.worker)
    case FallbackOnWorker(o) => Some(s.ops[o].pc.worker)
    case DestroyStep(_, n) => Some(s.slots[n].worker)
    case _ => None
  }

  /** A step changes the holder of workers only that its own operation, or the slot it empties, holds. */
  lemma TouchesOwn(s: System, a: Action, w: Wid)
    requires Enabled(s, a) && ActorOk(s, a) && w in s.workers && Touched(s, a) == Some(w)
    requires a.DestroyStep? ==> SlotOk(s, a.name)
    ensures s.workers[w].holder == if a.DestroyStep? then BySlot else ByOp(a.op)
    ensures a.DestroyStep? ==> s.workers[w].name == a.name
  {
  }

  lemma WorkersStay(s: System, a: Action, w: Wid)
    requires Enabled(s, a) && w in s.workers
    ensures w in Apply(s, a).workers && Apply(s, a).workers[w].name == s.workers[w].name
    ensures Apply(s, a).workers[w].alive <==> s.workers[w].alive && a != WorkerExits(w)
  {
  }

  lemma HolderStays(s: System, a: Action, w: Wid)
    requires Enabled(s, a) && w in s.workers && Touched(s, a) != Some(w)
    requires a.DrainStep? ==> !s.workers[w].holder.BySlot?
    ensures w in Apply(s, a).workers && Apply(s, a).workers[w].holder == s.workers[w].holder
  {
  }

  lemma GripFrame(s: System, t: System, o: Oid)
    requires o in s.ops && o in t.ops && t.ops[o] == s.ops[o] && GripOk(s, o) && s.selfJoined <= t.selfJoined
    requires forall w :: w in s.workers ==>
               && w in t.workers && t.workers[w].name == s.workers[w].name
               && (t.workers[w].alive ==> s.workers[w].alive)
    requires WorkerOf(s.ops[o].pc).Some? ==>
               var w := WorkerOf(s.ops[o].pc).value;
               w in t.workers && t.workers[w].holder == s.workers[w].holder
    ensures GripOk(t, o)
  {
  }

  lemma OtherGripStep(s: System, a: Action, o: Oid)
    requires Enabled(s, a) && ActorOk(s, a) && o in s.ops && GripOk(s, o) && (OpAction(a) ==> a.op != o)
    requires a.DestroyStep? ==> SlotOk(s, a.name)
    ensures o in Apply(s, a).ops && GripOk(Apply(s, a), o)
  {
    OpFrame(s, a, o);
    FlagFrame(s, a);
    forall w | w in s.workers
      ensures w in Apply(s, a).workers && Apply(s, a).workers[w].name == s.workers[w].name
      ensures Apply(s, a).workers[w].alive ==> s.workers[w].alive
    {
      WorkersStay(s, a, w);
    }
    if WorkerOf(s.ops[o].pc).Some? {
      var w := WorkerOf(s.ops[o].pc).value;
      if Touched(s, a) == Some(w) { TouchesOwn(s, a, w); }
      HolderStays(s, a, w);
    }
    GripFrame(s, Apply(s, a), o);
  }

  /** Only reserving and destroying give an operation a name to hold. */
  lemma HoldsShrinks(s: System, a: Action)
    requires Enabled(s, a) && OpAction(a) && a.op in s.ops
    ensures NextOp(s, a).name == s.ops[a.op].name && (HoldsName(NextOp(s, a).pc) ==> HoldsName(s.ops[a.op].pc))
  {
  }

  lemma NewcomerPair(s: System, a: Action, q: Oid)
    requires Enabled(s, a) && Gates(s) && OpAction(a) && a.op !in s.ops && q in s.ops && NameOk(s, q)
    ensures PairOk(Apply(s, a), a.op, q) && PairOk(Apply(s, a), q, a.op)
  {
    if HoldsName(s.ops[q].pc) { TargetMisses(s, a, q); }
  }

  lemma PairStep(s: System, a: Action, o: Oid, q: Oid)
    requires Enabled(s, a) && Gates(s) && o in Apply(s, a).ops && q in Apply(s, a).ops
    requires o in s.ops ==> NameOk(s, o)
    requires q in s.ops ==> NameOk(s, q)
    requires o in s.ops && q in s.ops ==> PairOk(s, o, q)
    ensures PairOk(Apply(s, a), o, q)
  {
    if o == q || !OpAction(a) {
    } else if a.op in s.ops {
      HoldsShrinks(s, a);
    } else if a.op == o {
      NewcomerPair(s, a, q);
    } else if a.op == q {
      NewcomerPair(s, a, o);
    }
  }

  lemma TargetSlot(s: System, a: Action, n: Name)
    requires Enabled(s, a) && Gates(s) && ActorOk(s, a) && Target(s, a) == Some(n)
    ensures SlotOk(Apply(s, a), n)
  {
  }

  lemma SlotStep(s: System, a: Action, n: Name)
    requires Enabled(s, a) && Gates(s) && ActorOk(s, a) && SlotOk(s, n)
    requires a.DestroyStep? ==> SlotOk(s, a.name)
    ensures SlotOk(Apply(s, a), n)
  {
    if Target(s, a) == Some(n) {
      TargetSlot(s, a, n);
    } else if !a.DrainStep? {
      SlotFrame(s, a, n);
      if n in s.slots && s.slots[n].Ready? {
        var w := s.slots[n].worker;
        if Touched(s, a) == Some(w) { TouchesOwn(s, a, w); }
        WorkersStay(s, a, w);
        HolderStays(s, a, w);
      }
    }
  }

  lemma TouchedWorkerStep(s: System, a: Action, w: Wid)
    requires Enabled(s, a) && ActorOk(s, a) && Touched(s, a) == Some(w) && (a.DestroyStep? ==> SlotOk(s, a.name))
    ensures w in Apply(s, a).workers && WorkerOk(Apply(s, a), w)
  {
  }

  lemma GripKept(s: System, a: Action, w: Wid)
    requires Enabled(s, a) && OpAction(a) && a.op in s.ops
    requires WorkerOf(s.ops[a.op].pc) == Some(w) && Touched(s, a) != Some(w)
    ensures WorkerOf(NextOp(s, a).pc) == Some(w) && NextOp(s, a).name == s.ops[a.op].name
  {
  }

  /** No step but its own destruction, or shutdown, changes a ready slot. */
  lemma ReadyFrame(s: System, a: Action, n: Name)
    requires Enabled(s, a) && Gates(s) && ActorOk(s, a) && n in s.slots && s.slots[n].Ready?
    requires !a.DrainStep? && (a.DestroyStep? ==> a.name != n)
    ensures n in Apply(s, a).slots && Apply(s, a).slots[n] == s.slots[n]
  {
    assert Target(s, a) != Some(n);
    SlotFrame(s, a, n);
  }

  lemma WorkerKept(s: System, t: System, w: Wid)
    requires w in s.workers && w in t.workers && WorkerOk(s, w)
    requires (s.drained ==> t.drained) && s.selfJoined <= t.selfJoined
    requires t.workers[w].name == s.workers[w].name && t.workers[w].holder == s.workers[w].holder
    requires t.workers[w].alive ==> s.workers[w].alive
    requires s.workers[w].holder.BySlot? ==> SameSlot(s, t, s.workers[w].name)
    requires s.workers[w].holder.ByOp? ==>
               var o := s.workers[w].holder.op;
               o in s.ops && o in t.ops && t.ops[o].name == s.ops[o].name
               && WorkerOf(t.ops[o].pc) == WorkerOf(s.ops[o].pc)
    ensures WorkerOk(t, w)
  {
  }

  lemma ActorFrame(s: System, a: Action)
    requires Enabled(s, a) && OpAction(a)
    ensures a.op in Apply(s, a).ops && Apply(s, a).ops[a.op] == NextOp(s, a)
  {
  }

  lemma OtherWorkerStep(s: System, a: Action, w: Wid)
    requires Enabled(s, a) && Gates(s) && ActorOk(s, a) && w in s.workers && WorkerOk(s, w) && Touched(s, a) != Some(w)
    requires !a.DrainStep?
    ensures w in Apply(s, a).workers && WorkerOk(Apply(s, a), w)
  {
    var t, v := Apply(s, a), s.workers[w];
    FlagFrame(s, a);
    WorkersStay(s, a, w);
    HolderStays(s, a, w);
    if v.holder.BySlot? {
      ReadyFrame(s, a, v.name);
    } else if v.holder.ByOp? {
      if OpAction(a) && a.op == v.holder.op {
        GripKept(s, a, w);
        ActorFrame(s, a);
      } else {
        OpFrame(s, a, v.holder.op);
      }
    }
    WorkerKept(s, t, w);
  }

  lemma WorkerStep(s: System, a: Action, w: Wid)
    requires Enabled(s, a) && Gates(s) && ActorOk(s, a) && w in Apply(s, a).workers
    requires w in s.workers ==> WorkerOk(s, w)
    requires a.DestroyStep? ==> SlotOk(s, a.name)
    ensures WorkerOk(Apply(s, a), w)
  {
    if Touched(s, a) == Some(w) {
      TouchedWorkerStep(s, a, w);
    } else if !a.DrainStep? {
      OtherWorkerStep(s, a, w);
    }
  }

  /** Before shutdown drains the registry, no worker is left to it. */
  lemma ShutdownStep(s: System, a: Action, w: Wid, o: Oid)
    requires Enabled(s, a) && Gates(s) && w in s.workers && o in s.ops
    requires WorkerOk(s, w) && NameOk(s, o) && ShutdownOk(s, w, o)
    ensures w in Apply(s, a).workers && o in Apply(s, a).ops && ShutdownOk(Apply(s, a), w, o)
  {
    var t := Apply(s, a);
    HolderFrame(s, a, w);
    if OpAction(a) && a.op == o {
      ActorFrame(s, a);
      HoldsShrinks(s, a);
    } else {
      OpFrame(s, a, o);
    }
  }

  lemma HolderFrame(s: System, a: Action, w: Wid)
    requires Enabled(s, a) && w in s.workers && WorkerOk(s, w)
    ensures w in Apply(s, a).workers && Apply(s, a).workers[w].name == s.workers[w].name
    ensures Apply(s, a).workers[w].holder.ByShutdown? ==>
              s.workers[w].holder.ByShutdown?
              || (a.DrainStep? && s.workers[w].name in s.slots && s.slots[s.workers[w].name] == Ready(w))
  {
  }

  lemma NewcomersUnshut(s: System, a: Action)
    requires Enabled(s, a) && Gates(s)
    ensures forall w :: w in Apply(s, a).workers && w !in s.workers ==> !Apply(s, a).workers[w].holder.ByShutdown?
    ensures OpAction(a) && a.op !in s.ops ==> !s.drained
  {
  }

  lemma NoneShutBeforeDrain(s: System, a: Action, w: Wid)
    requires Enabled(s, a) && OpAction(a) && !s.drained && w in s.workers && WorkerOk(s, w)
    ensures w in Apply(s, a).workers && !Apply(s, a).workers[w].holder.ByShutdown?
  {
    HolderFrame(s, a, w);
  }

  lemma ShutdownPairStep(s: System, a: Action, w: Wid, v: Wid)
    requires Enabled(s, a) && w in s.workers && v in s.workers
    requires WorkerOk(s, w) && WorkerOk(s, v) && ShutdownPairOk(s, w, v)
    ensures w in Apply(s, a).workers && v in Apply(s, a).workers && ShutdownPairOk(Apply(s, a), w, v)
  {
    HolderFrame(s, a, w);
    HolderFrame(s, a, v);
  }

  lemma WaiterStep(s: System, a: Action, t: Waiter)
    requires Enabled(s, a) && t in Apply(s, a).waiters && (t in s.waiters ==> WaiterOk(s, t))
    ensures WaiterOk(Apply(s, a), t)
  {
  }

  lemma InitialInv()
    ensures Inv(Initial())
  {
  }

  lemma OpsStep(s: System, a: Action)
    requires Inv(s) && Enabled(s, a)
    ensures forall o :: o in Apply(s, a).ops ==>
              && NameOk(Apply(s, a), o) && GripOk(Apply(s, a), o)
              && ClaimOk(Apply(s, a).ops[o].pc)
  {
    var t := Apply(s, a);
    assert ActorOk(s, a);
    forall o | o in t.ops ensures NameOk(t, o) && GripOk(t, o) && ClaimOk(t.ops[o].pc) {
      if OpAction(a) && a.op == o {
        OwnNameStep(s, a);
        OwnGripStep(s, a);
      } else {
        OtherNameStep(s, a, o);
        OtherGripStep(s, a, o);
      }
    }
  }

  lemma PairsStep(s: System, a: Action)
    requires Inv(s) && Enabled(s, a)
    ensures forall o, q :: o in Apply(s, a).ops && q in Apply(s, a).ops ==> PairOk(Apply(s, a), o, q)
  {
    assert ActorOk(s, a);
    forall o, q | o in Apply(s, a).ops && q in Apply(s, a).ops ensures PairOk(Apply(s, a), o, q) {
      PairStep(s, a, o, q);
    }
  }

  lemma WorkersStep(s: System, a: Action)
    requires Inv(s) && Enabled(s, a)
    ensures forall n :: SlotOk(Apply(s, a), n)
    ensures forall w :: w in Apply(s, a).workers ==> WorkerOk(Apply(s, a), w)
  {
    assert ActorOk(s, a);
    forall n ensures SlotOk(Apply(s, a), n) { SlotStep(s, a, n); }
    forall w | w in Apply(s, a).workers ensures WorkerOk(Apply(s, a), w) { WorkerStep(s, a, w); }
  }

  lemma ShutdownsStep(s: System, a: Action)
    requires Inv(s) && Enabled(s, a)
    ensures forall w, o :: w in Apply(s, a).workers && o in Apply(s, a).ops ==> ShutdownOk(Apply(s, a), w, o)
    ensures forall w, v :: w in Apply(s, a).workers && v in Apply(s, a).workers ==> ShutdownPairOk(Apply(s, a), w, v)
  {
    var t := Apply(s, a);
    NewcomersUnshut(s, a);
    forall w, o | w in t.workers && o in t.ops ensures ShutdownOk(t, w, o) {
      if w in s.workers && o in s.ops {
        ShutdownStep(s, a, w, o);
      } else if w in s.workers {
        NoneShutBeforeDrain(s, a, w);
      }
    }
    forall w, v | w in t.workers && v in t.workers ensures ShutdownPairOk(t, w, v) {
      if w in s.workers && v in s.workers { ShutdownPairStep(s, a, w, v); }
    }
  }

  lemma StepInv(s: System, a: Action)
    requires Inv(s) && Enabled(s, a)
    ensures Inv(Apply(s, a))
  {
    assert ActorOk(s, a);
    GatesStep(s, a);
    OpsStep(s, a);
    PairsStep(s, a);
    WorkersStep(s, a);
    ShutdownsStep(s, a);
    forall t | t in Apply(s, a).waiters ensures WaiterOk(Apply(s, a), t) { WaiterStep(s, a, t); }
  }

  // ----------------------------------------------------------------------- runs

  ghost predicate StepsAt(run: seq<System>, i: nat)
    requires i + 1 < |run|
  {
    exists a :: Enabled(run[i], a) && run[i + 1] == Apply(run[i], a)
  }

  ghost predicate IsRun(run: seq<System>)
  {
    run != [] && run[0] == Initial() && forall i :: 0 <= i < |run| - 1 ==> StepsAt(run, i)
  }

  /** A step the run takes. */
  ghost function StepAt(run: seq<System>, i: nat): (a: Action)
    requires IsRun(run) && i + 1 < |run|
    ensures Enabled(run[i], a) && run[i + 1] == Apply(run[i], a)
  {
    assert StepsAt(run, i);
    var a :| Enabled(run[i], a) && run[i + 1] == Apply(run[i], a);
    a
  }

  lemma {:induction false} RunInv(run: seq<System>, i: nat)
    requires IsRun(run) && i < |run|
    ensures forall k :: 0 <= k <= i ==> Inv(run[k])
  {
    if i == 0 {
      InitialInv();
    } else {
      RunInv(run, i - 1);
      var a := StepAt(run, i - 1);
      StepInv(run[i - 1], a);
    }
  }

  lemma HoldersMeet(s: System, w: Wid, v: Wid)
    requires Inv(s) && w in s.workers && v in s.workers && s.workers[v].alive && v !in s.selfJoined
    requires s.workers[w].name == s.workers[v].name && s.workers[w].holder.ByOp?
    ensures w == v
  {
    var o := s.workers[w].holder.op;
    assert WorkerOk(s, w) && WorkerOk(s, v) && NameOk(s, o) && ShutdownOk(s, v, o);
    if s.workers[v].holder.ByOp? { assert PairOk(s, o, s.workers[v].holder.op); }
  }

  /** Of two live workers of one name, one was cleaned up from its own thread. */
  lemma SelfCleanedApart(run: seq<System>, i: nat, w: Wid, v: Wid)
    requires IsRun(run) && i < |run| && w in run[i].workers && v in run[i].workers
    requires run[i].workers[w].alive && run[i].workers[v].alive && run[i].workers[w].name == run[i].workers[v].name
    ensures w == v || w in run[i].selfJoined || v in run[i].selfJoined
  {
    var s := run[i];
    RunInv(run, i);
    if w !in s.selfJoined && v !in s.selfJoined {
      assert WorkerOk(s, w) && WorkerOk(s, v) && ShutdownPairOk(s, w, v);
      if s.workers[w].holder.ByOp? {
        HoldersMeet(s, w, v);
      } else if s.workers[v].holder.ByOp? {
        HoldersMeet(s, v, w);
      }
    }
  }

  predicate LivesUnder(s: System, w: Wid, n: Name) { w in s.workers && s.workers[w].alive && s.workers[w].name == n }

  /** A worker cleaned up from its own thread that still runs under a name. */
  ghost predicate Lingers(s: System, n: Name) { exists v :: v in s.selfJoined && LivesUnder(s, v, n) }

  ghost predicate OnePerName(s: System)
  {
    forall n, w, v :: LivesUnder(s, w, n) && LivesUnder(s, v, n) ==> w == v
  }

  /** No step of the run starts a worker under a name that such a worker still has. */
  ghost predicate NeverBeside(run: seq<System>)
  {
    forall i, w :: 0 <= i < |run| - 1 && w !in run[i].workers && w in run[i + 1].workers ==>
      !Lingers(run[i], run[i + 1].workers[w].name)
  }

  lemma Newcomer(s: System, a: Action, w: Wid)
    requires Enabled(s, a) && w !in s.workers && w in Apply(s, a).workers
    ensures a.MakeStep? && a.worker == w && Apply(s, a).workers[w] == Worker(s.ops[a.op].name, true, ByOp(a.op))
  {
  }

  /** Whoever starts a worker holds its name, so a live worker of that name was cleaned up from its own thread. */
  lemma MakerAlone(s: System, o: Oid, w: Wid, v: Wid)
    requires Inv(s) && Enabled(s, MakeStep(o, w))
    ensures LivesUnder(s, v, s.ops[o].name) ==> v in s.selfJoined
  {
    assert NameOk(s, o);
    if v in s.workers {
      assert WorkerOk(s, v) && ShutdownOk(s, v, o);
      if s.workers[v].holder.ByOp? { assert PairOk(s, o, s.workers[v].holder.op); }
    }
  }

  lemma OnlyNewcomer(s: System, a: Action, w: Wid, v: Wid)
    requires Inv(s) && Enabled(s, a) && w !in s.workers && w in Apply(s, a).workers
    requires !Lingers(s, Apply(s, a).workers[w].name) && LivesUnder(Apply(s, a), v, Apply(s, a).workers[w].name)
    ensures w == v
  {
    Newcomer(s, a, w);
    if v in s.workers {
      WorkersStay(s, a, v);
      MakerAlone(s, a.op, w, v);
    } else {
      Newcomer(s, a, v);
    }
  }

  lemma OnePerNameStep(s: System, a: Action)
    requires Inv(s) && Enabled(s, a) && OnePerName(s)
    requires forall w :: w !in s.workers && w in Apply(s, a).workers ==> !Lingers(s, Apply(s, a).workers[w].name)
    ensures OnePerName(Apply(s, a))
  {
    var t := Apply(s, a);
    forall n, w, v | LivesUnder(t, w, n) && LivesUnder(t, v, n) ensures w == v {
      if w in s.workers && v in s.workers {
        WorkersStay(s, a, w);
        WorkersStay(s, a, v);
        assert LivesUnder(s, w, n) && LivesUnder(s, v, n);
      } else if w !in s.workers {
        OnlyNewcomer(s, a, w, v);
      } else {
        OnlyNewcomer(s, a, v, w);
      }
    }
  }

  lemma {:induction false} OnePerNameAt(run: seq<System>, i: nat)
    requires IsRun(run) && NeverBeside(run) && i < |run|
    ensures OnePerName(run[i])
  {
    if i > 0 {
      OnePerNameAt(run, i - 1);
      RunInv(run, i - 1);
      var a := StepAt(run, i - 1);
      OnePerNameStep(run[i - 1], a);
    }
  }

  /**
   Each name has at most one live worker throughout a run if and only if the run never starts
   one under a name that a worker cleaned up from its own thread still has.
   */
  lemma OneLiveWorker(run: seq<System>)
    requires IsRun(run)
    ensures (forall i :: 0 <= i < |run| ==> OnePerName(run[i])) <==> NeverBeside(run)
  {
    if NeverBeside(run) {
      forall i | 0 <= i < |run| ensures OnePerName(run[i]) { OnePerNameAt(run, i); }
    } else {
      var i, w :| 0 <= i < |run| - 1 && w !in run[i].workers && w in run[i + 1].workers
                  && Lingers(run[i], run[i + 1].workers[w].name);
      var n := run[i + 1].workers[w].name;
      var v :| v in run[i].selfJoined && LivesUnder(run[i], v, n);
      var a := StepAt(run, i);
      Newcomer(run[i], a, w);
      WorkersStay(run[i], a, v);
      assert LivesUnder(run[i + 1], w, n) && LivesUnder(run[i + 1], v, n) && w != v;
      assert !OnePerName(run[i + 1]);
    }
  }

  lemma FreeNameOf(s: System, n: Name, w: Wid)
    requires Inv(s) && !s.closing && n !in s.slots
    ensures LivesUnder(s, w, n) ==> w in s.selfJoined
  {
    if w in s.workers {
      assert WorkerOk(s, w);
      if s.workers[w].holder.ByOp? { assert NameOk(s, s.workers[w].holder.op); }
    }
  }

  /**
   When a name is reserved, every worker ever started under it has exited if and only if none
   of them was cleaned up from its own thread and still runs.
   */
  lemma ReuseAfterExit(run: seq<System>, i: nat, o: Oid, n: Name)
    requires IsRun(run) && i < |run| && Enabled(run[i], ReserveStep(o, n))
    ensures (forall w :: !LivesUnder(run[i], w, n)) <==> !Lingers(run[i], n)
  {
    RunInv(run, i);
    forall w ensures LivesUnder(run[i], w, n) ==> w in run[i].selfJoined { FreeNameOf(run[i], n, w); }
  }

  ghost predicate Reachable(s: System) { exists run: seq<System> :: IsRun(run) && run[|run| - 1] == s }

  lemma Reaches(s: System, a: Action)
    requires Reachable(s) && Enabled(s, a)
    ensures Reachable(Apply(s, a))
  {
    var run :| IsRun(run) && run[|run| - 1] == s;
    var run' := run + [Apply(s, a)];
    forall i | 0 <= i < |run'| - 1 ensures StepsAt(run', i) {
      var b := if i < |run| - 1 then StepAt(run, i) else a;
      assert Enabled(run'[i], b) && run'[i + 1] == Apply(run'[i], b);
    }
    assert IsRun(run') && run'[|run'| - 1] == Apply(s, a);
  }

  /** A name was reserved. */
  const RESERVED := System(
    map["a" := Creating], false, false, false, map[0 := Op("a", Reserved)], map[], 0, 0, map[], {})

  /** Worker 7 was started for a client that is not published yet. */
  const BUILT := System(
    map["a" := Creating], false, false, false, map[0 := Op("a", Built(7))],
    map[7 := Worker("a", true, ByOp(0))], 0, 0, map[], {})

  /** The client was published. */
  const PUBLISHED := System(
    map["a" := Ready(7)], false, false, false, map[0 := Op("a", Done)],
    map[7 := Worker("a", true, BySlot)], 0, 1, map[], {})

  /** Its destruction began. */
  const GUARDED := System(
    map["a" := Closing], false, false, false, map[0 := Op("a", Done), 1 := Op("a", Guarding(7))],
    map[7 := Worker("a", true, ByOp(1))], 0, 1, map[], {})

  /** It was cancelled, which leaves the cleanup to a fallback. */
  const CANCELLED := System(
    map["a" := Closing], false, false, false,
    map[0 := Op("a", Done), 1 := Op("a", Cleaning(7, Unclaimed, 0, 1))],
    map[7 := Worker("a", true, ByOp(1))], 0, 1, map[], {})

  /** The fallback ran on the worker's own thread. */
  const SELF_JOINED := System(
    map["a" := Closing], false, false, false,
    map[0 := Op("a", Done), 1 := Op("a", Cleaning(7, Joined, 0, 0))],
    map[7 := Worker("a", true, Nobody)], 0, 1, map[], {7})

  /** And handed the name back. */
  const HANDED_BACK := System(
    map[], false, false, false,
    map[0 := Op("a", Done), 1 := Op("a", Cleaning(7, Released, 0, 0))],
    map[7 := Worker("a", true, Nobody)], 0, 2, map[], {7})

  lemma IsReserved()
    ensures Enabled(Initial(), ReserveStep(0, "a")) && Apply(Initial(), ReserveStep(0, "a")) == RESERVED
  {
  }

  lemma IsBuilt()
    ensures Enabled(RESERVED, MakeStep(0, 7)) && Apply(RESERVED, MakeStep(0, 7)) == BUILT
  {
  }

  lemma IsPublished()
    ensures Enabled(BUILT, CommitStep(0)) && Apply(BUILT, CommitStep(0)) == PUBLISHED
  {
  }

  lemma IsGuarded()
    ensures Enabled(PUBLISHED, DestroyStep(1, "a")) && Apply(PUBLISHED, DestroyStep(1, "a")) == GUARDED
  {
  }

  lemma IsCancelled()
    ensures Enabled(GUARDED, CancelDestroy(1)) && Apply(GUARDED, CancelDestroy(1)) == CANCELLED
  {
  }

  lemma IsSelfJoined()
    ensures Enabled(CANCELLED, FallbackOnWorker(1)) && Apply(CANCELLED, FallbackOnWorker(1)) == SELF_JOINED
  {
  }

  lemma IsHandedBack()
    ensures Enabled(SELF_JOINED, ReleaseStep(1)) && Apply(SELF_JOINED, ReleaseStep(1)) == HANDED_BACK
  {
  }

  lemma HandedBackReached()
    ensures Reachable(HANDED_BACK)
  {
    var run := [Initial()];
    assert IsRun(run) && run[|run| - 1] == Initial();
    IsReserved();
    Reaches(Initial(), ReserveStep(0, "a"));
    IsBuilt();
    Reaches(RESERVED, MakeStep(0, 7));
    IsPublished();
    Reaches(BUILT, CommitStep(0));
    IsGuarded();
    Reaches(PUBLISHED, DestroyStep(1, "a"));
    IsCancelled();
    Reaches(GUARDED, CancelDestroy(1));
    IsSelfJoined();
    Reaches(CANCELLED, FallbackOnWorker(1));
    IsHandedBack();
    Reaches(SELF_JOINED, ReleaseStep(1));
  }

  /** In that case one name can have two live workers. */
  lemma TwoLiveWorkers()
    ensures exists s :: Reachable(s) && !OnePerName(s)
  {
    HandedBackReached();
    Reaches(HANDED_BACK, ReserveStep(2, "a"));
    var reserved := Apply(HANDED_BACK, ReserveStep(2, "a"));
    Reaches(reserved, MakeStep(2, 8));
    var s := Apply(reserved, MakeStep(2, 8));
    assert LivesUnder(s, 7, "a") && LivesUnder(s, 8, "a");
  }

  predicate Removal(a: Action) { a.DropRefusedStep? || a.DropFailedStep? || a.ReleaseStep? }

  /** A removal finds its own reservation, or nothing at all once shutdown has emptied the registry. */
  lemma RemovesOnlyItsOwn(run: seq<System>, i: nat, a: Action)
    requires IsRun(run) && i < |run| && Enabled(run[i], a) && Removal(a)
    ensures forall q :: q in run[i].ops && q != a.op && HoldsName(run[i].ops[q].pc) ==>
              run[i].ops[q].name != run[i].ops[a.op].name
    ensures var n := run[i].ops[a.op].name;
            if run[i].drained then n !in run[i].slots
            else n in run[i].slots && run[i].slots[n] == if a.ReleaseStep? then Closing else Creating
  {
    RunInv(run, i);
    assert NameOk(run[i], a.op);
    forall q | q in run[i].ops && q != a.op && HoldsName(run[i].ops[q].pc)
      ensures run[i].ops[q].name != run[i].ops[a.op].name
    {
      assert PairOk(run[i], a.op, q);
    }
  }

  /** A published client leaves the registry only by being destroyed, or by shutdown. */
  lemma ReadyStaysReady(run: seq<System>, i: nat, a: Action, n: Name)
    requires IsRun(run) && i < |run| && Enabled(run[i], a) && n in run[i].slots && run[i].slots[n].Ready?
    requires !a.DrainStep? && (a.DestroyStep? ==> a.name != n)
    ensures n in Apply(run[i], a).slots && Apply(run[i], a).slots[n] == run[i].slots[n]
  {
    RunInv(run, i);
    assert ActorOk(run[i], a);
    ReadyFrame(run[i], a, n);
  }

  /** A cleanup is never orphaned, and a released name means its worker has exited. */
  lemma CleanupIsOwned(run: seq<System>, i: nat, o: Oid)
    requires IsRun(run) && i < |run| && o in run[i].ops && run[i].ops[o].pc.Cleaning?
    ensures var p := run[i].ops[o].pc;
            && (p.stage.Unclaimed? ==> Enabled(run[i], ContenderRuns(o)) || Enabled(run[i], FallbackRuns(o)))
            && (p.stage.Released? ==> Exited(run[i], p.worker) || p.worker in run[i].selfJoined)
  {
    RunInv(run, i);
    assert GripOk(run[i], o) && ClaimOk(run[i].ops[o].pc);
  }

  predicate Over(p: Pc) { p.Done? || p.Lost? || (p.Cleaning? && p.stage.Released?) }

  /** The step an operation takes next. */
  function NextStep(o: Oid, p: Pc, networkClosed: bool): (a: Action)
    requires !Over(p)
  {
    match p
    case Reserved => MakeFails(o)
    case MakeFailed => DropFailedStep(o)
    case Built(_) => if networkClosed then CommitRefused(o) else CommitStep(o)
    case Refused(_) => DropRefusedStep(o)
    case Reaping(_) => ReapStep(o)
    case Guarding(_) => SubmitCleanup(o)
    case Cleaning(_, Unclaimed, contenders, _) => if contenders > 0 then ContenderRuns(o) else FallbackRuns(o)
    case Cleaning(_, Joining, _, _) => JoinStep(o)
    case Cleaning(_, Joined, _, _) => ReleaseStep(o)
  }

  /** An operation that is not over can go on, unless it waits for its own worker to exit. */
  lemma OperationsGoOn(run: seq<System>, i: nat, o: Oid)
    requires IsRun(run) && i < |run| && o in run[i].ops && !Over(run[i].ops[o].pc)
    ensures var a := NextStep(o, run[i].ops[o].pc, run[i].networkClosed);
            || Enabled(run[i], a)
            || ((a.ReapStep? || a.JoinStep?) && Enabled(run[i], WorkerExits(run[i].ops[o].pc.worker)))
  {
    RunInv(run, i);
    assert GripOk(run[i], o) && ClaimOk(run[i].ops[o].pc);
    OperationGoesOn(run[i], o);
  }

  lemma OperationGoesOn(s: System, o: Oid)
    requires o in s.ops && !Over(s.ops[o].pc) && GripOk(s, o) && ClaimOk(s.ops[o].pc)
    ensures var a := NextStep(o, s.ops[o].pc, s.networkClosed);
            Enabled(s, a) || ((a.ReapStep? || a.JoinStep?) && Enabled(s, WorkerExits(s.ops[o].pc.worker)))
  {
  }

  /** A name can be reserved exactly if the engine is open and no slot holds it; a ready client can be destroyed. */
  lemma NamesOpen(s: System, o: Oid, n: Name)
    requires o !in s.ops
    ensures Enabled(s, ReserveStep(o, n)) <==> !s.closing && n !in s.slots
    ensures (forall m :: SlotOk(s, m)) && n in s.slots && s.slots[n].Ready? ==> Enabled(s, DestroyStep(o, n))
  {
    assert SlotOk(s, n) || exists m :: !SlotOk(s, m);
  }

  /** A waiter asleep although it could leave has been notified, or a notification is on its way. */
  lemma NoLostWakeup(run: seq<System>, i: nat, t: Waiter)
    requires IsRun(run) && i < |run| && t in run[i].waiters && run[i].waiters[t].Asleep?
    requires run[i].closing || !Transient(run[i].slots, run[i].waiters[t].name)
    ensures Enabled(run[i], Wake(t)) || Enabled(run[i], Notify)
  {
    RunInv(run, i);
    assert WaiterOk(run[i], t);
  }
}
