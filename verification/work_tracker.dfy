/**
 The work tracker of the retirement layer. Leases share a generation held by
 strong references; the tracker keeps only a weak one. Dropping the last strong
 reference happens outside the lock, the destructor that notifies happens under
 it, and a waiter holds the lock from reading the count until it sleeps.
 */
module WorkTracker {
  import opened Base

  type Gen = nat
  type Lease = nat
  type Waiter = nat

  /** What `register_locked` does to the weak reference: upgrade it, or replace it by a fresh generation. */
  function Join(active: Option<Gen>, live: set<Gen>, unused: Gen): (g: Gen)
  {
    if active.Some? && active.value in live then active.value else unused
  }

  class Tracker {
    var active: Option<Gen>
    var next: Gen

    predicate Valid()
      reads this
    {
      active.Some? ==> active.value < next
    }

    constructor ()
      ensures Valid() && active == None && next == 0
    {
      active, next := None, 0;
    }

    /** `live` holds the generations whose strong count is not zero. */
    method RegisterLocked(live: set<Gen>) returns (g: Gen)
      requires Valid()
      modifies this
      ensures Valid() && g == Join(old(active), live, old(next)) && active == Some(g)
      ensures next == if g == old(next) then old(next) + 1 else old(next)
      ensures if old(active).Some? && old(active).value in live then Some(g) == old(active) else g == old(next)
    {
      if active.Some? && active.value in live {
        g := active.value;
      } else {
        g := next;
        active := Some(g);
        next := next + 1;
      }
    }
  }

  datatype WaiterPc = Checking | Deciding | Asleep | Returned

  /**
   `lockedBy` is the waiter between its check and its sleep; `dropping` holds the
   generations whose last strong reference is gone but whose destructor has not run.
   */
  datatype System = System(
    active: Option<Gen>,
    next: Gen,
    leases: map<Lease, Gen>,
    dropping: set<Gen>,
    lockedBy: Option<Waiter>,
    waiters: map<Waiter, WaiterPc>)

  const INITIAL := System(None, 0, map[], {}, None, map[])

  /** `parent` is the lease whose holder registers derived work; `None` is an external producer. */
  datatype Action =
    | Register(l: Lease, parent: Option<Lease>)
    | DropLease(l: Lease)
    | RunDestructor(g: Gen)
    | BeginWait(w: Waiter)
    | CheckWork(w: Waiter)
    | FallAsleep(w: Waiter)
    | SpuriousWake(w: Waiter)

  predicate At(s: System, w: Waiter, pc: WaiterPc) { w in s.waiters && s.waiters[w] == pc }

  /** `active.strong_count() != 0` */
  predicate HasWork(s: System) { s.active.Some? && s.active.value in s.leases.Values }

  predicate Enabled(s: System, a: Action)
  {
    match a
    case Register(l, parent) => l !in s.leases && s.lockedBy.None? && (parent.Some? ==> parent.value in s.leases)
    case DropLease(l) => l in s.leases
    case RunDestructor(g) => g in s.dropping && s.lockedBy.None?
    case BeginWait(w) => w !in s.waiters
    case CheckWork(w) => At(s, w, Checking) && s.lockedBy.None?
    case FallAsleep(w) => At(s, w, Deciding)
    case SpuriousWake(w) => At(s, w, Asleep)
  }

  function NotifyAll(waiters: map<Waiter, WaiterPc>): (r: map<Waiter, WaiterPc>)
  {
    map w | w in waiters :: if waiters[w].Asleep? then Checking else waiters[w]
  }

  function Apply(s: System, a: Action): (r: System)
    requires Enabled(s, a)
  {
    match a
    case Register(l, _) =>
      var g := Join(s.active, s.leases.Values, s.next);
      s.(active := Some(g), next := if g == s.next then s.next + 1 else s.next, leases := s.leases[l := g])
    case DropLease(l) =>
      var rest := s.leases - {l};
      s.(leases := rest, dropping := if s.leases[l] in rest.Values then s.dropping else s.dropping + {s.leases[l]})
    case RunDestructor(g) => s.(dropping := s.dropping - {g}, waiters := NotifyAll(s.waiters))
    case BeginWait(w) => s.(waiters := s.waiters[w := Checking])
    case CheckWork(w) =>
      if HasWork(s) then s.(waiters := s.waiters[w := Deciding], lockedBy := Some(w))
      else s.(waiters := s.waiters[w := Returned])
    case FallAsleep(w) => s.(waiters := s.waiters[w := Asleep], lockedBy := None)
    case SpuriousWake(w) => s.(waiters := s.waiters[w := Checking])
  }

  /** Every live lease belongs to the generation the tracker points to. */
  ghost predicate OneGeneration(s: System)
  {
    && (forall l :: l in s.leases ==> s.active == Some(s.leases[l]))
    && (s.active.Some? ==> s.active.value < s.next)
    && (forall g :: g in s.dropping ==> g < s.next && forall l :: l in s.leases ==> s.leases[l] != g)
  }

  ghost predicate LockOk(s: System)
  {
    && (forall w :: w in s.waiters && s.waiters[w].Deciding? ==> s.lockedBy == Some(w))
    && (s.lockedBy.Some? ==> At(s, s.lockedBy.value, Deciding))
  }

  /** A waiter asleep, or about to be, without work left still has a destructor coming. */
  ghost predicate WakeupOk(s: System)
  {
    forall w :: w in s.waiters && (s.waiters[w].Asleep? || s.waiters[w].Deciding?) && s.leases == map[] ==>
      s.active.Some? && s.active.value in s.dropping
  }

  ghost predicate Inv(s: System) { OneGeneration(s) && LockOk(s) && WakeupOk(s) }

  /** With one generation, the weak count is zero exactly when no lease is live. */
  lemma CountIsLeases(s: System)
    requires OneGeneration(s)
    ensures HasWork(s) <==> s.leases != map[]
  {
    if l :| l in s.leases {
      assert s.leases[l] in s.leases.Values;
    } else {
      assert s.leases == map[];
    }
  }

  lemma GenerationStep(s: System, a: Action)
    requires Inv(s) && Enabled(s, a)
    ensures OneGeneration(Apply(s, a))
  {
    CountIsLeases(s);
    if a.DropLease? {
      var rest := s.leases - {a.l};
      assert forall l :: l in rest ==> rest[l] in rest.Values;
    }
  }

  lemma WakeupStep(s: System, a: Action)
    requires Inv(s) && Enabled(s, a)
    ensures LockOk(Apply(s, a)) && WakeupOk(Apply(s, a))
  {
    CountIsLeases(s);
    if a.DropLease? && (s.leases - {a.l}) == map[] {
      assert s.leases[a.l] !in (s.leases - {a.l}).Values;
    } else if a.Register? {
      assert a.l in Apply(s, a).leases;
    }
  }

  /** Outside the short time between a check and a sleep, anyone can register work. */
  lemma OpenRegisters(s: System, l: Lease)
    ensures s.lockedBy.None? && l !in s.leases <==> Enabled(s, Register(l, None))
  {
  }

  // ---------------------------------------------------------------------- runs

  ghost predicate StepsAt(run: seq<System>, acts: seq<Action>, i: nat)
    requires i + 1 < |run| && i < |acts|
  {
    Enabled(run[i], acts[i]) && run[i + 1] == Apply(run[i], acts[i])
  }

  ghost predicate IsRun(run: seq<System>, acts: seq<Action>)
  {
    |run| == |acts| + 1 && run[0] == INITIAL && forall i :: 0 <= i < |acts| ==> StepsAt(run, acts, i)
  }

  lemma {:induction false} RunInv(run: seq<System>, acts: seq<Action>, i: nat)
    requires IsRun(run, acts) && i < |run|
    ensures forall k :: 0 <= k <= i ==> Inv(run[k])
  {
    if i > 0 {
      RunInv(run, acts, i - 1);
      assert StepsAt(run, acts, i - 1);
      GenerationStep(run[i - 1], acts[i - 1]);
      WakeupStep(run[i - 1], acts[i - 1]);
    }
  }

  /** Leases alive at the same time always share one generation. */
  lemma LeasesShareGeneration(run: seq<System>, acts: seq<Action>, i: nat, k: Lease, l: Lease)
    requires IsRun(run, acts) && i < |run| && k in run[i].leases && l in run[i].leases
    ensures run[i].leases[k] == run[i].leases[l] && run[i].active == Some(run[i].leases[l])
  {
    RunInv(run, acts, i);
  }

  /**
   `wait` returns only at an instant without any live lease. In particular the late
   destructor of a retired generation never completes a successor that still has one.
   */
  lemma WaitReturnsWithoutWork(run: seq<System>, acts: seq<Action>, i: nat, w: Waiter)
    requires IsRun(run, acts) && i < |acts|
    requires !At(run[i], w, Returned) && At(run[i + 1], w, Returned)
    ensures run[i].leases == map[] && run[i + 1].leases == map[]
  {
    RunInv(run, acts, i);
    assert StepsAt(run, acts, i);
    CountIsLeases(run[i]);
  }

  /** A waiter that slept through the end of all work has a wakeup on its way. */
  lemma NoLostWakeup(run: seq<System>, acts: seq<Action>, i: nat, w: Waiter)
    requires IsRun(run, acts) && i < |run| && run[i].leases == map[]
    requires At(run[i], w, Asleep) || At(run[i], w, Deciding)
    ensures run[i].active.Some? && run[i].active.value in run[i].dropping
  {
    RunInv(run, acts, i);
  }

  /** Steps of the tracker itself, without new work and without spurious wakeups. */
  predicate Advances(a: Action) { a.RunDestructor? || a.CheckWork? || a.FallAsleep? }

  /** With no work left, a waiter can always be brought forward until it returns. */
  lemma WaiterNeverStuck(run: seq<System>, acts: seq<Action>, i: nat, w: Waiter)
    requires IsRun(run, acts) && i < |run| && run[i].leases == map[]
    requires w in run[i].waiters && !run[i].waiters[w].Returned?
    ensures exists a :: Advances(a) && Enabled(run[i], a)
  {
    RunInv(run, acts, i);
    var s := run[i];
    if s.lockedBy.Some? {
      assert Enabled(s, FallAsleep(s.lockedBy.value));
    } else if s.waiters[w].Checking? {
      assert Enabled(s, CheckWork(w));
    } else {
      assert Enabled(s, RunDestructor(s.active.value));
    }
  }

  function Rank(pc: WaiterPc): (n: nat)
  {
    match pc
    case Deciding => 3
    case Asleep => 2
    case Checking => 1
    case Returned => 0
  }

  function AtLeast(s: System, n: nat): (r: set<Waiter>) { set w | w in s.waiters && Rank(s.waiters[w]) >= n }

  /** What is left to do before every waiter has returned and every destructor has run. */
  function Budget(s: System): (n: nat) { |AtLeast(s, 1)| + |AtLeast(s, 2)| + |AtLeast(s, 3)| + |s.dropping| }

  lemma RanksFall(s: System, a: Action)
    requires Enabled(s, a) && Advances(a) && !HasWork(s)
    ensures forall w :: w in s.waiters <==> w in Apply(s, a).waiters
    ensures forall w :: w in s.waiters ==> Rank(Apply(s, a).waiters[w]) <= Rank(s.waiters[w])
    ensures !a.RunDestructor? ==> Rank(Apply(s, a).waiters[a.w]) < Rank(s.waiters[a.w])
  {
  }

  /** With no work left every step of the tracker uses up a finite budget. */
  lemma BudgetFalls(run: seq<System>, acts: seq<Action>, i: nat, a: Action)
    requires IsRun(run, acts) && i < |run| && run[i].leases == map[] && Enabled(run[i], a) && Advances(a)
    ensures Budget(Apply(run[i], a)) < Budget(run[i]) && Apply(run[i], a).leases == map[]
  {
    var s, t := run[i], Apply(run[i], a);
    RunInv(run, acts, i);
    CountIsLeases(s);
    RanksFall(s, a);
    SubsetSize(AtLeast(t, 1), AtLeast(s, 1));
    SubsetSize(AtLeast(t, 2), AtLeast(s, 2));
    SubsetSize(AtLeast(t, 3), AtLeast(s, 3));
    SubsetSize(t.dropping, s.dropping);
    if !a.RunDestructor? {
      assert a.w in AtLeast(s, Rank(s.waiters[a.w])) && a.w !in AtLeast(t, Rank(s.waiters[a.w]));
    }
  }

  lemma Extends(run: seq<System>, acts: seq<Action>, a: Action)
    requires IsRun(run, acts) && Enabled(run[|acts|], a)
    ensures IsRun(run + [Apply(run[|acts|], a)], acts + [a])
  {
    var run', acts' := run + [Apply(run[|acts|], a)], acts + [a];
    forall i | 0 <= i < |acts'| ensures StepsAt(run', acts', i) {
      if i < |acts| { assert StepsAt(run, acts, i); }
    }
  }

  /** The run goes on, by steps of the tracker alone, until every waiter has returned. */
  ghost predicate Completes(run: seq<System>, acts: seq<Action>, run': seq<System>, acts': seq<Action>)
    requires |run'| == |acts'| + 1
  {
    && run <= run' && acts <= acts' && (forall k :: |acts| <= k < |acts'| ==> Advances(acts'[k]))
    && forall w :: w in run'[|acts'|].waiters ==> run'[|acts'|].waiters[w].Returned?
  }

  /** With no work left the tracker's own steps go on until every waiter has returned. */
  lemma {:induction false} WaitersReturn(run: seq<System>, acts: seq<Action>)
    requires IsRun(run, acts) && run[|acts|].leases == map[]
    ensures exists run', acts' :: IsRun(run', acts') && Completes(run, acts, run', acts')
    decreases Budget(run[|acts|])
  {
    var s := run[|acts|];
    if w :| w in s.waiters && !s.waiters[w].Returned? {
      WaiterNeverStuck(run, acts, |acts|, w);
      var a :| Advances(a) && Enabled(s, a);
      BudgetFalls(run, acts, |acts|, a);
      Extends(run, acts, a);
      WaitersReturn(run + [Apply(s, a)], acts + [a]);
      var run', acts' :| IsRun(run', acts') && Completes(run + [Apply(s, a)], acts + [a], run', acts');
      assert Completes(run, acts, run', acts');
    } else {
      assert Completes(run, acts, run, acts);
    }
  }

  /** From `i` on, external producers are closed: only lease holders register. */
  ghost predicate OnlyDerivedFrom(acts: seq<Action>, i: nat)
  {
    forall k :: i <= k < |acts| && acts[k].Register? ==> acts[k].parent.Some?
  }

  /** Once no lease is live and external producers are closed, no lease is ever live again. */
  lemma {:induction false} NoWorkEverAfter(run: seq<System>, acts: seq<Action>, i: nat, j: nat)
    requires IsRun(run, acts) && i <= j < |run| && run[i].leases == map[] && OnlyDerivedFrom(acts, i)
    ensures run[j].leases == map[]
  {
    if i < j {
      NoWorkEverAfter(run, acts, i, j - 1);
      assert StepsAt(run, acts, j - 1);
    }
  }
}
