/**
 Tracked callback dispatch. `Ticket` is the lock-protected state of one
 submission. The step system runs the submitting call against an executor that may
 start the job or drop it unstarted at any moment, before or after `submit`
 returns, and whatever `submit` returns. Callbacks run outside the lock, as steps
 of their own.
 */
module Dispatch {
  import opened Base

  /** The identity of an abandonment callback. */
  type Abandoned = nat

  datatype Phase = Submitting | Accepted | Started | Dropped | Rejected

  datatype TicketState = TicketState(phase: Phase, abandoned: Option<Abandoned>)

  /** Locked regions; the second component is the callback taken out, if any. */
  function StartRegion(t: TicketState): (r: (TicketState, Option<Abandoned>))
  {
    (TicketState(Started, None), t.abandoned)
  }

  function RejectRegion(t: TicketState): (r: (TicketState, Option<Abandoned>))
  {
    (TicketState(Rejected, None), t.abandoned)
  }

  function AcceptRegion(t: TicketState): (r: (TicketState, Option<Abandoned>))
  {
    match t.phase
    case Submitting => (t.(phase := Accepted), None)
    case Dropped => (t.(abandoned := None), t.abandoned)
    case _ => (t, None)
  }

  function RetireRegion(t: TicketState): (r: (TicketState, Option<Abandoned>))
  {
    match t.phase
    case Submitting => (t.(phase := Dropped), None)
    case Accepted => (TicketState(Dropped, None), t.abandoned)
    case _ => (t, None)
  }

  class Ticket {
    var phase: Phase
    var abandoned: Option<Abandoned>

    function State(): (t: TicketState)
      reads this
    {
      TicketState(phase, abandoned)
    }

    constructor (callback: Abandoned)
      ensures State() == TicketState(Submitting, Some(callback))
    {
      phase, abandoned := Submitting, Some(callback);
    }

    method Take() returns (taken: Option<Abandoned>)
      modifies this`abandoned
      ensures taken == old(abandoned) && abandoned == None
    {
      taken, abandoned := abandoned, None;
    }

    method Start() returns (retired: Option<Abandoned>)
      modifies this
      ensures (State(), retired) == StartRegion(old(State()))
      ensures phase == Started && abandoned == None && retired == old(abandoned)
    {
      phase := Started;
      retired := Take();
    }

    method Accept() returns (taken: Option<Abandoned>)
      modifies this
      ensures (State(), taken) == AcceptRegion(old(State()))
      ensures phase == if old(phase) == Submitting then Accepted else old(phase)
      ensures taken == if old(phase) == Dropped then old(abandoned) else None
      ensures abandoned == if old(phase) == Dropped then None else old(abandoned)
    {
      taken := None;
      match phase
      case Submitting => phase := Accepted;
      case Dropped => taken := Take();
      case _ =>
    }

    method Reject() returns (retired: Option<Abandoned>)
      modifies this
      ensures (State(), retired) == RejectRegion(old(State()))
      ensures phase == Rejected && abandoned == None && retired == old(abandoned)
    {
      phase := Rejected;
      retired := Take();
    }

    method Retire() returns (taken: Option<Abandoned>)
      modifies this
      ensures (State(), taken) == RetireRegion(old(State()))
      ensures phase == if old(phase) in {Submitting, Accepted} then Dropped else old(phase)
      ensures taken == if old(phase) == Accepted then old(abandoned) else None
      ensures abandoned == if old(phase) == Accepted then None else old(abandoned)
    {
      taken := None;
      match phase
      case Submitting => phase := Dropped;
      case Accepted =>
        phase := Dropped;
        taken := Take();
      case _ =>
    }
  }

  // ---------------------------------------------------------------- step system

  datatype Outcome = Fine | DispatchFailed | SubmitFailed

  datatype Submitter =
    | InSubmit
    | Returned(ok: bool)
    | SubmitterReports(callback: Abandoned)
    | Finished(outcome: Outcome)

  datatype Job = Held | Running | JobReports(callback: Abandoned) | Gone

  /**
   What has happened, in order. `Dropping` is the job dropped unstarted; `Freed` is a callback
   dropped without running.
   */
  datatype Event =
    | Accepting
    | Rejecting
    | Starting
    | Dropping
    | Called(callback: Abandoned)
    | Freed(callback: Abandoned)

  datatype System = System(ticket: TicketState, submitter: Submitter, job: Job, log: seq<Event>)

  datatype Action = SubmitReturns(ok: bool) | Settle | SubmitterCalls | StartJob | DropJob | JobCalls | EndJob

  function Initial(callback: Abandoned): (s: System)
  {
    System(TicketState(Submitting, Some(callback)), InSubmit, Held, [])
  }

  predicate Enabled(s: System, a: Action)
  {
    match a
    case SubmitReturns(_) => s.submitter.InSubmit?
    case Settle => s.submitter.Returned?
    case SubmitterCalls => s.submitter.SubmitterReports?
    case StartJob => s.job.Held?
    case DropJob => s.job.Held?
    case JobCalls => s.job.JobReports?
    case EndJob => s.job.Running?
  }

  function Release(taken: Option<Abandoned>): (r: seq<Event>) { if taken.Some? then [Freed(taken.value)] else [] }

  function Apply(s: System, a: Action): (r: System)
    requires Enabled(s, a)
  {
    match a
    case SubmitReturns(ok) => s.(submitter := Returned(ok))
    case Settle =>
      if s.submitter.ok then
        var (t, taken) := AcceptRegion(s.ticket);
        System(t, if taken.Some? then SubmitterReports(taken.value) else Finished(Fine), s.job, s.log + [Accepting])
      else
        var (t, taken) := RejectRegion(s.ticket);
        System(t, Finished(SubmitFailed), s.job, s.log + [Rejecting] + Release(taken))
    case SubmitterCalls => s.(submitter := Finished(DispatchFailed), log := s.log + [Called(s.submitter.callback)])
    case StartJob =>
      var (t, taken) := StartRegion(s.ticket);
      System(t, s.submitter, Running, s.log + [Starting] + Release(taken))
    case DropJob =>
      var (t, taken) := RetireRegion(s.ticket);
      System(t, s.submitter, if taken.Some? then JobReports(taken.value) else Gone, s.log + [Dropping])
    case JobCalls => s.(job := Gone, log := s.log + [Called(s.job.callback)])
    case EndJob =>
      var (t, taken) := RetireRegion(s.ticket);
      s.(ticket := t, job := if taken.Some? then JobReports(taken.value) else Gone)
  }

  // ------------------------------------------------------------------ invariant

  function Times(log: seq<Event>, e: Event): (n: nat) { multiset(log)[e] }

  predicate Settled(s: System) { s.submitter.SubmitterReports? || s.submitter.Finished? }

  predicate WasAccepted(s: System) { Accepting in s.log }
  predicate WasRejected(s: System) { Rejecting in s.log }
  predicate WasStarted(s: System) { Starting in s.log }
  predicate WasDropped(s: System) { Dropping in s.log }

  /** Each thread's place tells what it has logged. */
  predicate Places(s: System)
  {
    && (WasAccepted(s) || WasRejected(s) <==> Settled(s)) && !(WasAccepted(s) && WasRejected(s))
    && (WasStarted(s) || WasDropped(s) <==> !s.job.Held?) && !(WasStarted(s) && WasDropped(s))
    && (s.job.Running? ==> WasStarted(s)) && (s.job.JobReports? ==> WasDropped(s))
    && (s.submitter.SubmitterReports? ==> WasAccepted(s))
    && (s.submitter.Finished? ==> (s.submitter.outcome.SubmitFailed? <==> WasRejected(s)))
  }

  /** The phase is determined by what happened, except that a start and a rejection overwrite each other. */
  predicate PhaseOk(s: System)
  {
    match s.ticket.phase
    case Submitting => !WasAccepted(s) && !WasRejected(s) && !WasStarted(s) && !WasDropped(s)
    case Accepted => WasAccepted(s) && !WasStarted(s) && !WasDropped(s)
    case Started => WasStarted(s)
    case Dropped => WasDropped(s) && !WasRejected(s)
    case Rejected => WasRejected(s)
  }

  /** The ticket holds the callback until someone takes it. */
  predicate HolderOk(s: System, c: Abandoned)
  {
    && s.ticket.abandoned == (if WasStarted(s) || WasRejected(s) || (WasAccepted(s) && WasDropped(s)) then None
       else Some(c))
    && (s.submitter.SubmitterReports? ==> s.submitter.callback == c)
    && (s.job.JobReports? ==> s.job.callback == c)
  }

  /** A start or a rejection frees it. */
  predicate FreedOk(s: System, c: Abandoned)
  {
    Times(s.log, Freed(c)) == (if WasStarted(s) || WasRejected(s) then 1 else 0)
  }

  /** An accepted job that is dropped hands it to one reporter, who calls it once. */
  predicate CalledOk(s: System, c: Abandoned)
  {
    Times(s.log, Called(c)) + (if s.submitter.SubmitterReports? then 1 else 0) + (if s.job.JobReports? then 1 else 0)
    == (if WasAccepted(s) && WasDropped(s) then 1 else 0)
  }

  predicate OtherOk(s: System, d: Abandoned) { Times(s.log, Called(d)) == 0 && Times(s.log, Freed(d)) == 0 }

  ghost predicate CallbackOk(s: System, c: Abandoned)
  {
    HolderOk(s, c) && FreedOk(s, c) && CalledOk(s, c) && forall d :: d != c ==> OtherOk(s, d)
  }

  predicate Before(log: seq<Event>, e: Event, f: Event)
  {
    exists i, j :: 0 <= i < j < |log| && log[i] == e && log[j] == f
  }

  /** Who reports follows from who came first. */
  predicate OrderOk(s: System)
  {
    && (s.submitter.SubmitterReports? ==> Before(s.log, Dropping, Accepting))
    && (s.job.JobReports? ==> Before(s.log, Accepting, Dropping))
    && (s.submitter.Finished? ==> (s.submitter.outcome.DispatchFailed? <==> Before(s.log, Dropping, Accepting)))
  }

  ghost predicate Inv(s: System, c: Abandoned) { Places(s) && PhaseOk(s) && CallbackOk(s, c) && OrderOk(s) }

  lemma BeforeGrows(log: seq<Event>, x: Event, e: Event, f: Event)
    requires e != f
    ensures Before(log + [x], e, f) <==> Before(log, e, f) || (x == f && e in log)
  {
    var more := log + [x];
    if Before(log, e, f) {
      var i, j :| 0 <= i < j < |log| && log[i] == e && log[j] == f;
      assert more[i] == e && more[j] == f;
    }
    if x == f && e in log {
      var i :| 0 <= i < |log| && log[i] == e;
      assert more[i] == e && more[|log|] == f;
    }
  }

  lemma BeforeRelease(log: seq<Event>, taken: Option<Abandoned>, e: Event, f: Event)
    requires e != f && !f.Freed?
    ensures Before(log + Release(taken), e, f) <==> Before(log, e, f)
  {
    if taken.Some? { BeforeGrows(log, Freed(taken.value), e, f); } else { assert log + [] == log; }
  }

  // ---------------------------------------------------------------------- steps

  lemma InitialInv(c: Abandoned)
    ensures Inv(Initial(c), c)
  {
  }

  lemma PlacesStep(s: System, a: Action)
    requires Enabled(s, a) && Places(s)
    ensures a.EndJob? || Places(Apply(s, a))
  {
  }

  lemma EndJobIsQuiet(s: System)
    requires Enabled(s, EndJob) && Places(s) && PhaseOk(s)
    ensures Apply(s, EndJob) == s.(job := Gone)
  {
  }

  lemma PhaseStep(s: System, a: Action)
    requires Enabled(s, a) && Places(s) && PhaseOk(s)
    ensures PhaseOk(Apply(s, a))
  {
  }

  lemma TimesGrow(log: seq<Event>, x: Event, e: Event)
    ensures Times(log + [x], e) == Times(log, e) + (if x == e then 1 else 0)
  {
  }

  lemma TimesRelease(log: seq<Event>, taken: Option<Abandoned>, e: Event)
    ensures Times(log + Release(taken), e) == Times(log, e) + (if taken.Some? && Freed(taken.value) == e then 1 else 0)
  {
    if taken.Some? { TimesGrow(log, Freed(taken.value), e); } else { assert log + [] == log; }
  }

  lemma HolderStep(s: System, a: Action, c: Abandoned)
    requires Enabled(s, a) && Places(s) && PhaseOk(s) && HolderOk(s, c)
    ensures HolderOk(Apply(s, a), c)
  {
  }

  /** What one step does to the number of times an event occurred. */
  lemma TimesStep(s: System, a: Action, e: Event)
    requires Enabled(s, a) && (e.Called? || e.Freed?)
    ensures Times(Apply(s, a).log, e) == Times(s.log, e) + (
              match a
              case Settle =>
                if !s.submitter.ok && s.ticket.abandoned.Some? && e == Freed(s.ticket.abandoned.value) then 1 else 0
              case StartJob => if s.ticket.abandoned.Some? && e == Freed(s.ticket.abandoned.value) then 1 else 0
              case SubmitterCalls => if e == Called(s.submitter.callback) then 1 else 0
              case JobCalls => if e == Called(s.job.callback) then 1 else 0
              case _ => 0)
  {
    match a {
      case SubmitReturns(_) =>
      case Settle =>
        if s.submitter.ok {
          TimesGrow(s.log, Accepting, e);
        } else {
          TimesGrow(s.log, Rejecting, e);
          TimesRelease(s.log + [Rejecting], s.ticket.abandoned, e);
        }
      case SubmitterCalls => TimesGrow(s.log, Called(s.submitter.callback), e);
      case StartJob =>
        TimesGrow(s.log, Starting, e);
        TimesRelease(s.log + [Starting], s.ticket.abandoned, e);
      case DropJob => TimesGrow(s.log, Dropping, e);
      case JobCalls => TimesGrow(s.log, Called(s.job.callback), e);
      case EndJob =>
    }
  }

  lemma FreedStep(s: System, a: Action, c: Abandoned)
    requires Enabled(s, a) && HolderOk(s, c) && FreedOk(s, c) && Places(s) && PhaseOk(s)
    ensures FreedOk(Apply(s, a), c)
  {
    TimesStep(s, a, Freed(c));
  }

  lemma CalledSettle(s: System, c: Abandoned)
    requires Enabled(s, Settle) && Places(s) && PhaseOk(s) && HolderOk(s, c) && CalledOk(s, c)
    ensures CalledOk(Apply(s, Settle), c)
  {
    TimesStep(s, Settle, Called(c));
  }

  lemma CalledDrop(s: System, c: Abandoned)
    requires Enabled(s, DropJob) && Places(s) && PhaseOk(s) && HolderOk(s, c) && CalledOk(s, c)
    ensures CalledOk(Apply(s, DropJob), c)
  {
    TimesStep(s, DropJob, Called(c));
  }

  lemma CalledStep(s: System, a: Action, c: Abandoned)
    requires Enabled(s, a) && Places(s) && PhaseOk(s) && HolderOk(s, c) && CalledOk(s, c)
    ensures CalledOk(Apply(s, a), c)
  {
    if a.Settle? {
      CalledSettle(s, c);
    } else if a.DropJob? {
      CalledDrop(s, c);
    } else {
      TimesStep(s, a, Called(c));
    }
  }

  lemma OtherStep(s: System, a: Action, c: Abandoned, d: Abandoned)
    requires Enabled(s, a) && HolderOk(s, c) && d != c && OtherOk(s, d)
    ensures OtherOk(Apply(s, a), d)
  {
    TimesStep(s, a, Freed(d));
    TimesStep(s, a, Called(d));
  }

  lemma CallbackStep(s: System, a: Action, c: Abandoned)
    requires Enabled(s, a) && Places(s) && PhaseOk(s) && CallbackOk(s, c)
    ensures CallbackOk(Apply(s, a), c)
  {
    HolderStep(s, a, c);
    FreedStep(s, a, c);
    CalledStep(s, a, c);
    forall d | d != c ensures OtherOk(Apply(s, a), d) { OtherStep(s, a, c, d); }
  }

  predicate Logs(s: System, a: Action, f: Event)
    requires Enabled(s, a)
  {
    (a.Settle? && s.submitter.ok && f == Accepting) || (a.DropJob? && f == Dropping)
  }

  /** What one step does to the order of two events. */
  lemma BeforeStep(s: System, a: Action, e: Event, f: Event)
    requires Enabled(s, a) && e != f && (f == Accepting || f == Dropping)
    ensures Before(Apply(s, a).log, e, f)
       <==> Before(s.log, e, f) || (e in s.log && Logs(s, a, f))
  {
    match a {
      case SubmitReturns(_) =>
      case Settle =>
        if s.submitter.ok {
          BeforeGrows(s.log, Accepting, e, f);
        } else {
          BeforeGrows(s.log, Rejecting, e, f);
          BeforeRelease(s.log + [Rejecting], s.ticket.abandoned, e, f);
        }
      case SubmitterCalls => BeforeGrows(s.log, Called(s.submitter.callback), e, f);
      case StartJob =>
        BeforeGrows(s.log, Starting, e, f);
        BeforeRelease(s.log + [Starting], s.ticket.abandoned, e, f);
      case DropJob => BeforeGrows(s.log, Dropping, e, f);
      case JobCalls => BeforeGrows(s.log, Called(s.job.callback), e, f);
      case EndJob =>
    }
  }

  lemma OrderStep(s: System, a: Action, c: Abandoned)
    requires Enabled(s, a) && Places(s) && PhaseOk(s) && HolderOk(s, c) && OrderOk(s)
    ensures OrderOk(Apply(s, a))
  {
    BeforeStep(s, a, Dropping, Accepting);
    BeforeStep(s, a, Accepting, Dropping);
  }

  lemma StepInv(s: System, a: Action, c: Abandoned)
    requires Enabled(s, a) && Inv(s, c)
    ensures Inv(Apply(s, a), c)
  {
    PlacesStep(s, a);
    if a.EndJob? { EndJobIsQuiet(s); }
    PhaseStep(s, a);
    CallbackStep(s, a, c);
    OrderStep(s, a, c);
  }

  // ----------------------------------------------------------------------- runs

  ghost predicate StepsAt(run: seq<System>, i: nat)
    requires i + 1 < |run|
  {
    exists a :: Enabled(run[i], a) && run[i + 1] == Apply(run[i], a)
  }

  ghost predicate IsRun(run: seq<System>, c: Abandoned)
  {
    run != [] && run[0] == Initial(c) && forall i :: 0 <= i < |run| - 1 ==> StepsAt(run, i)
  }

  lemma {:induction false} RunInv(run: seq<System>, c: Abandoned, i: nat)
    requires IsRun(run, c) && i < |run|
    ensures forall k :: 0 <= k <= i ==> Inv(run[k], c)
  {
    if i == 0 {
      InitialInv(c);
    } else {
      RunInv(run, c, i - 1);
      assert StepsAt(run, i - 1);
      var a :| Enabled(run[i - 1], a) && run[i] == Apply(run[i - 1], a);
      StepInv(run[i - 1], a, c);
    }
  }

  predicate Complete(s: System) { s.submitter.Finished? && s.job.Gone? }

  /** The callback runs at most once, and never once the job was started or the submission rejected. */
  lemma AtMostOnce(run: seq<System>, c: Abandoned, i: nat)
    requires IsRun(run, c) && i < |run|
    ensures Times(run[i].log, Called(c)) <= 1 && forall d :: d != c ==> OtherOk(run[i], d)
    ensures Starting in run[i].log || Rejecting in run[i].log ==> Called(c) !in run[i].log
  {
    RunInv(run, c, i);
  }

  /** Once both threads are done, it has run exactly once if and only if an accepted job was dropped unstarted. */
  lemma ExactlyOnceWhenAbandoned(run: seq<System>, c: Abandoned, i: nat)
    requires IsRun(run, c) && i < |run| && Complete(run[i])
    ensures Times(run[i].log, Called(c)) == 1 <==> Accepting in run[i].log && Dropping in run[i].log
    ensures Times(run[i].log, Called(c)) + Times(run[i].log, Freed(c)) == 1
  {
    RunInv(run, c, i);
  }

  /** The submitter is told of the failure if and only if the drop came before its acceptance. */
  lemma FailureToldIffDroppedFirst(run: seq<System>, c: Abandoned, i: nat)
    requires IsRun(run, c) && i < |run| && run[i].submitter.Finished?
    ensures run[i].submitter.outcome.DispatchFailed? <==> Before(run[i].log, Dropping, Accepting)
    ensures run[i].submitter.outcome.SubmitFailed? <==> Rejecting in run[i].log
  {
    RunInv(run, c, i);
  }

  function Remaining(s: System): (n: nat)
  {
    (match s.submitter case InSubmit => 3 case Returned(_) => 2 case SubmitterReports(_) => 1 case Finished(_) => 0)
    + (match s.job case Held => 2 case Running => 1 case JobReports(_) => 1 case Gone => 0)
  }

  /** No thread ever blocks: some step is enabled until both are done, and every step uses up a bounded budget. */
  lemma AlwaysMoves(s: System, c: Abandoned)
    requires Inv(s, c)
    ensures !Complete(s) <==> exists a :: Enabled(s, a)
    ensures forall a :: Enabled(s, a) ==> Remaining(Apply(s, a)) < Remaining(s)
  {
    if !Complete(s) {
      assert Enabled(s, SubmitReturns(true)) || Enabled(s, Settle) || Enabled(s, SubmitterCalls)
          || Enabled(s, StartJob) || Enabled(s, JobCalls) || Enabled(s, EndJob);
    }
    forall a | Enabled(s, a) ensures Remaining(Apply(s, a)) < Remaining(s) {
      if a.EndJob? { EndJobIsQuiet(s); }
    }
  }
}
