/**
 Single-flight bearer credentials. `BearerAuth` is the lock-guarded state with its
 three locked regions; the step system runs any number of callers, fetch tasks and
 cancellations against it, with one gate per fetch.
 */
module BearerAuth {
  import opened Base

  type Gate = nat
  type Caller = nat

  /** An access token is opaque apart from its optional expiry. */
  datatype Token = Token(id: nat, expires: Option<int>)

  predicate Expired(t: Token, now: int) { t.expires.Some? && now >= t.expires.value }

  const MAX_GENERATION: nat := 0xFFFF_FFFF_FFFF_FFFF

  datatype State = State(token: Option<Token>, generation: nat, inFlight: Option<Gate>, lastFailure: Option<nat>)

  const EMPTY := State(None, 0, None, None)

  /** What a caller leaves the state lock with; `Wait` says whether it must start the fetch. */
  datatype Entry = UseToken(token: Token, generation: nat) | Retry | Fail | Wait(gate: Gate, starts: bool)

  function JoinGate(s: State, unused: Gate): (r: (State, Entry))
  {
    if s.inFlight.Some? then (s, Wait(s.inFlight.value, false)) else (s.(inFlight := Some(unused)), Wait(unused, true))
  }

  /** A token is held that has not reached its expiry. */
  predicate Fresh(token: Option<Token>, now: int)
  {
    token.Some? && (token.value.expires.Some? ==> now < token.value.expires.value)
  }

  /** Locked region of `current_token`. */
  function EnterCurrent(s: State, now: int, unused: Gate): (r: (State, Entry))
  {
    if s.token.Some? && !Expired(s.token.value, now) then (s, UseToken(s.token.value, s.generation))
    else JoinGate(s, unused)
  }

  /** Locked region of `refresh_if_needed` for a caller whose request used `generation`. */
  function EnterRefresh(s: State, generation: nat, unused: Gate): (r: (State, Entry))
  {
    if s.generation > generation && s.token.Some? then (s, Retry)
    else if s.lastFailure == Some(generation) then (s, Fail)
    else JoinGate(s, unused)
  }

  /** `refresh` carries the generation of a refresh and is `None` for a load. */
  function Complete(s: State, gate: Gate, outcome: Option<Token>, refresh: Option<nat>): (r: (State, bool))
  {
    var ok := outcome.Some? && s.generation < MAX_GENERATION;
    var s1 := if ok then s.(token := outcome, generation := s.generation + 1, lastFailure := None) else s;
    var s2 := if refresh.Some? && !ok then s1.(lastFailure := refresh) else s1;
    (if s2.inFlight == Some(gate) then s2.(inFlight := None) else s2, ok)
  }

  class Bearer {
    var token: Option<Token>
    var generation: nat
    var inFlight: Option<Gate>
    var lastFailure: Option<nat>

    function View(): (s: State)
      reads this
    {
      State(token, generation, inFlight, lastFailure)
    }

    constructor ()
      ensures View() == EMPTY
    {
      token, generation, inFlight, lastFailure := None, 0, None, None;
    }

    method CurrentToken(now: int, unused: Gate) returns (entry: Entry)
      modifies this
      ensures (View(), entry) == EnterCurrent(old(View()), now, unused)
      ensures entry.UseToken? <==> Fresh(old(token), now)
      ensures entry.UseToken? ==> entry == UseToken(old(token).value, old(generation)) && inFlight == old(inFlight)
      ensures !entry.UseToken? ==>
                entry == Wait(if old(inFlight).Some? then old(inFlight).value else unused, old(inFlight).None?)
                && inFlight == Some(entry.gate)
      ensures token == old(token) && generation == old(generation) && lastFailure == old(lastFailure)
    {
      if token.Some? && !Expired(token.value, now) {
        return UseToken(token.value, generation);
      }
      if inFlight.Some? {
        return Wait(inFlight.value, false);
      }
      inFlight := Some(unused);
      entry := Wait(unused, true);
    }

    method RefreshIfNeeded(used: nat, unused: Gate) returns (entry: Entry)
      modifies this
      ensures (View(), entry) == EnterRefresh(old(View()), used, unused)
      ensures entry.Retry? <==> used < old(generation) && old(token).Some?
      ensures entry.Fail? <==> !entry.Retry? && old(lastFailure) == Some(used)
      ensures entry.Retry? || entry.Fail? ==> inFlight == old(inFlight)
      ensures !entry.Retry? && !entry.Fail? ==>
                entry == Wait(if old(inFlight).Some? then old(inFlight).value else unused, old(inFlight).None?)
                && inFlight == Some(entry.gate)
      ensures token == old(token) && generation == old(generation) && lastFailure == old(lastFailure)
    {
      if generation > used && token.Some? {
        return Retry;
      }
      if lastFailure == Some(used) {
        return Fail;
      }
      if inFlight.Some? {
        return Wait(inFlight.value, false);
      }
      inFlight := Some(unused);
      entry := Wait(unused, true);
    }

    method CompleteFetch(gate: Gate, outcome: Option<Token>, refresh: Option<nat>) returns (ok: bool)
      modifies this
      ensures (View(), ok) == Complete(old(View()), gate, outcome, refresh)
      ensures ok <==> outcome.Some? && old(generation) < 0xFFFF_FFFF_FFFF_FFFF
      ensures ok ==> token == outcome && generation == old(generation) + 1 && lastFailure == None
      ensures !ok ==> token == old(token) && generation == old(generation)
      ensures !ok ==> lastFailure == if refresh.Some? then refresh else old(lastFailure)
      ensures inFlight == if old(inFlight) == Some(gate) then None else old(inFlight)
    {
      ok := outcome.Some?;
      if ok {
        if generation < MAX_GENERATION {
          token, generation, lastFailure := outcome, generation + 1, None;
        } else {
          ok := false;
        }
      }
      if refresh.Some? && !ok {
        lastFailure := refresh;
      }
      if inFlight == Some(gate) {
        inFlight := None;
      }
    }
  }

  /**
   `Claimed` is registered but not spawned; `Settled` updated the state; `Published` stored the
   gate result; `Closed` notified.
   */
  datatype Phase =
    | Claimed
    | Fetching
    | Fetched(outcome: Option<Token>)
    | Settled(ok: bool)
    | Published(ok: bool)
    | Closed(ok: bool)

  /**
   `used` is the generation of a refresh, `None` for a load; `base` records the generation at
   creation. `inline`: spawning failed, so the creating caller completes the gate itself.
   */
  datatype GateRec = GateRec(used: Option<nat>, phase: Phase, base: nat, creator: Caller, inline: bool)

  /** What a caller wants: a current token, or credentials newer than a generation. */
  datatype Goal = Current | Newer(generation: nat)

  datatype Pc =
    | Starting(goal: Goal, gate: Gate)
    | Completing(goal: Goal, gate: Gate)
    | Checking(goal: Goal, gate: Gate)
    | Sleeping(goal: Goal, gate: Gate)
    | Woken(goal: Goal, gate: Gate)
    | Passed(goal: Goal, gate: Gate, ok: bool)
    | GotToken(token: Token, generation: nat)
    | GotRetry(used: nat, newer: nat)
    | GotError
    | LoopsAgain
    | Unnotified

  /**
   `halted` holds the gates whose completion was cut short: the caller completing it was
   cancelled, or the runtime dropped the fetch task. History: `fetches` lists source calls
   (`Some(g)` a refresh of generation `g`), `installed` the tokens taken over.
   */
  datatype System = System(
    state: State,
    gates: map<Gate, GateRec>,
    callers: map<Caller, Pc>,
    halted: set<Gate>,
    fetches: seq<Option<nat>>,
    installed: seq<Token>)

  const INITIAL := System(EMPTY, map[], map[], {}, [], [])

  datatype Action =
    | CallCurrent(c: Caller, now: int, unused: Gate)
    | CallRefresh(c: Caller, used: nat, unused: Gate)
    | SpawnFetch(c: Caller)
    | SpawnFails(c: Caller)
    | FetchReturns(g: Gate, fetched: Option<Token>, now: int)
    | Settle(g: Gate)
    | Publish(g: Gate)
    | NotifyWaiters(g: Gate)
    | ReadGate(c: Caller)
    | ReadAgain(c: Caller)
    | Resume(c: Caller, now: int)
    | Cancel(c: Caller)
    | DropTask(g: Gate)

  predicate Known(p: Phase) { p.Published? || p.Closed? }

  predicate Active(p: Phase) { p.Claimed? || p.Fetching? || p.Fetched? }

  /** Whoever completes the gate is at an await. */
  predicate Interruptible(p: Phase) { p.Fetching? || p.Fetched? || p.Settled? }

  /** The gate exists and its completion still runs. */
  predicate Driven(s: System, g: Gate) { g in s.gates && g !in s.halted }

  /**
   Request generations come from `current_token`, or are the initial zero. A caller can be
   cancelled where it awaits: not between claiming a gate and spawning, nor between storing a
   gate's result and notifying.
   */
  predicate Enabled(s: System, a: Action)
  {
    match a
    case CallCurrent(c, _, unused) => c !in s.callers && unused !in s.gates
    case CallRefresh(c, used, unused) => c !in s.callers && unused !in s.gates && used <= s.state.generation
    case SpawnFetch(c) => c in s.callers && s.callers[c].Starting? && s.callers[c].gate in s.gates
    case SpawnFails(c) => c in s.callers && s.callers[c].Starting? && s.callers[c].gate in s.gates
    case FetchReturns(g, _, _) => Driven(s, g) && s.gates[g].phase.Fetching?
    case Settle(g) => Driven(s, g) && s.gates[g].phase.Fetched?
    case Publish(g) => Driven(s, g) && s.gates[g].phase.Settled?
    case NotifyWaiters(g) => Driven(s, g) && s.gates[g].phase.Published?
    case ReadGate(c) => c in s.callers && s.callers[c].Checking? && s.callers[c].gate in s.gates
    case ReadAgain(c) => c in s.callers && s.callers[c].Woken? && s.callers[c].gate in s.gates
    case Resume(c, _) => c in s.callers && s.callers[c].Passed?
    case Cancel(c) =>
      && c in s.callers && !s.callers[c].Starting?
      && (s.callers[c].Completing? ==> s.callers[c].gate in s.gates && Interruptible(s.gates[s.callers[c].gate].phase))
    case DropTask(g) => Driven(s, g) && !s.gates[g].inline && Interruptible(s.gates[g].phase)
  }

  function SetPhase(s: System, g: Gate, p: Phase): (r: System)
    requires g in s.gates
  {
    s.(gates := s.gates[g := s.gates[g].(phase := p)])
  }

  function Enter(s: System, c: Caller, goal: Goal, out: (State, Entry)): (r: System)
  {
    match out.1
    case UseToken(token, generation) => s.(callers := s.callers[c := GotToken(token, generation)])
    case Retry =>
      s.(callers := s.callers[c := if goal.Newer? then GotRetry(goal.generation, s.state.generation) else GotError])
    case Fail => s.(callers := s.callers[c := GotError])
    case Wait(gate, starts) =>
      var used := if goal.Newer? then Some(goal.generation) else None;
      s.(state := out.0,
      callers := s.callers[c := if starts then Starting(goal, gate) else Checking(goal, gate)],
      gates := if starts then s.gates[gate := GateRec(used, Claimed, s.state.generation, c, false)] else s.gates)
  }

  /** A notification wakes the sleepers, and lets a caller that completed the gate itself go on to look at it. */
  function Wake(pc: Pc, g: Gate): (r: Pc)
  {
    if pc.Sleeping? && pc.gate == g then Woken(pc.goal, g)
    else if pc.Completing? && pc.gate == g then Checking(pc.goal, g)
    else pc
  }

  function WakeWaiters(callers: map<Caller, Pc>, g: Gate): (r: map<Caller, Pc>)
  {
    map c | c in callers :: Wake(callers[c], g)
  }

  function AfterGate(s: State, goal: Goal): (pc: Pc)
  {
    match goal
    case Current => if s.token.Some? then GotToken(s.token.value, s.generation) else GotError
    case Newer(g) => if s.generation > g && s.token.Some? then GotRetry(g, s.generation) else LoopsAgain
  }

  function Apply(s: System, a: Action): (r: System)
    requires Enabled(s, a)
  {
    match a
    case CallCurrent(c, now, unused) => Enter(s, c, Current, EnterCurrent(s.state, now, unused))
    case CallRefresh(c, used, unused) => Enter(s, c, Newer(used), EnterRefresh(s.state, used, unused))
    case SpawnFetch(c) =>
      var Starting(goal, g) := s.callers[c];
      SetPhase(s, g, Fetching).(callers := s.callers[c := Checking(goal, g)], fetches := s.fetches + [s.gates[g].used])
    case SpawnFails(c) =>
      var Starting(goal, g) := s.callers[c];
      s.(gates := s.gates[g := s.gates[g].(phase := Fetched(None), inline := true)],
      callers := s.callers[c := Completing(goal, g)])
    case FetchReturns(g, fetched, now) =>
      SetPhase(s, g, Fetched(if fetched.Some? && Expired(fetched.value, now) then None else fetched))
    case Settle(g) =>
      var outcome := s.gates[g].phase.outcome;
      var (state, ok) := Complete(s.state, g, outcome, s.gates[g].used);
      SetPhase(s, g, Settled(ok)).(state := state, installed := if ok then s.installed + [outcome.value]
      else s.installed)
    case Publish(g) => SetPhase(s, g, Published(s.gates[g].phase.ok))
    case NotifyWaiters(g) => SetPhase(s, g, Closed(s.gates[g].phase.ok)).(callers := WakeWaiters(s.callers, g))
    case ReadGate(c) =>
      var Checking(goal, g) := s.callers[c];
      var p := s.gates[g].phase;
      s.(callers := s.callers[c := if Known(p) then Passed(goal, g, p.ok) else Sleeping(goal, g)])
    case ReadAgain(c) =>
      var Woken(goal, g) := s.callers[c];
      var p := s.gates[g].phase;
      s.(callers := s.callers[c := if Known(p) then Passed(goal, g, p.ok) else Unnotified])
    case Resume(c, _) =>
      var Passed(goal, _, ok) := s.callers[c];
      s.(callers := s.callers[c := if ok then AfterGate(s.state, goal) else GotError])
    case Cancel(c) =>
      s.(callers := s.callers - {c}, halted := if s.callers[c].Completing? then s.halted + {s.callers[c].gate}
      else s.halted)
    case DropTask(g) => s.(halted := s.halted + {g})
  }

  // ---------------------------------------------------------------- invariants

  /** A token is present exactly from generation one on, and a remembered failure is about the current generation. */
  ghost predicate StateOk(s: System)
  {
    && (s.state.token.Some? <==> s.state.generation > 0)
    && (s.state.lastFailure.Some? ==> s.state.lastFailure == Some(s.state.generation))
    && s.state.generation == |s.installed| <= MAX_GENERATION
    && (s.installed != [] ==> s.state.token == Some(s.installed[|s.installed| - 1]))
    && (s.state.inFlight.Some? ==> s.state.inFlight.value in s.gates && Active(s.gates[s.state.inFlight.value].phase))
  }

  /** A gate still fetching is the one in flight and fetches for the current generation; a success raised it. */
  ghost predicate GateOk(s: System, g: Gate)
    requires g in s.gates
  {
    var r := s.gates[g];
    && r.base <= s.state.generation
    && (Active(r.phase) ==> s.state.inFlight == Some(g) && r.base == s.state.generation
                            && (r.used.Some? ==> r.used.value == r.base && s.state.lastFailure != r.used))
    && (!Active(r.phase) && r.phase.ok ==> s.state.generation > r.base)
  }

  ghost predicate GatesOk(s: System) { forall g :: g in s.gates ==> GateOk(s, g) }

  predicate Completable(p: Phase) { p.Fetched? || p.Settled? || p.Published? }

  /** The caller is at the gate, in the given role. */
  predicate AtGate(s: System, c: Caller, g: Gate, completing: bool)
  {
    c in s.callers && (if completing then s.callers[c].Completing? else s.callers[c].Starting?)
    && s.callers[c].gate == g
  }

  /** Who moves a gate on: its creator until the spawn and after a failed one, otherwise the fetch task. */
  ghost predicate DriverOk(s: System, g: Gate)
    requires g in s.gates
  {
    var r := s.gates[g];
    && (r.phase.Claimed? ==> !r.inline && AtGate(s, r.creator, g, false))
    && (r.inline ==> !r.phase.Fetching?)
    && (r.inline && Completable(r.phase) && g !in s.halted ==> AtGate(s, r.creator, g, true))
    && (g in s.halted ==> Interruptible(r.phase))
  }

  ghost predicate DriversOk(s: System) { s.halted <= s.gates.Keys && forall g :: g in s.gates ==> DriverOk(s, g) }

  /** The gate was created for the caller's own generation. */
  ghost predicate GoalOk(s: System, goal: Goal, g: Gate)
  {
    g in s.gates && (goal.Newer? ==> s.gates[g].base == goal.generation)
  }

  ghost predicate CallerOk(s: System, c: Caller, pc: Pc)
  {
    match pc
    case Starting(goal, g) => GoalOk(s, goal, g) && s.gates[g].phase.Claimed? && s.gates[g].creator == c
    case Completing(goal, g) =>
      GoalOk(s, goal, g) && g !in s.halted && s.gates[g].inline && s.gates[g].creator == c
      && Completable(s.gates[g].phase)
    case Checking(goal, g) => GoalOk(s, goal, g)
    case Sleeping(goal, g) => GoalOk(s, goal, g) && !s.gates[g].phase.Closed?
    case Woken(goal, g) => GoalOk(s, goal, g) && s.gates[g].phase.Closed?
    case Passed(goal, g, ok) => GoalOk(s, goal, g) && Known(s.gates[g].phase) && s.gates[g].phase.ok == ok
    case GotToken(token, generation) => 0 < generation <= |s.installed| && s.installed[generation - 1] == token
    case GotRetry(used, newer) => used < newer <= s.state.generation
    case GotError => true
    case LoopsAgain => false
    case Unnotified => false
  }

  ghost predicate CallersOk(s: System) { forall c :: c in s.callers ==> CallerOk(s, c, s.callers[c]) }

  /** Where the refresh call of generation `g` stands, once it was made. */
  ghost predicate RefreshSpent(s: System, g: nat)
  {
    || g < s.state.generation
    || (g == s.state.generation && s.state.lastFailure == Some(g))
    || (g == s.state.generation && s.state.inFlight.Some? && s.state.inFlight.value in s.gates
        && s.gates[s.state.inFlight.value].used == Some(g) && !s.gates[s.state.inFlight.value].phase.Claimed?)
  }

  ghost predicate FetchesOk(s: System)
  {
    && (forall i :: 0 <= i < |s.fetches| && s.fetches[i].Some? ==> RefreshSpent(s, s.fetches[i].value))
    && (forall i, j :: 0 <= i < j < |s.fetches| && s.fetches[i].Some? ==> s.fetches[j] != s.fetches[i])
  }

  ghost predicate Inv(s: System) { StateOk(s) && GatesOk(s) && DriversOk(s) && CallersOk(s) && FetchesOk(s) }

  // --------------------------------------------------------------------- steps

  predicate IsSpawn(a: Action) { a.SpawnFetch? || a.SpawnFails? }

  predicate IsGateAction(a: Action) { a.FetchReturns? || a.Settle? || a.Publish? || a.NotifyWaiters? || a.DropTask? }

  /** What a step may rely on about the caller that takes it. */
  ghost predicate ActorOk(s: System, a: Action)
  {
    !IsGateAction(a) && a.c in s.callers ==> CallerOk(s, a.c, s.callers[a.c])
  }

  lemma SettleState(s: System, g: Gate)
    requires StateOk(s) && GatesOk(s) && Enabled(s, Settle(g))
    ensures StateOk(Apply(s, Settle(g)))
  {
    assert GateOk(s, g);
  }

  lemma StateStep(s: System, a: Action)
    requires StateOk(s) && GatesOk(s) && Enabled(s, a)
    ensures StateOk(Apply(s, a))
  {
    if a.Settle? { SettleState(s, a.g); }
  }

  /** Settling ends the flight, raises the generation on success, and leaves every other gate behind. */
  lemma SettleGates(s: System, h: Gate, g: Gate)
    requires StateOk(s) && GatesOk(s) && Enabled(s, Settle(h)) && g in s.gates
    ensures g in Apply(s, Settle(h)).gates && GateOk(Apply(s, Settle(h)), g)
  {
    assert GateOk(s, h) && GateOk(s, g);
  }

  lemma EnterGates(s: System, a: Action, g: Gate)
    requires StateOk(s) && GatesOk(s) && Enabled(s, a) && (a.CallCurrent? || a.CallRefresh?) && g in Apply(s, a).gates
    ensures GateOk(Apply(s, a), g)
  {
    if g in s.gates { assert GateOk(s, g); }
  }

  lemma OtherGates(s: System, a: Action, g: Gate)
    requires GatesOk(s) && ActorOk(s, a) && Enabled(s, a) && g in s.gates
    requires !a.Settle? && !a.CallCurrent? && !a.CallRefresh?
    ensures g in Apply(s, a).gates && GateOk(Apply(s, a), g)
  {
    assert GateOk(s, g);
  }

  lemma GatesStep(s: System, a: Action, g: Gate)
    requires StateOk(s) && GatesOk(s) && ActorOk(s, a) && Enabled(s, a) && g in Apply(s, a).gates
    ensures GateOk(Apply(s, a), g)
  {
    if a.Settle? {
      SettleGates(s, a.g, g);
    } else if a.CallCurrent? || a.CallRefresh? {
      EnterGates(s, a, g);
    } else {
      OtherGates(s, a, g);
    }
  }

  /** Gates are never removed, keep their creator, and only move forward. */
  lemma GateGrows(s: System, a: Action, g: Gate)
    requires Enabled(s, a) && ActorOk(s, a) && g in s.gates
    ensures var p, t := s.gates[g].phase, Apply(s, a);
            && g in t.gates && t.gates[g].base == s.gates[g].base && t.gates[g].creator == s.gates[g].creator
            && t.gates[g].used == s.gates[g].used
            && (Known(p) ==> Known(t.gates[g].phase) && t.gates[g].phase.ok == p.ok)
            && (p.Closed? ==> t.gates[g].phase.Closed?)
            && (t.gates[g].phase.Closed? && !p.Closed? ==> a == NotifyWaiters(g))
            && (p.Claimed? && !(IsSpawn(a) && s.callers[a.c].gate == g) ==> t.gates[g] == s.gates[g])
            && (Completable(p) && a != NotifyWaiters(g) ==>
                  && Completable(t.gates[g].phase)
                  && t.gates[g].inline == s.gates[g].inline)
  {
  }

  lemma HistoryGrows(s: System, a: Action)
    requires Enabled(s, a) && StateOk(s)
    ensures s.installed <= Apply(s, a).installed && s.state.generation <= Apply(s, a).state.generation
  {
  }

  /** Another caller's step, or a gate's, leaves a caller where it is, or wakes it. */
  lemma PcFrame(s: System, a: Action, c: Caller)
    requires Enabled(s, a) && c in s.callers && (IsGateAction(a) || a.c != c)
    ensures c in Apply(s, a).callers
    ensures Apply(s, a).callers[c] == if a.NotifyWaiters? then Wake(s.callers[c], a.g) else s.callers[c]
  {
  }

  /** A gate is halted by losing its fetch task, or the caller completing it. */
  lemma HaltFrame(s: System, a: Action, g: Gate)
    requires Enabled(s, a)
    ensures g in Apply(s, a).halted <==>
            g in s.halted || a == DropTask(g) || (a.Cancel? && s.callers[a.c].Completing? && s.callers[a.c].gate == g)
  {
  }

  lemma StartingKept(s: System, a: Action, c: Caller)
    requires Enabled(s, a) && ActorOk(s, a) && c in s.callers && s.callers[c].Starting? && CallerOk(s, c, s.callers[c])
    requires IsGateAction(a) || a.c != c
    ensures c in Apply(s, a).callers && CallerOk(Apply(s, a), c, Apply(s, a).callers[c])
  {
    PcFrame(s, a, c);
    GateGrows(s, a, s.callers[c].gate);
  }

  lemma CompletingKept(s: System, a: Action, c: Caller)
    requires Enabled(s, a) && ActorOk(s, a) && c in s.callers
    requires s.callers[c].Completing? && CallerOk(s, c, s.callers[c])
    requires IsGateAction(a) || a.c != c
    ensures c in Apply(s, a).callers && CallerOk(Apply(s, a), c, Apply(s, a).callers[c])
  {
    PcFrame(s, a, c);
    GateGrows(s, a, s.callers[c].gate);
    HaltFrame(s, a, s.callers[c].gate);
  }

  lemma OtherKept(s: System, a: Action, c: Caller)
    requires Enabled(s, a) && ActorOk(s, a) && StateOk(s) && c in s.callers && CallerOk(s, c, s.callers[c])
    requires !s.callers[c].Starting? && !s.callers[c].Completing? && (IsGateAction(a) || a.c != c)
    ensures c in Apply(s, a).callers && CallerOk(Apply(s, a), c, Apply(s, a).callers[c])
  {
    PcFrame(s, a, c);
    HistoryGrows(s, a);
    var pc := s.callers[c];
    if pc.Checking? || pc.Sleeping? || pc.Woken? || pc.Passed? { GateGrows(s, a, pc.gate); }
  }

  /** A caller entering the locked region gets a token, an answer, or the gate of its own generation. */
  lemma CallerEnters(s: System, a: Action)
    requires StateOk(s) && GatesOk(s) && Enabled(s, a) && (a.CallCurrent? || a.CallRefresh?)
    ensures a.c in Apply(s, a).callers && CallerOk(Apply(s, a), a.c, Apply(s, a).callers[a.c])
  {
    if s.state.inFlight.Some? { assert GateOk(s, s.state.inFlight.value); }
  }

  lemma CallerSpawns(s: System, a: Action)
    requires DriversOk(s) && ActorOk(s, a) && Enabled(s, a) && IsSpawn(a)
    ensures a.c in Apply(s, a).callers && CallerOk(Apply(s, a), a.c, Apply(s, a).callers[a.c])
  {
    assert DriverOk(s, s.callers[a.c].gate);
  }

  lemma CallerReads(s: System, a: Action)
    requires ActorOk(s, a) && Enabled(s, a) && (a.ReadGate? || a.ReadAgain?)
    ensures a.c in Apply(s, a).callers && CallerOk(Apply(s, a), a.c, Apply(s, a).callers[a.c])
  {
  }

  lemma CallerResumes(s: System, a: Action)
    requires StateOk(s) && GatesOk(s) && ActorOk(s, a) && Enabled(s, a) && a.Resume?
    ensures a.c in Apply(s, a).callers && CallerOk(Apply(s, a), a.c, Apply(s, a).callers[a.c])
  {
    assert GateOk(s, s.callers[a.c].gate);
  }

  lemma CallersStep(s: System, a: Action, c: Caller)
    requires StateOk(s) && GatesOk(s) && DriversOk(s) && CallersOk(s) && Enabled(s, a) && c in Apply(s, a).callers
    ensures CallerOk(Apply(s, a), c, Apply(s, a).callers[c])
  {
    assert ActorOk(s, a);
    if !IsGateAction(a) && a.c == c {
      if a.CallCurrent? || a.CallRefresh? {
        CallerEnters(s, a);
      } else if IsSpawn(a) {
        CallerSpawns(s, a);
      } else if a.Resume? {
        CallerResumes(s, a);
      } else {
        CallerReads(s, a);
      }
    } else {
      assert CallerOk(s, c, s.callers[c]);
      if s.callers[c].Starting? {
        StartingKept(s, a, c);
      } else if s.callers[c].Completing? {
        CompletingKept(s, a, c);
      } else {
        OtherKept(s, a, c);
      }
    }
  }

  lemma NewGateDriver(s: System, a: Action, g: Gate)
    requires Enabled(s, a) && g in Apply(s, a).gates && g !in s.gates && s.halted <= s.gates.Keys
    ensures DriverOk(Apply(s, a), g)
  {
  }

  lemma SpawnedDriver(s: System, a: Action)
    requires Enabled(s, a) && ActorOk(s, a) && IsSpawn(a) && DriverOk(s, s.callers[a.c].gate)
    ensures DriverOk(Apply(s, a), s.callers[a.c].gate)
  {
  }

  lemma ClaimedDriver(s: System, a: Action, g: Gate)
    requires Enabled(s, a) && ActorOk(s, a) && g in s.gates && DriverOk(s, g) && s.gates[g].phase.Claimed?
    requires !(IsSpawn(a) && s.callers[a.c].gate == g)
    ensures g in Apply(s, a).gates && DriverOk(Apply(s, a), g)
  {
    GateGrows(s, a, g);
    HaltFrame(s, a, g);
    if IsGateAction(a) || a.c != s.gates[g].creator { PcFrame(s, a, s.gates[g].creator); }
  }

  /** The gate's own steps keep its driver in place, and a halted gate takes none. */
  lemma StepDriver(s: System, a: Action, g: Gate)
    requires Enabled(s, a) && g in s.gates && DriverOk(s, g) && IsGateAction(a) && a.g == g
    ensures g in Apply(s, a).gates && DriverOk(Apply(s, a), g)
  {
    if s.gates[g].inline && Completable(s.gates[g].phase) { PcFrame(s, a, s.gates[g].creator); }
  }

  lemma OtherDriver(s: System, a: Action, g: Gate)
    requires Enabled(s, a) && ActorOk(s, a) && g in s.gates && DriverOk(s, g) && !s.gates[g].phase.Claimed?
    requires if IsGateAction(a) then a.g != g else true
    ensures g in Apply(s, a).gates && DriverOk(Apply(s, a), g)
  {
    HaltFrame(s, a, g);
    var r := s.gates[g];
    assert Apply(s, a).gates[g] == r;
    if r.inline && Completable(r.phase) && g !in s.halted && (IsGateAction(a) || a.c != r.creator) {
      PcFrame(s, a, r.creator);
    }
  }

  lemma DriversStep(s: System, a: Action, g: Gate)
    requires DriversOk(s) && CallersOk(s) && Enabled(s, a) && g in Apply(s, a).gates
    ensures DriverOk(Apply(s, a), g)
  {
    assert ActorOk(s, a);
    if g !in s.gates {
      NewGateDriver(s, a, g);
    } else if IsSpawn(a) && s.callers[a.c].gate == g {
      SpawnedDriver(s, a);
    } else if s.gates[g].phase.Claimed? {
      ClaimedDriver(s, a, g);
    } else if IsGateAction(a) && a.g == g {
      StepDriver(s, a, g);
    } else {
      OtherDriver(s, a, g);
    }
  }

  lemma HaltedStep(s: System, a: Action)
    requires DriversOk(s) && ActorOk(s, a) && Enabled(s, a)
    ensures Apply(s, a).halted <= Apply(s, a).gates.Keys
  {
    forall g | g in Apply(s, a).halted ensures g in Apply(s, a).gates {
      HaltFrame(s, a, g);
      GateGrows(s, a, g);
    }
  }

  /** Only a settling fetch can change the state in a way that matters here, and it only spends more. */
  lemma SpentStays(s: System, a: Action, g: nat)
    requires StateOk(s) && GatesOk(s) && ActorOk(s, a) && RefreshSpent(s, g) && Enabled(s, a)
    ensures RefreshSpent(Apply(s, a), g)
  {
    if a.Settle? { assert GateOk(s, a.g); }
  }

  lemma FetchesStep(s: System, a: Action)
    requires StateOk(s) && GatesOk(s) && FetchesOk(s) && ActorOk(s, a) && Enabled(s, a)
    ensures FetchesOk(Apply(s, a))
  {
    var s' := Apply(s, a);
    forall i | 0 <= i < |s'.fetches| && s'.fetches[i].Some? ensures RefreshSpent(s', s'.fetches[i].value) {
      if i < |s.fetches| {
        assert s'.fetches[i] == s.fetches[i];
        SpentStays(s, a, s.fetches[i].value);
      } else {
        assert GateOk(s, s.callers[a.c].gate);
      }
    }
    if a.SpawnFetch? { assert GateOk(s, s.callers[a.c].gate); }
  }

  lemma InvStep(s: System, a: Action)
    requires Inv(s) && Enabled(s, a)
    ensures Inv(Apply(s, a))
  {
    assert ActorOk(s, a);
    StateStep(s, a);
    forall g | g in Apply(s, a).gates ensures GateOk(Apply(s, a), g) { GatesStep(s, a, g); }
    HaltedStep(s, a);
    forall g | g in Apply(s, a).gates ensures DriverOk(Apply(s, a), g) { DriversStep(s, a, g); }
    forall c | c in Apply(s, a).callers ensures CallerOk(Apply(s, a), c, Apply(s, a).callers[c]) {
      CallersStep(s, a, c);
    }
    FetchesStep(s, a);
  }

  // ---------------------------------------------------------------------- runs

  ghost predicate StepsAt(run: seq<System>, i: nat)
    requires i + 1 < |run|
  {
    exists a :: Enabled(run[i], a) && run[i + 1] == Apply(run[i], a)
  }

  ghost predicate IsRun(run: seq<System>)
  {
    |run| > 0 && run[0] == INITIAL && forall i :: 0 <= i < |run| - 1 ==> StepsAt(run, i)
  }

  /** A step the run takes. */
  ghost function StepAt(run: seq<System>, i: nat): (a: Action)
    requires IsRun(run) && i + 1 < |run|
    ensures Enabled(run[i], a) && run[i + 1] == Apply(run[i], a)
  {
    assert StepsAt(run, i);
    var a :| Enabled(run[i], a) && run[i + 1] == Apply(run[i], a);
    a
  }

  lemma {:induction false} RunInv(run: seq<System>, i: nat)
    requires IsRun(run) && i < |run|
    ensures forall k :: 0 <= k <= i ==> Inv(run[k])
  {
    if i > 0 {
      RunInv(run, i - 1);
      var a := StepAt(run, i - 1);
      InvStep(run[i - 1], a);
    }
  }

  /** At any moment at most one source call is in progress. */
  lemma SingleFlight(run: seq<System>, i: nat, g: Gate, h: Gate)
    requires IsRun(run) && i < |run| && g in run[i].gates && h in run[i].gates
    requires run[i].gates[g].phase.Fetching? && run[i].gates[h].phase.Fetching?
    ensures g == h
  {
    RunInv(run, i);
    assert GateOk(run[i], g) && GateOk(run[i], h);
  }

  /** Over a whole run, at most one refresh call is ever made for one credential generation. */
  lemma OneRefreshPerGeneration(run: seq<System>, i: nat, j: nat, k: nat)
    requires IsRun(run) && i < |run| && j < k < |run[i].fetches|
    requires run[i].fetches[j].Some? && run[i].fetches[k].Some?
    ensures run[i].fetches[j].value != run[i].fetches[k].value
  {
    RunInv(run, i);
  }

  /** The generation counts installed tokens, the newest of which is current; a failure is remembered only for it. */
  lemma GenerationCounts(run: seq<System>, i: nat)
    requires IsRun(run) && i < |run|
    ensures run[i].state.generation == |run[i].installed|
    ensures run[i].state.token == if run[i].installed == [] then None
            else Some(run[i].installed[|run[i].installed| - 1])
    ensures run[i].state.lastFailure.Some? ==> run[i].state.lastFailure.value == run[i].state.generation
  {
    RunInv(run, i);
  }

  /**
   `current_token` hands out the newest installed token exactly while it is unexpired, and starts
   a fetch exactly if there is none and no fetch is in flight.
   */
  lemma FreshTokenOnly(run: seq<System>, i: nat, c: Caller, now: int, unused: Gate)
    requires IsRun(run) && i < |run| && Enabled(run[i], CallCurrent(c, now, unused))
    ensures var s, t := run[i], Apply(run[i], CallCurrent(c, now, unused));
            var n := |s.installed|;
            var held := n > 0 && (s.installed[n - 1].expires.Some? ==> now < s.installed[n - 1].expires.value);
            && c in t.callers && (t.callers[c].GotToken? <==> held)
            && (held ==> t.callers[c] == GotToken(s.installed[n - 1], n))
            && (t.gates == s.gates <==> held || s.state.inFlight.Some?)
  {
    GenerationCounts(run, i);
  }

  /**
   `refresh_if_needed` asks for a retry exactly if a newer token was installed, and starts a
   refresh exactly if there is none, the last refresh did not fail and no fetch is in flight.
   */
  lemma RefreshExactly(run: seq<System>, i: nat, c: Caller, used: nat, unused: Gate)
    requires IsRun(run) && i < |run| && Enabled(run[i], CallRefresh(c, used, unused))
    ensures var s, t := run[i], Apply(run[i], CallRefresh(c, used, unused));
            var failed := s.state.lastFailure.Some?;
            && c in t.callers && (t.callers[c].GotRetry? <==> used < |s.installed|)
            && (t.callers[c].GotError? <==> used == |s.installed| && failed)
            && (t.gates != s.gates <==> used == |s.installed| && !failed && s.state.inFlight.None?)
  {
    GenerationCounts(run, i);
  }

  /** A gate starts fetching exactly by a spawn, which is also what the list of source calls records. */
  lemma FetchesExactly(s: System, a: Action, g: Gate)
    requires Inv(s) && Enabled(s, a)
    ensures var t := Apply(s, a);
            && t.fetches == s.fetches + (if a.SpawnFetch? then [s.gates[s.callers[a.c].gate].used] else [])
            && (g in t.gates && t.gates[g].phase.Fetching? <==>
                (g in s.gates && s.gates[g].phase.Fetching? && !(a.FetchReturns? && a.g == g))
                || (a.SpawnFetch? && s.callers[a.c].gate == g))
  {
    if a.SpawnFetch? { assert CallerOk(s, a.c, s.callers[a.c]); }
  }

  /** A gate completes with the fetched token exactly if that was unexpired when it came. */
  lemma FetchedFresh(s: System, g: Gate, fetched: Option<Token>, now: int)
    requires Enabled(s, FetchReturns(g, fetched, now))
    ensures Apply(s, FetchReturns(g, fetched, now)).gates[g].phase
         == Fetched(if Fresh(fetched, now) then fetched else None)
  {
  }

  /** A gate's result, once stored, never changes, and a gate success means a newer generation for good. */
  lemma GateResultStays(s: System, a: Action, g: Gate)
    requires Inv(s) && Enabled(s, a) && g in s.gates && !Active(s.gates[g].phase)
    ensures g in Apply(s, a).gates && !Active(Apply(s, a).gates[g].phase)
    ensures Apply(s, a).gates[g].phase.ok == s.gates[g].phase.ok && Apply(s, a).gates[g].base == s.gates[g].base
    ensures Known(s.gates[g].phase) ==> Known(Apply(s, a).gates[g].phase)
  {
    assert GateOk(s, g) && ActorOk(s, a);
  }

  lemma {:induction false} GateResultForGood(run: seq<System>, i: nat, j: nat, g: Gate)
    requires IsRun(run) && i <= j < |run| && g in run[i].gates && !Active(run[i].gates[g].phase)
    ensures g in run[j].gates && !Active(run[j].gates[g].phase) && run[j].gates[g].phase.ok == run[i].gates[g].phase.ok
  {
    if i < j {
      GateResultForGood(run, i, j - 1, g);
      RunInv(run, j - 1);
      var a := StepAt(run, j - 1);
      GateResultStays(run[j - 1], a, g);
    }
  }

  /**
   Every waiter leaves a gate with that gate's one recorded result. A success seen by a
   caller holding generation `n` means that the current generation exceeds `n`.
   */
  lemma WaiterGetsGateResult(run: seq<System>, i: nat, j: nat, c: Caller)
    requires IsRun(run) && i <= j < |run| && c in run[i].callers && run[i].callers[c].Passed?
    ensures var Passed(goal, g, ok) := run[i].callers[c];
            && g in run[j].gates && !Active(run[j].gates[g].phase) && run[j].gates[g].phase.ok == ok
            && (ok && goal.Newer? ==> run[i].state.generation > goal.generation)
            && (ok ==> run[i].state.token.Some?)
  {
    RunInv(run, i);
    assert CallerOk(run[i], c, run[i].callers[c]);
    assert GateOk(run[i], run[i].callers[c].gate);
    GateResultForGood(run, i, j, run[i].callers[c].gate);
  }

  /** After a gate a caller gets its error, or the newest token and generation; the token is not looked at again. */
  lemma ResumesExactly(run: seq<System>, i: nat, c: Caller, now: int)
    requires IsRun(run) && i < |run| && c in run[i].callers && run[i].callers[c].Passed?
    ensures var s, n := run[i], |run[i].installed|;
            var Passed(goal, _, ok) := s.callers[c];
            && (ok ==> n > 0) && Enabled(s, Resume(c, now))
            && var t := Apply(s, Resume(c, now));
               c in t.callers && t.callers[c] == if !ok then GotError
                                                 else if goal.Current? then GotToken(s.installed[n - 1], n)
                                                 else GotRetry(goal.generation, n)
  {
    WaiterGetsGateResult(run, i, i, c);
    GenerationCounts(run, i);
  }

  /** No caller ever needs a second round, and none is woken without a stored result. */
  lemma NeverSecondRound(run: seq<System>, i: nat, c: Caller)
    requires IsRun(run) && i < |run| && c in run[i].callers
    ensures !run[i].callers[c].LoopsAgain? && !run[i].callers[c].Unnotified?
    ensures run[i].callers[c].GotRetry? ==> run[i].callers[c].used < run[i].callers[c].newer <= run[i].state.generation
    ensures run[i].callers[c].GotToken? ==>
              var GotToken(token, n) := run[i].callers[c];
              0 < n <= |run[i].installed| && run[i].installed[n - 1] == token
  {
    RunInv(run, i);
    assert CallerOk(run[i], c, run[i].callers[c]);
  }

  /** No lost wakeup: a caller asleep on a gate whose result is stored still has the notification coming. */
  lemma NoLostWakeup(run: seq<System>, i: nat, c: Caller)
    requires IsRun(run) && i < |run| && c in run[i].callers && run[i].callers[c].Sleeping?
    ensures var g := run[i].callers[c].gate;
            g in run[i].gates && (Known(run[i].gates[g].phase) ==> run[i].gates[g].phase.Published?)
  {
    RunInv(run, i);
    assert CallerOk(run[i], c, run[i].callers[c]);
  }

  // ------------------------------------------------------------------- progress

  predicate Waiting(pc: Pc)
  {
    pc.Starting? || pc.Completing? || pc.Checking? || pc.Sleeping? || pc.Woken? || pc.Passed?
  }

  /** Steps that bring a waiting caller forward: its own, its gate's, and the spawn its gate awaits. */
  predicate Moves(s: System, c: Caller, a: Action)
    requires c in s.callers && Waiting(s.callers[c]) && s.callers[c].gate in s.gates
  {
    var g := s.callers[c].gate;
    match a
    case SpawnFetch(d) => AtGate(s, d, g, false)
    case SpawnFails(d) => AtGate(s, d, g, false)
    case FetchReturns(h, _, _) => h == g
    case Settle(h) => h == g
    case Publish(h) => h == g
    case NotifyWaiters(h) => h == g
    case ReadGate(d) => d == c
    case ReadAgain(d) => d == c
    case Resume(d, _) => d == c
    case _ => false
  }

  /** A caller asleep on a gate whose completion was cut short. */
  predicate Stranded(s: System, c: Caller) { c in s.callers && s.callers[c].Sleeping? && s.callers[c].gate in s.halted }

  lemma GateCanMove(s: System, c: Caller)
    requires Inv(s) && c in s.callers && s.callers[c].Sleeping? && s.callers[c].gate !in s.halted
    ensures s.callers[c].gate in s.gates && exists a :: Moves(s, c, a) && Enabled(s, a)
  {
    assert CallerOk(s, c, s.callers[c]);
    var g := s.callers[c].gate;
    assert DriverOk(s, g);
    match s.gates[g].phase
    case Claimed => assert Moves(s, c, SpawnFails(s.gates[g].creator)) && Enabled(s, SpawnFails(s.gates[g].creator));
    case Fetching => assert Moves(s, c, FetchReturns(g, None, 0)) && Enabled(s, FetchReturns(g, None, 0));
    case Fetched(_) => assert Moves(s, c, Settle(g)) && Enabled(s, Settle(g));
    case Settled(_) => assert Moves(s, c, Publish(g)) && Enabled(s, Publish(g));
    case Published(_) => assert Moves(s, c, NotifyWaiters(g)) && Enabled(s, NotifyWaiters(g));
  }

  lemma CallerCanMove(s: System, c: Caller)
    requires Inv(s) && c in s.callers && Waiting(s.callers[c]) && !s.callers[c].Sleeping?
    ensures s.callers[c].gate in s.gates && exists a :: Moves(s, c, a) && Enabled(s, a)
  {
    assert CallerOk(s, c, s.callers[c]);
    var g := s.callers[c].gate;
    match s.callers[c]
    case Starting(_, _) => assert Moves(s, c, SpawnFails(c)) && Enabled(s, SpawnFails(c));
    case Completing(_, _) =>
      match s.gates[g].phase {
        case Fetched(_) => assert Moves(s, c, Settle(g)) && Enabled(s, Settle(g));
        case Settled(_) => assert Moves(s, c, Publish(g)) && Enabled(s, Publish(g));
        case Published(_) => assert Moves(s, c, NotifyWaiters(g)) && Enabled(s, NotifyWaiters(g));
      }
    case Checking(_, _) => assert Moves(s, c, ReadGate(c)) && Enabled(s, ReadGate(c));
    case Woken(_, _) => assert Moves(s, c, ReadAgain(c)) && Enabled(s, ReadAgain(c));
    case Passed(_, _, _) => assert Moves(s, c, Resume(c, 0)) && Enabled(s, Resume(c, 0));
  }

  lemma NoStarterAt(s: System, g: Gate, d: Caller)
    requires CallersOk(s) && g in s.gates && !s.gates[g].phase.Claimed?
    ensures !AtGate(s, d, g, false)
  {
    if d in s.callers { assert CallerOk(s, d, s.callers[d]); }
  }

  lemma StrandedCannotMove(s: System, c: Caller)
    requires Inv(s) && Stranded(s, c)
    ensures s.callers[c].gate in s.gates && forall a :: Moves(s, c, a) ==> !Enabled(s, a)
  {
    assert CallerOk(s, c, s.callers[c]);
    var g := s.callers[c].gate;
    assert DriverOk(s, g);
    forall d ensures !AtGate(s, d, g, false) { NoStarterAt(s, g, d); }
  }

  /**
   A waiting caller can be brought forward if and only if it does not sleep on a gate whose
   completion was cut short.
   */
  lemma StuckExactly(run: seq<System>, i: nat, c: Caller)
    requires IsRun(run) && i < |run| && c in run[i].callers && Waiting(run[i].callers[c])
    ensures run[i].callers[c].gate in run[i].gates
    ensures (exists a :: Moves(run[i], c, a) && Enabled(run[i], a)) <==> !Stranded(run[i], c)
  {
    RunInv(run, i);
    assert CallerOk(run[i], c, run[i].callers[c]);
    if Stranded(run[i], c) {
      StrandedCannotMove(run[i], c);
    } else if run[i].callers[c].Sleeping? {
      GateCanMove(run[i], c);
    } else {
      CallerCanMove(run[i], c);
    }
  }

  /** What a waiting caller still needs, counted over itself and its gate. */
  function Budget(s: System, c: Caller): (n: nat)
    requires c in s.callers && (Waiting(s.callers[c]) ==> s.callers[c].gate in s.gates)
  {
    if !Waiting(s.callers[c]) then 0 else PcBudget(s.callers[c]) + GateBudget(s.gates[s.callers[c].gate].phase)
  }

  function PcBudget(pc: Pc): (n: nat)
  {
    match pc
    case Starting(_, _) => 6
    case Completing(_, _) => 5
    case Checking(_, _) => 4
    case Sleeping(_, _) => 3
    case Woken(_, _) => 2
    case Passed(_, _, _) => 1
    case _ => 0
  }

  function GateBudget(p: Phase): (n: nat)
  {
    match p
    case Claimed => 5
    case Fetching => 4
    case Fetched(_) => 3
    case Settled(_) => 2
    case Published(_) => 1
    case Closed(_) => 0
  }

  /**
   Every step that brings a waiting caller forward uses up its budget, and no other step
   gives any back, so the caller returns after finitely many of them.
   */
  lemma BudgetFalls(run: seq<System>, i: nat, c: Caller, a: Action)
    requires IsRun(run) && i < |run| && c in run[i].callers
    requires Waiting(run[i].callers[c]) && Enabled(run[i], a) && a != Cancel(c)
    ensures var s, t := run[i], Apply(run[i], a);
            && s.callers[c].gate in s.gates && c in t.callers
            && (Waiting(t.callers[c]) ==> t.callers[c].gate in t.gates)
            && (if Moves(s, c, a) then Budget(t, c) < Budget(s, c) else Budget(t, c) <= Budget(s, c))
  {
    RunInv(run, i);
    BudgetStep(run[i], c, a);
  }

  lemma GateBudgetStep(s: System, g: Gate, a: Action)
    requires Enabled(s, a) && ActorOk(s, a) && g in s.gates
    ensures g in Apply(s, a).gates && GateBudget(Apply(s, a).gates[g].phase) <= GateBudget(s.gates[g].phase)
    ensures IsGateAction(a) && a.g == g && !a.DropTask? ==>
              GateBudget(Apply(s, a).gates[g].phase) < GateBudget(s.gates[g].phase)
    ensures IsSpawn(a) && s.callers[a.c].gate == g ==>
              GateBudget(Apply(s, a).gates[g].phase) < GateBudget(s.gates[g].phase)
  {
  }

  lemma OwnBudgetStep(s: System, c: Caller, a: Action)
    requires Enabled(s, a) && c in s.callers && Waiting(s.callers[c]) && !IsGateAction(a) && a.c == c && !a.Cancel?
    ensures c in Apply(s, a).callers && PcBudget(Apply(s, a).callers[c]) < PcBudget(s.callers[c])
    ensures Waiting(Apply(s, a).callers[c]) ==> Apply(s, a).callers[c].gate == s.callers[c].gate
  {
  }

  lemma BudgetStep(s: System, c: Caller, a: Action)
    requires Inv(s) && c in s.callers && Waiting(s.callers[c]) && Enabled(s, a) && a != Cancel(c)
    ensures var t := Apply(s, a);
            && s.callers[c].gate in s.gates && c in t.callers
            && (Waiting(t.callers[c]) ==> t.callers[c].gate in t.gates)
            && (if Moves(s, c, a) then Budget(t, c) < Budget(s, c) else Budget(t, c) <= Budget(s, c))
  {
    assert ActorOk(s, a) && CallerOk(s, c, s.callers[c]);
    GateBudgetStep(s, s.callers[c].gate, a);
    if !IsGateAction(a) && a.c == c {
      OwnBudgetStep(s, c, a);
    } else {
      PcFrame(s, a, c);
    }
  }

  // ------------------------------------------------------------ cut-short gates

  /** A step that takes away the caller completing a gate itself, or else its fetch task. */
  ghost predicate CutShort(s: System, t: System, g: Gate)
  {
    && g in s.gates
    && if s.gates[g].inline then AtGate(s, s.gates[g].creator, g, true) && s.gates[g].creator !in t.callers
       else Enabled(s, DropTask(g)) && t == Apply(s, DropTask(g))
  }

  /** Callers leave by being cancelled only. */
  lemma CallersStay(s: System, a: Action, c: Caller)
    requires Enabled(s, a) && c in s.callers && c !in Apply(s, a).callers
    ensures a == Cancel(c)
  {
  }

  lemma HaltStep(s: System, a: Action, g: Gate)
    requires Inv(s) && Enabled(s, a)
    ensures g in Apply(s, a).halted <==> g in s.halted || CutShort(s, Apply(s, a), g)
  {
    var t := Apply(s, a);
    HaltFrame(s, a, g);
    if a.Cancel? { assert CallerOk(s, a.c, s.callers[a.c]); }
    if CutShort(s, t, g) && s.gates[g].inline { CallersStay(s, a, s.gates[g].creator); }
  }

  /** A gate is halted exactly if the caller completing it was cancelled or its fetch task was lost. */
  lemma {:induction false} HaltedExactly(run: seq<System>, i: nat, g: Gate)
    requires IsRun(run) && i < |run|
    ensures g in run[i].halted <==> exists k :: 0 <= k < i && CutShort(run[k], run[k + 1], g)
  {
    if i > 0 {
      HaltedExactly(run, i - 1, g);
      RunInv(run, i - 1);
      var a := StepAt(run, i - 1);
      HaltStep(run[i - 1], a, g);
      assert CutShort(run[i - 1], run[i - 1 + 1], g) ==> g in run[i].halted;
    }
  }

  /** A halted gate in flight stays there: the state never changes again, so every later waiter joins it. */
  lemma HaltedStays(s: System, a: Action, g: Gate)
    requires Inv(s) && Enabled(s, a) && g in s.halted
    ensures g in Apply(s, a).halted
    ensures s.state.inFlight == Some(g) ==> Apply(s, a).state == s.state
  {
    HaltFrame(s, a, g);
    if a.Settle? { assert GateOk(s, a.g); }
  }

  lemma StrandedStays(s: System, a: Action, c: Caller)
    requires Inv(s) && Enabled(s, a) && Stranded(s, c) && a != Cancel(c)
    ensures Stranded(Apply(s, a), c) && Apply(s, a).callers[c] == s.callers[c]
  {
    HaltFrame(s, a, s.callers[c].gate);
    PcFrame(s, a, c);
  }

  /**
   Once stranded, a caller stays stranded for as long as it is not cancelled, and a gate in flight
   blocks the provider for good.
   */
  lemma {:induction false} StrandedForGood(run: seq<System>, i: nat, j: nat, c: Caller)
    requires IsRun(run) && i <= j < |run| && Stranded(run[i], c) && forall k :: i <= k <= j ==> c in run[k].callers
    ensures Stranded(run[j], c) && run[j].callers[c] == run[i].callers[c]
    ensures run[i].state.inFlight == Some(run[i].callers[c].gate) ==> run[j].state == run[i].state
  {
    if i < j {
      StrandedForGood(run, i, j - 1, c);
      RunInv(run, j - 1);
      var a := StepAt(run, j - 1);
      assert c in run[j].callers;
      StrandedStays(run[j - 1], a, c);
      HaltedStays(run[j - 1], a, run[i].callers[c].gate);
    }
  }

  ghost predicate Reachable(s: System) { exists run: seq<System> :: IsRun(run) && run[|run| - 1] == s }

  lemma Reaches(s: System, a: Action)
    requires Reachable(s) && Enabled(s, a)
    ensures Reachable(Apply(s, a))
  {
    var run :| IsRun(run) && run[|run| - 1] == s;
    var run' := run + [Apply(s, a)];
    forall i | 0 <= i < |run'| - 1 ensures StepsAt(run', i) {
      var b := if i < |run| - 1 then StepAt(run, i) else a;
      assert Enabled(run'[i], b) && run'[i + 1] == Apply(run'[i], b);
    }
    assert IsRun(run') && run'[|run'| - 1] == Apply(s, a);
  }

  /** The first caller, whose spawn failed, completes the gate that a second one looks at. */
  const COMPLETING := System(
    State(None, 0, Some(5), None), map[5 := GateRec(None, Fetched(None), 0, 0, true)],
    map[0 := Completing(Current, 5), 1 := Checking(Current, 5)], {}, [], [])

  lemma CompletingReached()
    ensures Reachable(COMPLETING)
  {
    var run := [INITIAL];
    assert IsRun(run) && run[|run| - 1] == INITIAL;
    Reaches(INITIAL, CallCurrent(0, 0, 5));
    var claimed := Apply(INITIAL, CallCurrent(0, 0, 5));
    Reaches(claimed, CallCurrent(1, 0, 6));
    var joined := Apply(claimed, CallCurrent(1, 0, 6));
    Reaches(joined, SpawnFails(0));
    assert Apply(joined, SpawnFails(0)) == COMPLETING;
  }

  /** A caller whose spawn failed is cancelled while it completes the gate: another caller sleeps on it for ever. */
  lemma StrandedRun()
    ensures exists s :: Reachable(s) && Stranded(s, 1) && s.state.inFlight == Some(s.callers[1].gate)
  {
    CompletingReached();
    Reaches(COMPLETING, ReadGate(1));
    var asleep := Apply(COMPLETING, ReadGate(1));
    Reaches(asleep, Cancel(0));
    assert Stranded(Apply(asleep, Cancel(0)), 1);
  }
}
