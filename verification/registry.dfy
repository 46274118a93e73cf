/**
 The thread registry of the retirement layer: its lock-guarded state, one pure
 function per lock-held region, and the class that updates the state in place.
 Region names follow the control flow of `spawn_inner`, `StartingThread::drop`
 and `seal_and_join`.
 */
module Registry {
  import opened Base

  /** An OS thread started by the registry. */
  type Tid = nat

  /** `result` holds `Some(true)` for `Ok(())` and `Some(false)` for an error. */
  datatype RegistryState = RegistryState(
    threads: seq<Tid>,
    sealed: bool,
    joining: bool,
    reaping: nat,
    starting: nat,
    failed: bool,
    result: Option<bool>)

  const EMPTY_REGISTRY := RegistryState([], false, false, 0, 0, false, None)

  datatype Admission = Refused | Reserved | MustReap(retired: seq<Tid>)

  datatype SealDecision = Finished(ok: bool) | JoinAll(threads: seq<Tid>, failed: bool) | Wait

  function SwapRemove<T>(s: seq<T>, i: nat): (r: seq<T>)
    requires i < |s|
    ensures multiset(r) == multiset(s) - multiset{s[i]}
    ensures |r| == |s| - 1
  {
    var last := |s| - 1;
    assert s == s[..last] + [s[last]];
    var r := if i == last then s[..last] else s[..last][i := s[last]];
    assert i < last ==> multiset(s[..last][i := s[last]]) == multiset(s[..last]) - multiset{s[i]} + multiset{s[last]};
    r
  }

  /**
   Splits the handle vector by what `is_finished` answered, in the order the
   swap-removing scan visits it.
   */
  function Sweep(threads: seq<Tid>, index: nat, retired: seq<Tid>, finished: set<Tid>): (r: (seq<Tid>, seq<Tid>))
    requires index <= |threads|
    decreases |threads| - index
  {
    if index == |threads| then (threads, retired)
    else if threads[index] in finished then
      Sweep(SwapRemove(threads, index), index, retired + [threads[index]], finished)
    else Sweep(threads, index + 1, retired, finished)
  }

  /** The scan loses no handle, duplicates none, and keeps exactly the unfinished ones. */
  lemma {:induction false} SweepPartitions(threads: seq<Tid>, index: nat, retired: seq<Tid>, finished: set<Tid>)
    requires index <= |threads|
    requires forall i :: 0 <= i < index ==> threads[i] !in finished
    requires forall i :: 0 <= i < |retired| ==> retired[i] in finished
    ensures var (kept, out) := Sweep(threads, index, retired, finished);
            && multiset(kept) + multiset(out) == multiset(threads) + multiset(retired)
            && (forall t :: t in kept ==> t !in finished)
            && (forall t :: t in out ==> t in finished)
    decreases |threads| - index
  {
    if index == |threads| {
    } else if threads[index] in finished {
      SweepPartitions(SwapRemove(threads, index), index, retired + [threads[index]], finished);
    } else {
      SweepPartitions(threads, index + 1, retired, finished);
    }
  }

  /** `v in s` for sequences, read off a multiset equation. */
  lemma SweepMembers(threads: seq<Tid>, finished: set<Tid>)
    ensures var (kept, out) := Sweep(threads, 0, [], finished);
            && (forall t :: t in threads <==> t in kept || t in out)
            && (forall t :: t in out ==> t in finished)
            && (forall t :: t in kept ==> t !in finished)
  {
    SweepPartitions(threads, 0, [], finished);
    var (kept, out) := Sweep(threads, 0, [], finished);
    assert multiset(threads) == multiset(kept) + multiset(out);
    forall t ensures t in threads <==> t in kept || t in out {
      assert t in threads <==> t in multiset(threads);
      assert t in kept <==> t in multiset(kept);
      assert t in out <==> t in multiset(out);
    }
  }

  /** First locked region of `spawn_inner`. */
  function Admit(s: RegistryState, reap: bool, finished: set<Tid>): (r: (RegistryState, Admission))
  {
    var (kept, retired) := Sweep(s.threads, 0, [], finished);
    if s.sealed then (s, Refused)
    else if reap && retired != [] then (s.(threads := kept, reaping := s.reaping + 1), MustReap(retired))
    else (s.(threads := if reap then kept else s.threads, starting := s.starting + 1), Reserved)
  }

  /**
   What asking for a start does: a sealed registry refuses; finished handles, if they are to be
   reaped, are taken out first; otherwise one start is reserved and no handle is lost.
   */
  ghost predicate Admitted(s: RegistryState, t: RegistryState, reap: bool, finished: set<Tid>, admission: Admission)
  {
    match admission
    case Refused => s.sealed && t == s
    case MustReap(retired) =>
      && !s.sealed && reap && t == s.(threads := t.threads, reaping := s.reaping + 1)
      && retired != [] && multiset(t.threads) + multiset(retired) == multiset(s.threads)
      && (forall x :: x in t.threads ==> x !in finished) && (forall x :: x in retired ==> x in finished)
    case Reserved =>
      && !s.sealed && (reap ==> forall x :: x in s.threads ==> x !in finished)
      && t == s.(threads := t.threads, starting := s.starting + 1) && multiset(t.threads) == multiset(s.threads)
  }

  lemma AdmitMeans(s: RegistryState, reap: bool, finished: set<Tid>)
    ensures var (t, admission) := Admit(s, reap, finished); Admitted(s, t, reap, finished, admission)
  {
    SweepPartitions(s.threads, 0, [], finished);
    SweepMembers(s.threads, finished);
    var (kept, retired) := Sweep(s.threads, 0, [], finished);
    assert multiset(kept) + multiset(retired) == multiset(s.threads);
    if retired == [] { assert multiset(kept) == multiset(s.threads); }
  }

  /** Region after the reaped handles were joined; the caller then notifies. */
  function FinishReap(s: RegistryState, failed: bool): (r: (RegistryState, Admission))
    requires s.reaping > 0
  {
    var t := s.(failed := s.failed || failed, reaping := s.reaping - 1);
    if t.sealed then (t, Refused) else (t.(starting := t.starting + 1), Reserved)
  }

  /** Region that records a started handle. */
  function Push(s: RegistryState, t: Tid): (r: RegistryState)
  {
    s.(threads := s.threads + [t])
  }

  /** Region of `StartingThread::drop`; its notification is a later step. */
  function ReleaseStart(s: RegistryState): (r: RegistryState)
    requires s.starting > 0
  {
    s.(starting := s.starting - 1)
  }

  /** The condition under which a sealer stops waiting. */
  predicate SealReady(s: RegistryState)
  {
    s.result.Some? || (!s.joining && s.reaping == 0 && s.starting == 0)
  }

  /** One pass of the `seal_and_join` loop under the lock. */
  function Examine(s: RegistryState): (r: (RegistryState, SealDecision))
  {
    if s.result.Some? then (s, Finished(s.result.value))
    else if SealReady(s) then (s.(joining := true, threads := []), JoinAll(s.threads, s.failed))
    else (s, Wait)
  }

  /** Region that publishes the final result. */
  function Publish(s: RegistryState, failed: bool): (r: RegistryState)
  {
    s.(result := Some(!failed))
  }

  class ThreadRegistry {
    var threads: seq<Tid>
    var sealed: bool
    var joining: bool
    var reaping: nat
    var starting: nat
    var failed: bool
    var result: Option<bool>

    function State(): (s: RegistryState)
      reads this
    {
      RegistryState(threads, sealed, joining, reaping, starting, failed, result)
    }

    constructor ()
      ensures State() == EMPTY_REGISTRY
    {
      threads, sealed, joining := [], false, false;
      reaping, starting, failed, result := 0, 0, false, None;
    }

    /** The scan that moves finished handles out of the vector. */
    method TakeFinished(finished: set<Tid>) returns (retired: seq<Tid>)
      modifies this`threads
      ensures (threads, retired) == Sweep(old(threads), 0, [], finished)
    {
      retired := [];
      var index := 0;
      while index < |threads|
        invariant index <= |threads|
        invariant Sweep(threads, index, retired, finished) == Sweep(old(threads), 0, [], finished)
        decreases |threads| - index
      {
        if threads[index] in finished {
          var handle := threads[index];
          threads := SwapRemove(threads, index);
          retired := retired + [handle];
        } else {
          index := index + 1;
        }
      }
    }

    /** `finished` is the set of threads for which `is_finished` answers true. */
    method BeginSpawn(reap: bool, finished: set<Tid>) returns (admission: Admission)
      modifies this
      ensures (State(), admission) == Admit(old(State()), reap, finished)
      ensures Admitted(old(State()), State(), reap, finished, admission)
    {
      AdmitMeans(State(), reap, finished);
      if sealed {
        return Refused;
      }
      if reap {
        var retired := TakeFinished(finished);
        if retired != [] {
          reaping := reaping + 1;
          return MustReap(retired);
        }
      }
      starting := starting + 1;
      admission := Reserved;
    }

    method EndReap(anyFailed: bool) returns (admission: Admission)
      requires reaping > 0
      modifies this
      ensures (State(), admission) == FinishReap(old(State()), anyFailed)
      ensures admission == if old(sealed) then Refused else Reserved
      ensures failed == (old(failed) || anyFailed) && reaping == old(reaping) - 1
      ensures starting == if old(sealed) then old(starting) else old(starting) + 1
      ensures State() == old(State()).(failed := failed, reaping := reaping, starting := starting)
    {
      failed := failed || anyFailed;
      reaping := reaping - 1;
      if sealed {
        return Refused;
      }
      starting := starting + 1;
      admission := Reserved;
    }

    method RecordHandle(t: Tid)
      modifies this
      ensures State() == Push(old(State()), t)
      ensures threads == old(threads) + [t] && State() == old(State()).(threads := threads)
    {
      threads := threads + [t];
    }

    method DropStarting()
      requires starting > 0
      modifies this
      ensures State() == ReleaseStart(old(State()))
      ensures starting == old(starting) - 1 && State() == old(State()).(starting := starting)
    {
      starting := starting - 1;
    }

    method Seal()
      modifies this
      ensures State() == old(State()).(sealed := true)
    {
      sealed := true;
    }

    method TrySeal() returns (decision: SealDecision)
      modifies this
      ensures (State(), decision) == Examine(old(State()))
      ensures old(result).Some? ==> decision == Finished(old(result).value) && State() == old(State())
      ensures decision.JoinAll? <==>
              old(result).None? && !old(joining) && old(reaping) == 0 && old(starting) == 0
      ensures decision.JoinAll? ==>
                && decision == JoinAll(old(threads), old(failed))
                && State() == old(State()).(joining := true, threads := [])
      ensures old(result).None? && !decision.JoinAll? ==> decision == Wait && State() == old(State())
    {
      if result.Some? {
        return Finished(result.value);
      }
      if !joining && reaping == 0 && starting == 0 {
        joining := true;
        var taken := threads;
        threads := [];
        return JoinAll(taken, failed);
      }
      decision := Wait;
    }

    method PublishResult(anyFailed: bool)
      modifies this
      ensures State() == Publish(old(State()), anyFailed)
      ensures result == Some(!anyFailed) && State() == old(State()).(result := result)
    {
      result := Some(!anyFailed);
    }
  }
}
