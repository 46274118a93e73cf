/**
 The registry of named WebSocket clients. `Registry` is the slot map updated in
 place by the locked regions of create, destroy, release and shutdown.
 */
module WsRegistry {
  type Name = string
  type Wid = nat

  /** A slot holds no identity of the operation that reserved it. */
  datatype Slot = Creating | Ready(worker: Wid) | Closing

  type Slots = map<Name, Slot>

  datatype Answer = Granted | Closed | AlreadyExists | NotFound | Busy | Found(worker: Wid)

  predicate Transient(m: Slots, n: Name) { n in m && !m[n].Ready? }

  /** Locked region that reserves a name. */
  function Reserve(m: Slots, closing: bool, n: Name): (r: (Slots, Answer))
  {
    if closing then (m, Closed) else if n in m then (m, AlreadyExists) else (m[n := Creating], Granted)
  }

  /** Locked region that publishes a created worker, unless the network service is closed. */
  function Commit(m: Slots, networkClosed: bool, n: Name, w: Wid): (r: (Slots, Answer))
  {
    if networkClosed then (m, Closed) else (m[n := Ready(w)], Granted)
  }

  /** Locked region after a refused commit. */
  function RemoveRefused(m: Slots, n: Name): (r: Slots) { if n in m && m[n].Creating? then m - {n} else m }

  /** Locked region after a creation that failed: the slot is removed whatever it holds. */
  function RemoveFailed(m: Slots, n: Name): (r: Slots) { m - {n} }

  /** Locked region of destroy. */
  function BeginDestroy(m: Slots, n: Name): (r: (Slots, Answer))
  {
    if n !in m then (m, NotFound) else if m[n].Ready? then (m[n := Closing], Found(m[n].worker)) else (m, Busy)
  }

  /** Locked region that gives a destroyed name back. */
  function Release(m: Slots, n: Name): (r: Slots) { if n in m && m[n].Closing? then m - {n} else m }

  function Lookup(m: Slots, n: Name): (r: Answer)
  {
    if n !in m then NotFound else if m[n].Ready? then Found(m[n].worker) else Busy
  }

  class Registry {
    var slots: Slots

    constructor ()
      ensures slots == map[]
    {
      slots := map[];
    }

    method ReserveName(closing: bool, n: Name) returns (answer: Answer)
      modifies this
      ensures (slots, answer) == Reserve(old(slots), closing, n)
      ensures answer == if closing then Closed else if n in old(slots) then AlreadyExists else Granted
      ensures slots == if answer.Granted? then old(slots)[n := Creating] else old(slots)
    {
      if closing { return Closed; }
      if n in slots { return AlreadyExists; }
      slots := slots[n := Creating];
      answer := Granted;
    }

    method CommitReady(networkClosed: bool, n: Name, w: Wid) returns (answer: Answer)
      modifies this
      ensures (slots, answer) == Commit(old(slots), networkClosed, n, w)
      ensures answer == if networkClosed then Closed else Granted
      ensures slots == if networkClosed then old(slots) else old(slots)[n := Ready(w)]
    {
      if networkClosed { return Closed; }
      slots := slots[n := Ready(w)];
      answer := Granted;
    }

    method DropRefused(n: Name)
      modifies this
      ensures slots == RemoveRefused(old(slots), n)
      ensures n in slots <==> n in old(slots) && old(slots)[n] != Creating
      ensures forall m :: m != n ==> (m in slots <==> m in old(slots))
      ensures forall m :: m in slots ==> slots[m] == old(slots)[m]
    {
      if n in slots && slots[n].Creating? { slots := slots - {n}; }
    }

    method DropFailed(n: Name)
      modifies this
      ensures slots == RemoveFailed(old(slots), n)
      ensures n !in slots && forall m :: m != n ==> (m in slots <==> m in old(slots))
      ensures forall m :: m in slots ==> slots[m] == old(slots)[m]
    {
      slots := slots - {n};
    }

    /** Takes the slot out, then puts back what the outcome asks for. */
    method StartDestroy(n: Name) returns (answer: Answer)
      modifies this
      ensures (slots, answer) == BeginDestroy(old(slots), n)
      ensures answer == NotFound <==> n !in old(slots)
      ensures answer == Busy <==> n in old(slots) && old(slots)[n] in {Creating, Closing}
      ensures answer.Found? <==> n in old(slots) && old(slots)[n].Ready?
      ensures answer.Found? ==> old(slots)[n] == Ready(answer.worker) && slots == old(slots)[n := Closing]
      ensures !answer.Found? ==> slots == old(slots)
    {
      if n !in slots { return NotFound; }
      var slot := slots[n];
      slots := slots - {n};
      if slot.Ready? {
        slots := slots[n := Closing];
        answer := Found(slot.worker);
      } else {
        slots := slots[n := slot];
        answer := Busy;
      }
      assert slots == BeginDestroy(old(slots), n).0;
    }

    method ReleaseClosing(n: Name)
      modifies this
      ensures slots == Release(old(slots), n)
      ensures n in slots <==> n in old(slots) && old(slots)[n] != Closing
      ensures forall m :: m != n ==> (m in slots <==> m in old(slots))
      ensures forall m :: m in slots ==> slots[m] == old(slots)[m]
    {
      if n in slots && slots[n].Closing? { slots := slots - {n}; }
    }

    method Get(closing: bool, n: Name) returns (answer: Answer)
      ensures answer == if closing then Closed else Lookup(slots, n)
      ensures answer == Closed <==> closing
      ensures !closing ==> (answer == NotFound <==> n !in slots)
      ensures !closing ==> (answer == Busy <==> n in slots && slots[n] in {Creating, Closing})
      ensures answer.Found? ==> n in slots && slots[n] == Ready(answer.worker)
    {
      if closing { return Closed; }
      if n !in slots { return NotFound; }
      match slots[n]
      case Ready(w) => answer := Found(w);
      case _ => answer := Busy;
    }

    /** Shutdown empties the registry and keeps the ready workers to join. */
    method Drain() returns (ready: set<Wid>)
      modifies this
      ensures slots == map[] && ready == set n | n in old(slots) && old(slots)[n].Ready? :: old(slots)[n].worker
    {
      ready := set n | n in slots && slots[n].Ready? :: slots[n].worker;
      slots := map[];
    }
  }
}
