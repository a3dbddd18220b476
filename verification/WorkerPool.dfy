// The pool of isolated analysis workers: checking a worker out, listening for its answer and
// checking it in again.

module WorkerPool {
  import opened Prelude

  type Thread = nat
  type WorkerId = nat
  type Call = nat

  // busy names a request that was sent and not answered. healthy allows reuse. A broken worker has
  // written something that is not a message.
  datatype Worker = Worker(creator: Thread, alive: bool, healthy: bool, busy: Option<Call>, broken: bool)

  // slots holds the worker of every thread inside dedicated_worker, if it has started one.
  // unavailable records that a worker once failed to start.
  datatype Pool = Pool(pooled: Option<WorkerId>, locked: bool, unavailable: bool,
                       workers: map<WorkerId, Worker>, slots: map<Thread, Option<WorkerId>>, next: WorkerId)

  datatype Mode = Dedicated | Pooled | OneOff

  datatype Checked = Got(worker: WorkerId, mode: Mode) | Unavailable

  function Killed(workers: map<WorkerId, Worker>, w: WorkerId): map<WorkerId, Worker> {
    if w in workers then workers[w := workers[w].(alive := false)] else workers
  }

  function SetHealthy(workers: map<WorkerId, Worker>, w: WorkerId, healthy: bool): map<WorkerId, Worker> {
    if w in workers then workers[w := workers[w].(healthy := healthy)] else workers
  }

  predicate Alive(p: Pool, w: WorkerId) {
    w in p.workers && p.workers[w].alive
  }

  function NewWorker(t: Thread): Worker { Worker(t, true, false, None, false) }

  // What a checkout finds: a worker to reuse, that a new one has to be started, or that none starts
  // in this process.
  datatype Begun = Reused(worker: WorkerId, mode: Mode) | ToStart(mode: Mode) | Refused

  function BeginSlot(p: Pool, t: Thread): (Pool, Begun)
    requires t in p.slots
  {
    if p.slots[t].Some? && Alive(p, p.slots[t].value) then
      (p.(workers := SetHealthy(p.workers, p.slots[t].value, false)), Reused(p.slots[t].value, Dedicated))
    else
      (Cleared(p, t), if p.unavailable then Refused else ToStart(Dedicated))
  }

  // A dead worker is forgotten.
  function Cleared(p: Pool, t: Thread): Pool
    requires t in p.slots
  {
    if p.slots[t].Some? then p.(workers := Killed(p.workers, p.slots[t].value), slots := p.slots[t := None]) else p
  }

  // The pooled worker is reused only by the thread that started it. Under the pool lock, which is
  // released again when no worker may be started.
  function BeginPooled(p: Pool, t: Thread): (Pool, Begun) {
    if p.pooled.Some? && Alive(p, p.pooled.value) && p.workers[p.pooled.value].creator == t then
      (p.(locked := true, workers := SetHealthy(p.workers, p.pooled.value, false)), Reused(p.pooled.value, Pooled))
    else
      var q := if p.pooled.Some? then p.(pooled := None, workers := Killed(p.workers, p.pooled.value)) else p;
      if p.unavailable then (q, Refused) else (q.(locked := true), ToStart(Pooled))
  }

  function Begin(p: Pool, t: Thread): (Pool, Begun) {
    if t in p.slots then BeginSlot(p, t)
    else if p.locked then (p, if p.unavailable then Refused else ToStart(OneOff))
    else BeginPooled(p, t)
  }

  // The end of a worker's start-up: it is handed to the thread, or the pool lock is released.
  function FinishStart(p: Pool, t: Thread, mode: Mode, starts: bool): (Pool, Checked) {
    if !starts then (p.(locked := p.locked && mode != Pooled), Unavailable)
    else
      var x := p.next;
      var q := p.(workers := p.workers[x := NewWorker(t)], next := x + 1);
      match mode
      case Dedicated => (q.(slots := q.slots[t := Some(x)]), Got(x, Dedicated))
      case Pooled => (q.(pooled := Some(x)), Got(x, Pooled))
      case OneOff => (q, Got(x, OneOff))
  }

  // A whole checkout, when nothing happens while a worker starts.
  function Checkout(p: Pool, t: Thread, starts: bool): (Pool, Checked) {
    var (q, b) := Begin(p, t);
    match b
    case Reused(x, mode) => (q, Got(x, mode))
    case Refused => (q, Unavailable)
    case ToStart(mode) => FinishStart(q, t, mode, starts)
  }

  function Checkin(p: Pool, t: Thread, w: WorkerId, mode: Mode): Pool {
    var healthy := w in p.workers && p.workers[w].healthy;
    var q := if healthy then p else p.(workers := Killed(p.workers, w));
    match mode
    case Dedicated =>
      if !healthy && t in q.slots && q.slots[t] == Some(w) then q.(slots := q.slots[t := None]) else q
    case OneOff =>
      if healthy then q.(workers := Killed(q.workers, w)) else q
    case Pooled =>
      q.(locked := false, pooled := if !healthy && q.pooled == Some(w) then None else q.pooled)
  }

  // ---------------------------------------------------------------- listening for an answer

  // What a read yields: a message of the worker, its death, or the hard limit.
  datatype Heard = Accepted | Progress | Failure(crash: bool) | Success(decodes: bool) | Unknown | Gone | TimedOut

  datatype Outcome = Result | Failed | Crashed | TimeLimit

  // Vanished: the worker died before it accepted the request.
  datatype Listening = Continue(accepted: bool) | Stop(outcome: Outcome, healthy: bool) | Vanished

  function OnHeard(accepted: bool, h: Heard): Listening {
    match h
    case Accepted => Continue(true)
    case Progress => Continue(accepted)
    case Failure(crash) => Stop(if crash then Crashed else Failed, !crash)
    case Success(decodes) => Stop(if decodes then Result else Failed, true)
    case Unknown => Stop(Crashed, false)
    case TimedOut => Stop(TimeLimit, false)
    case Gone => if accepted then Stop(Crashed, false) else Vanished
  }

  predicate Ends(h: Heard) { !h.Accepted? && !h.Progress? }

  predicate Answers(h: Heard) { h.Success? || h.Failure? }

  // Nothing can be gone but a dead or a broken worker, and only a broken one sends what it must not.
  predicate CanHear(w: Worker, h: Heard) {
    match h
    case Gone => !w.alive || w.broken
    case Unknown => w.broken
    case _ => true
  }

  // Reads until something ends the wait. The last of the messages does.
  method AwaitAnswer(messages: seq<Heard>, accepted: bool) returns (r: Listening, used: nat)
    requires exists i :: 0 <= i < |messages| && Ends(messages[i])
    ensures !r.Continue?
    ensures used < |messages| && Ends(messages[used]) && forall i :: 0 <= i < used ==> !Ends(messages[i])
    ensures r.Vanished? <==>
      messages[used].Gone? && !accepted && forall i :: 0 <= i < used ==> !messages[i].Accepted?
    ensures (r.Stop? && r.outcome.Result?) <==> messages[used] == Success(true)
    ensures (r.Stop? && r.healthy) <==> Answers(messages[used]) && messages[used] != Failure(true)
  {
    var seen := accepted;
    used := 0;
    while true
      invariant used < |messages| && forall i :: 0 <= i < used ==> !Ends(messages[i])
      invariant seen <==> accepted || exists i :: 0 <= i < used && messages[i].Accepted?
      decreases |messages| - used
    {
      r := OnHeard(seen, messages[used]);
      if !r.Continue? {
        return;
      }
      seen := r.accepted;
      used := used + 1;
    }
  }

  // ---------------------------------------------------------------- the pool in place

  class Workers {
    var pooled: Option<WorkerId>
    var locked: bool
    var unavailable: bool
    var workers: map<WorkerId, Worker>
    var slots: map<Thread, Option<WorkerId>>
    var next: WorkerId

    ghost function State(): Pool
      reads this
    {
      Pool(pooled, locked, unavailable, workers, slots, next)
    }

    constructor ()
      ensures State() == Pool(None, false, false, map[], map[], 0)
    {
      pooled, locked, unavailable, workers, slots, next := None, false, false, map[], map[], 0;
    }

    // A new worker process, or none when it does not answer its start-up message.
    method Start(t: Thread, starts: bool) returns (w: Option<WorkerId>)
      modifies this`workers, this`next
      ensures w.None? <==> unavailable || !starts
      ensures w.None? ==> State() == old(State())
      ensures w.Some? ==>
        w.value == old(next)
        && State() == old(State()).(workers := old(workers)[w.value := NewWorker(t)], next := w.value + 1)
    {
      if unavailable || !starts {
        return None;
      }
      w := Some(next);
      workers := workers[next := NewWorker(t)];
      next := next + 1;
    }

    method TakeOut(t: Thread, starts: bool) returns (r: Checked)
      modifies this
      ensures (State(), r) == Checkout(old(State()), t, starts)
    {
      if t in slots {
        if slots[t].Some? && !(slots[t].value in workers && workers[slots[t].value].alive) {
          workers, slots := Killed(workers, slots[t].value), slots[t := None];
        }
        if slots[t].None? {
          var w := Start(t, starts);
          if w.None? { return Unavailable; }
          slots := slots[t := w];
          return Got(w.value, Dedicated);
        }
        workers := SetHealthy(workers, slots[t].value, false);
        return Got(slots[t].value, Dedicated);
      }
      if locked {
        var w := Start(t, starts);
        return if w.None? then Unavailable else Got(w.value, OneOff);
      }
      locked := true;
      if pooled.Some? && !(pooled.value in workers && workers[pooled.value].alive && workers[pooled.value].creator == t) {
        workers, pooled := Killed(workers, pooled.value), None;
      }
      if pooled.None? {
        var w := Start(t, starts);
        if w.None? {
          locked := false;
          return Unavailable;
        }
        pooled := w;
        return Got(w.value, Pooled);
      }
      workers := SetHealthy(workers, pooled.value, false);
      r := Got(pooled.value, Pooled);
    }

    method BringBack(t: Thread, w: WorkerId, mode: Mode)
      modifies this
      ensures State() == Checkin(old(State()), t, w, mode)
    {
      var healthy := w in workers && workers[w].healthy;
      if !healthy {
        workers := Killed(workers, w);
      }
      match mode
      case Dedicated =>
        if !healthy && t in slots && slots[t] == Some(w) {
          slots := slots[t := None];
        }
      case OneOff =>
        if healthy {
          workers := Killed(workers, w);
        }
      case Pooled =>
        if !healthy && pooled == Some(w) {
          pooled := None;
        }
        locked := false;
    }
  }
}
