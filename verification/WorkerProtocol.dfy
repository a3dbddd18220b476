// Threads that analyse files through the worker pool, with every failure of a worker and
// cancellation from other threads.

module WorkerProtocol {
  import opened Prelude
  import opened WorkerPool

  // One call of run_isolated: its two attempts, and checking the worker in after each.
  datatype Stage =
    | Idle
    | Trying(call: Call, attempt: nat)
    | Starting(call: Call, attempt: nat, mode: Mode)
    | Holding(call: Call, attempt: nat, worker: WorkerId, mode: Mode)
    | Waiting(call: Call, attempt: nat, worker: WorkerId, mode: Mode, accepted: bool)
    | Closing(call: Call, worker: WorkerId, mode: Mode, again: bool)

  // file and cancelled belong to the thread's dedicated worker; each call is one file.
  datatype ThreadState = ThreadState(stage: Stage, file: Option<Call>, cancelled: Option<Call>)

  // A cancel that has marked a thread's file but not yet struck the worker it saw.
  datatype Strike = Strike(thread: Thread, call: Call, worker: Option<WorkerId>)

  datatype End = Finished(outcome: Outcome) | Cancelled | InProcess

  // owner is the thread that holds the pool lock; taken and released count how often it was taken
  // and released, by checkouts and by starts that failed.
  datatype World = World(
    pool: Pool, threads: map<Thread, ThreadState>, strikes: map<nat, Strike>,
    sent: map<Call, nat>, accepted: set<Call>, marked: set<Call>, ends: map<Call, End>,
    owner: Option<Thread>, taken: nat, released: nat)

  datatype Step =
    | Spawn(t: Thread)
    | Enter(t: Thread)
    | Leave(t: Thread)
    | Start(t: Thread, call: Call)
    | TryCheckout(t: Thread)
    | StartEnds(t: Thread, starts: bool)
    | Send(t: Thread)
    | Hear(t: Thread, heard: Heard)
    | BringIn(t: Thread)
    | Mark(k: nat, t: Thread, call: Call)
    | Hit(k: nat)
    | Die(worker: WorkerId)
    | Break(worker: WorkerId)

  function Init(): World {
    World(Pool(None, false, false, map[], map[], 0), map[], map[], map[], {}, {}, map[], None, 0, 0)
  }

  predicate IsCancelled(th: ThreadState) {
    th.cancelled.Some? && th.cancelled == th.file
  }

  const AtRest := ThreadState(Idle, None, None)

  // The call is over: the thread ends the file.
  function Over(w: World, t: Thread, call: Call, end: End): World {
    w.(threads := w.threads[t := AtRest], ends := w.ends[call := end])
  }

  predicate IsPooled(b: Begun) {
    (b.Reused? || b.ToStart?) && b.mode == Pooled
  }

  // The first half of a checkout: nothing is started for a cancelled file.
  function CheckedOut(w: World, t: Thread): World
    requires t in w.threads && w.threads[t].stage.Trying?
  {
    var th := w.threads[t];
    var call := th.stage.call;
    if IsCancelled(th) then Over(w, t, call, Cancelled)
    else
      var (p, b) := Begin(w.pool, t);
      if b.Refused? then Over(w.(pool := p.(unavailable := true)), t, call, InProcess)
      else
        var stage := if b.Reused? then Holding(call, th.stage.attempt, b.worker, b.mode)
                     else Starting(call, th.stage.attempt, b.mode);
        var v := w.(pool := p, threads := w.threads[t := th.(stage := stage)]);
        if IsPooled(b) then v.(owner := Some(t), taken := w.taken + 1) else v
  }

  // The second half: the worker starts, or the file is analysed in this process, unless it was
  // cancelled meanwhile.
  function StartEnded(w: World, t: Thread, starts: bool): World
    requires t in w.threads && w.threads[t].stage.Starting?
  {
    var th := w.threads[t];
    var s := th.stage;
    var (p, r) := FinishStart(w.pool, t, s.mode, starts);
    match r
    case Got(x, mode) => w.(pool := p, threads := w.threads[t := th.(stage := Holding(s.call, s.attempt, x, mode))])
    case Unavailable =>
      var v := if s.mode == Pooled then w.(owner := None, released := w.released + 1) else w;
      Over(v.(pool := p.(unavailable := true)), t, s.call, if IsCancelled(th) then Cancelled else InProcess)
  }

  function Busy(p: Pool, x: WorkerId, busy: Option<Call>): Pool {
    if x in p.workers then p.(workers := p.workers[x := p.workers[x].(busy := busy)]) else p
  }

  function Sent(w: World, t: Thread): World
    requires t in w.threads && w.threads[t].stage.Holding? && w.threads[t].stage.call in w.sent
  {
    var th := w.threads[t];
    var s := th.stage;
    if IsCancelled(th) then
      w.(threads := w.threads[t := th.(stage := Closing(s.call, s.worker, s.mode, false))],
         ends := w.ends[s.call := Cancelled])
    else
      w.(pool := Busy(w.pool, s.worker, Some(s.call)), sent := w.sent[s.call := w.sent[s.call] + 1],
         threads := w.threads[t := th.(stage := Waiting(s.call, s.attempt, s.worker, s.mode, false))])
  }

  // The pool after a worker was heard: an answer clears its request, and only a good end leaves
  // it fit for reuse.
  function HeardPool(p: Pool, x: WorkerId, h: Heard, healthy: bool): Pool {
    var q := if Answers(h) then Busy(p, x, None) else p;
    q.(workers := SetHealthy(q.workers, x, healthy))
  }

  function Listened(w: World, t: Thread, h: Heard): World
    requires t in w.threads && w.threads[t].stage.Waiting?
  {
    var th := w.threads[t];
    var s := th.stage;
    var gaveUp := IsCancelled(th);
    match OnHeard(s.accepted, h)
    case Continue(accepted) =>
      w.(threads := w.threads[t := th.(stage := s.(accepted := accepted))],
         accepted := if accepted then w.accepted + {s.call} else w.accepted)
    case Vanished =>
      var again := s.attempt == 1;
      w.(threads := w.threads[t := th.(stage := Closing(s.call, s.worker, s.mode, again))],
         ends := if again then w.ends else w.ends[s.call := if gaveUp then Cancelled else Finished(Crashed)])
    case Stop(outcome, healthy) =>
      var cancelled := gaveUp && outcome != Result;
      w.(pool := HeardPool(w.pool, s.worker, h, healthy && !cancelled),
         threads := w.threads[t := th.(stage := Closing(s.call, s.worker, s.mode, false))],
         ends := w.ends[s.call := if cancelled then Cancelled else Finished(outcome)])
  }

  function Returned(w: World, t: Thread): World
    requires t in w.threads && w.threads[t].stage.Closing?
  {
    var th := w.threads[t];
    var s := th.stage;
    var v := w.(
      pool := Checkin(w.pool, t, s.worker, s.mode),
      threads := w.threads[t := if s.again then th.(stage := Trying(s.call, 2)) else AtRest]);
    if s.mode == Pooled then v.(owner := None, released := w.released + 1) else v
  }

  predicate Heeds(p: Pool, x: WorkerId, h: Heard) {
    x in p.workers && CanHear(p.workers[x], h)
  }

  function Broken(workers: map<WorkerId, Worker>, x: WorkerId): map<WorkerId, Worker> {
    if x in workers then workers[x := workers[x].(broken := true)] else workers
  }

  function Left(p: Pool, t: Thread): Pool {
    var q := if t in p.slots && p.slots[t].Some? then p.(workers := Killed(p.workers, p.slots[t].value)) else p;
    q.(slots := q.slots - {t})
  }

  function Next(w: World, step: Step): World {
    match step
    case Spawn(t) => if t in w.threads then w else w.(threads := w.threads[t := AtRest])
    case Enter(t) =>
      if t in w.threads && w.threads[t].stage.Idle? && t !in w.pool.slots
      then w.(pool := w.pool.(slots := w.pool.slots[t := None])) else w
    case Leave(t) =>
      if t in w.threads && w.threads[t].stage.Idle? then w.(pool := Left(w.pool, t)) else w
    case Start(t, call) =>
      if t in w.threads && w.threads[t].stage.Idle? && call !in w.sent
      then
        var file := if t in w.pool.slots then Some(call) else None;
        w.(threads := w.threads[t := ThreadState(Trying(call, 1), file, None)], sent := w.sent[call := 0])
      else w
    case TryCheckout(t) => if t in w.threads && w.threads[t].stage.Trying? then CheckedOut(w, t) else w
    case StartEnds(t, starts) =>
      if t in w.threads && w.threads[t].stage.Starting? then StartEnded(w, t, starts) else w
    case Send(t) =>
      if t in w.threads && w.threads[t].stage.Holding? && w.threads[t].stage.call in w.sent then Sent(w, t) else w
    case Hear(t, h) =>
      if t in w.threads && w.threads[t].stage.Waiting? && Heeds(w.pool, w.threads[t].stage.worker, h)
      then Listened(w, t, h) else w
    case BringIn(t) => if t in w.threads && w.threads[t].stage.Closing? then Returned(w, t) else w
    case Mark(k, t, call) =>
      if t in w.threads && t in w.pool.slots && k !in w.strikes && w.threads[t].file == Some(call)
      then w.(threads := w.threads[t := w.threads[t].(cancelled := Some(call))],
              strikes := w.strikes[k := Strike(t, call, w.pool.slots[t])], marked := w.marked + {call})
      else w
    case Hit(k) =>
      if k !in w.strikes then w
      else
        var v := w.(strikes := w.strikes - {k});
        var struck := w.strikes[k].worker;
        if struck.Some? then v.(pool := w.pool.(workers := Killed(w.pool.workers, struck.value))) else v
    case Die(x) => w.(pool := w.pool.(workers := Killed(w.pool.workers, x)))
    case Break(x) => w.(pool := w.pool.(workers := Broken(w.pool.workers, x)))
  }

  function Exec(steps: seq<Step>): World {
    if steps == [] then Init() else Next(Exec(steps[..|steps| - 1]), steps[|steps| - 1])
  }

  // ---------------------------------------------------------------- invariants

  predicate Uses(s: Stage) { s.Holding? || s.Waiting? || s.Closing? }

  predicate InSlot(slots: map<Thread, Option<WorkerId>>, t: Thread, x: WorkerId) { t in slots && slots[t] == Some(x) }

  // The pooled worker and each slot's worker are known, and all different.
  ghost predicate PoolOk(p: Pool) {
    && (forall x :: x in p.workers ==> x < p.next)
    && (p.pooled.Some? ==> p.pooled.value in p.workers)
    && (forall t, x :: InSlot(p.slots, t, x) ==> x in p.workers && p.pooled != Some(x))
    && (forall t, u, x :: InSlot(p.slots, t, x) && InSlot(p.slots, u, x) ==> t == u)
  }

  // A worker in use is the thread's own, the pooled one under the lock, or one made for the call.
  ghost predicate UseOk(p: Pool, t: Thread, s: Stage) {
    Uses(s) ==>
      && s.worker in p.workers
      && (t in p.slots <==> s.mode == Dedicated)
      && (s.mode == Dedicated ==> InSlot(p.slots, t, s.worker))
      && (s.mode == Pooled ==> p.locked && p.pooled == Some(s.worker))
      && (s.mode == OneOff ==> p.pooled != Some(s.worker) && forall u :: !InSlot(p.slots, u, s.worker))
  }

  // While a worker starts for a thread, the place it will take is empty.
  ghost predicate StartOk(p: Pool, t: Thread, s: Stage) {
    s.Starting? ==>
      && (t in p.slots <==> s.mode == Dedicated)
      && (s.mode == Dedicated ==> p.slots[t].None?)
      && (s.mode == Pooled ==> p.locked && p.pooled.None?)
  }

  ghost predicate Shares(threads: map<Thread, ThreadState>, t: Thread, u: Thread)
    requires t in threads && u in threads
  {
    Uses(threads[t].stage) && Uses(threads[u].stage) && threads[t].stage.worker == threads[u].stage.worker
  }

  ghost predicate UseInv(p: Pool, threads: map<Thread, ThreadState>) {
    && (forall t :: t in threads ==> UseOk(p, t, threads[t].stage) && StartOk(p, t, threads[t].stage))
    && (forall t, u :: t in threads && u in threads && t != u ==> !Shares(threads, t, u))
  }

  predicate HoldsLock(s: Stage) { (Uses(s) || s.Starting?) && s.mode == Pooled }

  ghost predicate LockInv(p: Pool, threads: map<Thread, ThreadState>, owner: Option<Thread>, taken: nat, released: nat) {
    && (p.locked <==> owner.Some?)
    && (forall t :: t in threads ==> (HoldsLock(threads[t].stage) <==> owner == Some(t)))
    && (owner.Some? ==> owner.value in threads)
    && taken == released + if p.locked then 1 else 0
  }

  // Nothing is owed by a worker that is about to be sent a request, or that may be reused.
  ghost predicate CleanOk(p: Pool, s: Stage) {
    && (s.Holding? && s.worker in p.workers ==> p.workers[s.worker].busy.None? && !p.workers[s.worker].healthy)
    && (s.Waiting? && s.worker in p.workers ==> p.workers[s.worker].busy == Some(s.call) && !p.workers[s.worker].healthy)
    && (s.Closing? && s.worker in p.workers ==> p.workers[s.worker].healthy ==> p.workers[s.worker].busy.None?)
  }

  ghost predicate CleanInv(p: Pool, threads: map<Thread, ThreadState>) {
    && (forall t :: t in threads ==> CleanOk(p, threads[t].stage))
    && (!p.locked && p.pooled.Some? && p.pooled.value in p.workers ==> p.workers[p.pooled.value].busy.None?)
    && (forall t, x :: InSlot(p.slots, t, x) && x in p.workers && t in threads && !Uses(threads[t].stage) ==>
          p.workers[x].busy.None?)
    && (forall t :: t in p.slots ==> t in threads)
  }

  ghost predicate CountOk(sent: map<Call, nat>, accepted: set<Call>, s: Stage) {
    match s
    case Idle => true
    case Trying(c, n) => c in sent && 1 <= n <= 2 && sent[c] == n - 1 && c !in accepted
    case Starting(c, n, _) => c in sent && 1 <= n <= 2 && sent[c] == n - 1 && c !in accepted
    case Holding(c, n, _, _) => c in sent && 1 <= n <= 2 && sent[c] == n - 1 && c !in accepted
    case Waiting(c, n, _, _, a) => c in sent && 1 <= n <= 2 && sent[c] == n && (a <==> c in accepted)
    case Closing(c, _, _, again) => c in sent && (again ==> sent[c] == 1 && c !in accepted)
  }

  ghost predicate CountInv(sent: map<Call, nat>, accepted: set<Call>, threads: map<Thread, ThreadState>) {
    && (forall c :: c in sent ==> sent[c] <= 2)
    && (forall c :: c in accepted ==> c in sent)
    && (forall t :: t in threads ==> CountOk(sent, accepted, threads[t].stage))
    && (forall t, u :: t in threads && u in threads && t != u && !threads[t].stage.Idle? && !threads[u].stage.Idle? ==>
          threads[t].stage.call != threads[u].stage.call)
  }

  ghost predicate FileOk(slots: map<Thread, Option<WorkerId>>, marked: set<Call>, t: Thread, th: ThreadState) {
    && (th.stage.Idle? ==> th == AtRest)
    && (!th.stage.Idle? ==> th.file == if t in slots then Some(th.stage.call) else None)
    && (th.cancelled.Some? ==> th.cancelled.value in marked)
  }

  ghost predicate FileInv(slots: map<Thread, Option<WorkerId>>, threads: map<Thread, ThreadState>, marked: set<Call>,
                          ends: map<Call, End>) {
    && (forall t :: t in threads ==> FileOk(slots, marked, t, threads[t]))
    && (forall c :: c in ends && ends[c].Cancelled? ==> c in marked)
  }

  ghost predicate Inv(w: World) {
    && PoolOk(w.pool)
    && UseInv(w.pool, w.threads)
    && LockInv(w.pool, w.threads, w.owner, w.taken, w.released)
    && CleanInv(w.pool, w.threads)
    && CountInv(w.sent, w.accepted, w.threads)
    && FileInv(w.pool.slots, w.threads, w.marked, w.ends)
  }

  // ---------------------------------------------------------------- checking out and in

  // A worker nobody uses that a checkout of this thread may drop: its own, or the idle pooled one.
  predicate Droppable(p: Pool, t: Thread, y: WorkerId) {
    InSlot(p.slots, t, y) || (!p.locked && p.pooled == Some(y))
  }

  // Nothing about other workers changes, except that one nobody uses may be dropped.
  ghost predicate SameOthers(p: Pool, q: Pool, t: Thread, x: Option<WorkerId>) {
    forall y :: y in p.workers && x != Some(y) ==>
      y in q.workers && q.workers[y].busy == p.workers[y].busy && q.workers[y].healthy == p.workers[y].healthy
      && q.workers[y].broken == p.workers[y].broken
      && (q.workers[y].alive == p.workers[y].alive || Droppable(p, t, y))
  }

  ghost predicate SlotsFrom(p: Pool, q: Pool, t: Thread) {
    && q.slots.Keys == p.slots.Keys
    && forall u :: u in p.slots && u != t ==> q.slots[u] == p.slots[u]
  }

  // What one thread's checkout or start may do to the pool, x being the worker it obtains.
  ghost predicate Moves(p: Pool, q: Pool, t: Thread, x: Option<WorkerId>) {
    && PoolOk(q) && SlotsFrom(p, q, t) && SameOthers(p, q, t, x)
    && (q.pooled == p.pooled || q.pooled.None? || (q.pooled == x && q.pooled.value !in p.workers))
    && (forall u, y: WorkerId ::
          InSlot(q.slots, u, y) ==> InSlot(p.slots, u, y) || (u == t && x == Some(y) && y !in p.workers))
    && (x.Some? && x.value in p.workers ==> Droppable(p, t, x.value))
  }

  // The worker obtained owes nothing, and is not taken for healthy until it answers.
  ghost predicate Obtained(p: Pool, q: Pool, t: Thread, x: WorkerId, mode: Mode) {
    && x in q.workers && !q.workers[x].healthy && q.workers[x].alive
    && (t in q.slots <==> mode == Dedicated)
    && (x !in p.workers ==> q.workers[x].busy.None? && !q.workers[x].broken)
    && (x in p.workers ==> q.workers[x].busy == p.workers[x].busy && q.workers[x].broken == p.workers[x].broken)
    && (mode == Dedicated ==> InSlot(q.slots, t, x))
    && (mode == Pooled ==> q.locked && q.pooled == Some(x))
    && (mode == OneOff ==> q.pooled != Some(x) && forall u :: !InSlot(q.slots, u, x))
  }

  // The first half of a checkout.
  ghost predicate BeginOk(p: Pool, t: Thread, q: Pool, b: Begun) {
    && q.unavailable == p.unavailable
    && q.locked == (p.locked || IsPooled(b)) && (IsPooled(b) ==> !p.locked)
    && (p.locked ==> q.pooled == p.pooled)
    && Moves(p, q, t, if b.Reused? then Some(b.worker) else None)
    && (b.Reused? ==> b.worker in p.workers && Obtained(p, q, t, b.worker, b.mode))
    && (b.ToStart? ==> StartOk(q, t, Starting(0, 0, b.mode)))
  }

  lemma {:induction false} BeginFacts(p: Pool, t: Thread)
    requires PoolOk(p)
    ensures var (q, b) := Begin(p, t); BeginOk(p, t, q, b)
  {
    if t in p.slots {
      BeginSlotFacts(p, t);
    } else if !p.locked {
      BeginPooledFacts(p, t);
    }
  }

  lemma {:induction false} BeginSlotFacts(p: Pool, t: Thread)
    requires PoolOk(p) && t in p.slots
    ensures var (q, b) := BeginSlot(p, t); BeginOk(p, t, q, b)
  {
    if p.slots[t].Some? { assert InSlot(p.slots, t, p.slots[t].value); }
    var q := BeginSlot(p, t).0;
    forall u, y | InSlot(q.slots, u, y) ensures InSlot(p.slots, u, y) {
    }
  }

  lemma {:induction false} BeginPooledFacts(p: Pool, t: Thread)
    requires PoolOk(p) && !p.locked && t !in p.slots
    ensures var (q, b) := BeginPooled(p, t); BeginOk(p, t, q, b)
  {
    var q := BeginPooled(p, t).0;
    assert q.slots == p.slots;
  }

  // The second half.
  ghost predicate FinishOk(p: Pool, t: Thread, mode: Mode, q: Pool, r: Checked) {
    && q.unavailable == p.unavailable
    && q.locked == (p.locked && (r.Got? || mode != Pooled))
    && (mode != Pooled ==> q.pooled == p.pooled)
    && Moves(p, q, t, if r.Got? then Some(r.worker) else None)
    && (r.Got? ==> r.worker !in p.workers && r.mode == mode && Obtained(p, q, t, r.worker, mode))
  }

  lemma {:induction false} FinishFacts(p: Pool, t: Thread, mode: Mode, starts: bool)
    requires PoolOk(p) && StartOk(p, t, Starting(0, 0, mode))
    ensures var (q, r) := FinishStart(p, t, mode, starts); FinishOk(p, t, mode, q, r)
  {
    var (q, r) := FinishStart(p, t, mode, starts);
    var x := p.next;
    assert x !in p.workers;
    if !starts {
      assert forall u, y :: InSlot(q.slots, u, y) <==> InSlot(p.slots, u, y);
    } else {
      forall u, y ensures InSlot(q.slots, u, y) <==> InSlot(p.slots, u, y) || (mode == Dedicated && u == t && y == x) {
      }
      assert forall u, y :: InSlot(p.slots, u, y) ==> y in p.workers && y != x;
    }
  }

  // Checking a worker in changes no worker but whether that one is alive.
  ghost predicate SameAfterCheckin(p: Pool, q: Pool, x: WorkerId) {
    q.workers.Keys == p.workers.Keys
    && forall y :: y in p.workers ==>
      q.workers[y].busy == p.workers[y].busy && q.workers[y].healthy == p.workers[y].healthy
      && q.workers[y].broken == p.workers[y].broken && (y != x ==> q.workers[y].alive == p.workers[y].alive)
  }

  lemma {:induction false} CheckinFacts(p: Pool, t: Thread, x: WorkerId, mode: Mode)
    requires PoolOk(p) && x in p.workers
    ensures var q := Checkin(p, t, x, mode);
      && PoolOk(q)
      && SlotsFrom(p, q, t) && SameAfterCheckin(p, q, x)
      && q.locked == (p.locked && mode != Pooled)
      && (q.pooled.Some? ==> q.pooled == p.pooled)
      && (mode != Pooled ==> q.pooled == p.pooled)
      && (mode == Pooled && q.pooled == Some(x) ==> p.workers[x].healthy)
      && (forall u, y :: InSlot(q.slots, u, y) ==> InSlot(p.slots, u, y))
      && (mode == Dedicated && InSlot(q.slots, t, x) ==> p.workers[x].healthy)
      && (mode != Dedicated ==> q.slots == p.slots)
  {
    var q := Checkin(p, t, x, mode);
    assert forall u, y :: InSlot(q.slots, u, y) ==> InSlot(p.slots, u, y);
  }

  // ---------------------------------------------------------------- every step keeps the invariants

  // A thread's checkout disturbs no other thread's use of the pool.
  lemma {:induction false} OthersUndisturbed(p: Pool, q: Pool, threads: map<Thread, ThreadState>, t: Thread, u: Thread,
                                             x: Option<WorkerId>)
    requires PoolOk(p) && UseInv(p, threads) && CleanInv(p, threads) && Moves(p, q, t, x)
    requires t in threads && u in threads && u != t && !Uses(threads[t].stage)
    requires HoldsLock(threads[u].stage) ==> p.locked && q.locked && q.pooled == p.pooled
    ensures UseOk(q, u, threads[u].stage) && StartOk(q, u, threads[u].stage) && CleanOk(q, threads[u].stage)
    ensures Uses(threads[u].stage) ==> x != Some(threads[u].stage.worker)
    ensures Uses(threads[u].stage) ==>
      var y := threads[u].stage.worker; q.workers[y].alive == p.workers[y].alive && q.workers[y].broken == p.workers[y].broken
  {
    var s := threads[u].stage;
    assert UseOk(p, u, s) && StartOk(p, u, s) && CleanOk(p, s);
    if Uses(s) {
      assert !Droppable(p, t, s.worker);
      assert u in q.slots <==> u in p.slots;
    }
  }

  lemma {:induction false} SharesNothing(threads: map<Thread, ThreadState>, t: Thread, th: ThreadState)
    requires t in threads
    requires forall u, r :: u in threads && r in threads && u != r ==> !Shares(threads, u, r)
    requires Uses(th.stage) ==>
      forall u :: u in threads && u != t && Uses(threads[u].stage) ==> threads[u].stage.worker != th.stage.worker
    ensures var after := threads[t := th];
      forall u, r :: u in after && r in after && u != r ==> !Shares(after, u, r)
  {
    var after := threads[t := th];
    forall u, r | u in after && r in after && u != r ensures !Shares(after, u, r) {
      if u != t && r != t { assert !Shares(threads, u, r); }
    }
  }

  // A thread that has no worker yet moves on, with the worker it obtained if any.
  lemma {:induction false} MoveKeeps(p: Pool, q: Pool, threads: map<Thread, ThreadState>, t: Thread, th: ThreadState,
                                     x: Option<WorkerId>)
    requires PoolOk(p) && UseInv(p, threads) && CleanInv(p, threads) && Moves(p, q, t, x)
    requires t in threads && !Uses(threads[t].stage)
    requires forall u :: u in threads && u != t && HoldsLock(threads[u].stage) ==> p.locked && q.locked && q.pooled == p.pooled
    requires UseOk(q, t, th.stage) && StartOk(q, t, th.stage)
    requires Uses(th.stage) ==> x == Some(th.stage.worker) && th.stage.Holding? && Obtained(p, q, t, th.stage.worker, th.stage.mode)
    requires !q.locked ==> q.pooled.None? || (!p.locked && q.pooled == p.pooled)
    requires !Uses(th.stage) ==> x.None?
    ensures PoolOk(q) && UseInv(q, threads[t := th]) && CleanInv(q, threads[t := th])
  {
    forall u | u in threads && u != t
      ensures UseOk(q, u, threads[u].stage) && StartOk(q, u, threads[u].stage) && CleanOk(q, threads[u].stage)
           && (Uses(threads[u].stage) ==> x != Some(threads[u].stage.worker))
    {
      OthersUndisturbed(p, q, threads, t, u, x);
    }
    SharesNothing(threads, t, th);
    assert UseInv(q, threads[t := th]);
    MoveClean(p, q, threads, t, th, x);
  }

  lemma {:induction false} MoveClean(p: Pool, q: Pool, threads: map<Thread, ThreadState>, t: Thread, th: ThreadState,
                                     x: Option<WorkerId>)
    requires PoolOk(p) && UseInv(p, threads) && CleanInv(p, threads) && Moves(p, q, t, x)
    requires t in threads && !Uses(threads[t].stage)
    requires forall u :: u in threads && u != t ==> CleanOk(q, threads[u].stage)
    requires Uses(th.stage) ==> x == Some(th.stage.worker) && th.stage.Holding? && Obtained(p, q, t, th.stage.worker, th.stage.mode)
    requires !q.locked ==> q.pooled.None? || (!p.locked && q.pooled == p.pooled)
    requires !Uses(th.stage) ==> x.None?
    ensures CleanInv(q, threads[t := th])
  {
    if Uses(th.stage) {
      assert q.workers[th.stage.worker].busy.None?;
    }
    assert CleanOk(q, th.stage);
  }

  lemma {:induction false} OverKeeps(w: World, t: Thread, end: End)
    requires Inv(w) && t in w.threads && (w.threads[t].stage.Trying? || w.threads[t].stage.Starting?)
    requires !HoldsLock(w.threads[t].stage)
    requires end.Cancelled? ==> w.threads[t].stage.call in w.marked
    ensures Inv(Over(w, t, w.threads[t].stage.call, end))
  {
    SharesNothing(w.threads, t, AtRest);
    assert CountOk(w.sent, w.accepted, w.threads[t].stage);
  }

  lemma {:induction false} CountMoves(sent: map<Call, nat>, accepted: set<Call>, threads: map<Thread, ThreadState>, t: Thread,
                                      th: ThreadState)
    requires CountInv(sent, accepted, threads) && t in threads
    requires threads[t].stage.Trying? || threads[t].stage.Starting?
    requires th.stage.Starting? || th.stage.Holding?
    requires th.stage.call == threads[t].stage.call && th.stage.attempt == threads[t].stage.attempt
    ensures CountInv(sent, accepted, threads[t := th])
  {
    assert CountOk(sent, accepted, threads[t].stage);
  }

  lemma {:induction false} FileMoves(slots: map<Thread, Option<WorkerId>>, after: map<Thread, Option<WorkerId>>,
                                     threads: map<Thread, ThreadState>, marked: set<Call>, ends: map<Call, End>,
                                     t: Thread, s: Stage)
    requires FileInv(slots, threads, marked, ends) && after.Keys == slots.Keys && t in threads
    requires !s.Idle? && !threads[t].stage.Idle? && s.call == threads[t].stage.call
    ensures FileInv(after, threads[t := threads[t].(stage := s)], marked, ends)
  {
    assert FileOk(slots, marked, t, threads[t]);
  }

  lemma {:induction false} CheckoutKeeps(w: World, t: Thread)
    requires Inv(w) && t in w.threads && w.threads[t].stage.Trying?
    ensures Inv(CheckedOut(w, t))
  {
    hide Inv, Begin, Over;
    if IsCancelled(w.threads[t]) {
      CancelledIsMarked(w, t);
      OverKeeps(w, t, Cancelled);
    } else {
      PoolOf(w);
      BeginFacts(w.pool, t);
      var (q, b) := Begin(w.pool, t);
      if b.Refused? {
        RefusedKeeps(w, t, q, b);
      } else {
        BegunKeeps(w, t, q, b);
      }
    }
  }

  lemma {:induction false} RefusedKeeps(w: World, t: Thread, q: Pool, b: Begun)
    requires Inv(w) && t in w.threads && w.threads[t].stage.Trying? && BeginOk(w.pool, t, q, b) && b.Refused?
    ensures Inv(Over(w.(pool := q.(unavailable := true)), t, w.threads[t].stage.call, InProcess))
  {
    var th := w.threads[t];
    var r := q.(unavailable := true);
    UnavailableIsFree(w.pool, q, t);
    LockHolders(w);
    MoveKeeps(w.pool, r, w.threads, t, th, None);
    assert w.threads[t := th] == w.threads;
    hide UseInv, CleanInv, CountInv, PoolOk, Moves;
    assert r.slots.Keys == w.pool.slots.Keys by { assert SlotsFrom(w.pool, q, t) by { MovesSlots(w.pool, q, t, None); } }
    assert FileInv(r.slots, w.threads, w.marked, w.ends);
    assert LockInv(r, w.threads, w.owner, w.taken, w.released);
    OverKeeps(w.(pool := r), t, InProcess);
  }

  lemma MovesSlots(p: Pool, q: Pool, t: Thread, x: Option<WorkerId>)
    requires Moves(p, q, t, x)
    ensures SlotsFrom(p, q, t)
  {
  }

  lemma UnavailableIsFree(p: Pool, q: Pool, t: Thread)
    requires Moves(p, q, t, None)
    ensures Moves(p, q.(unavailable := true), t, None)
  {
    var r := q.(unavailable := true);
    assert r.slots == q.slots && r.workers == q.workers && r.pooled == q.pooled && r.next == q.next;
  }

  lemma LockHolders(w: World)
    requires Inv(w)
    ensures forall u :: u in w.threads && HoldsLock(w.threads[u].stage) ==> w.pool.locked
    ensures forall u, r :: u in w.threads && r in w.threads && HoldsLock(w.threads[u].stage) && HoldsLock(w.threads[r].stage)
              ==> u == r
    ensures PoolOk(w.pool) && UseInv(w.pool, w.threads) && CleanInv(w.pool, w.threads)
  {
  }

  lemma {:induction false} BegunKeeps(w: World, t: Thread, q: Pool, b: Begun)
    requires Inv(w) && t in w.threads && w.threads[t].stage.Trying? && BeginOk(w.pool, t, q, b) && !b.Refused?
    ensures var s := w.threads[t].stage;
      var stage := if b.Reused? then Holding(s.call, s.attempt, b.worker, b.mode) else Starting(s.call, s.attempt, b.mode);
      var v := w.(pool := q, threads := w.threads[t := w.threads[t].(stage := stage)]);
      Inv(if IsPooled(b) then v.(owner := Some(t), taken := w.taken + 1) else v)
  {
    var s := w.threads[t].stage;
    var stage := if b.Reused? then Holding(s.call, s.attempt, b.worker, b.mode) else Starting(s.call, s.attempt, b.mode);
    var th := w.threads[t].(stage := stage);
    var x := if b.Reused? then Some(b.worker) else None;
    LockHolders(w);
    MovesSlots(w.pool, q, t, x);
    BegunPlace(w.pool, t, q, b, stage);
    MoveKeeps(w.pool, q, w.threads, t, th, x);
    hide UseInv, CleanInv, PoolOk, Moves, Obtained, StartOk, UseOk;
    CountMoves(w.sent, w.accepted, w.threads, t, th);
    FileMoves(w.pool.slots, q.slots, w.threads, w.marked, w.ends, t, stage);
    BegunLock(w.pool, w.threads, w.owner, w.taken, w.released, t, q, b, th);
  }

  lemma BegunPlace(p: Pool, t: Thread, q: Pool, b: Begun, s: Stage)
    requires BeginOk(p, t, q, b) && !b.Refused?
    requires if b.Reused? then s.Holding? && s.worker == b.worker && s.mode == b.mode else s.Starting? && s.mode == b.mode
    ensures UseOk(q, t, s) && StartOk(q, t, s)
  {
  }

  lemma BegunLock(p: Pool, threads: map<Thread, ThreadState>, owner: Option<Thread>, taken: nat, released: nat,
                  t: Thread, q: Pool, b: Begun, th: ThreadState)
    requires LockInv(p, threads, owner, taken, released) && t in threads && threads[t].stage.Trying?
    requires q.locked == (p.locked || IsPooled(b)) && (IsPooled(b) ==> !p.locked)
    requires th.stage.Holding? || th.stage.Starting?
    requires th.stage.mode == Pooled <==> IsPooled(b)
    ensures LockInv(q, threads[t := th], if IsPooled(b) then Some(t) else owner,
                    if IsPooled(b) then taken + 1 else taken, released)
  {
  }

  lemma {:induction false} StartKeepsAll(w: World, t: Thread, starts: bool)
    requires Inv(w) && t in w.threads && w.threads[t].stage.Starting?
    ensures Inv(StartEnded(w, t, starts))
  {
    hide Inv, FinishStart, Over;
    var s := w.threads[t].stage;
    StartPlace(w, t);
    FinishFacts(w.pool, t, s.mode, starts);
    var (q, r) := FinishStart(w.pool, t, s.mode, starts);
    match r
    case Got(x, mode) => FinishedKeeps(w, t, q, r);
    case Unavailable =>
      if IsCancelled(w.threads[t]) { CancelledIsMarked(w, t); }
      FailedKeeps(w, t, q, r, if IsCancelled(w.threads[t]) then Cancelled else InProcess);
  }

  lemma StartPlace(w: World, t: Thread)
    requires Inv(w) && t in w.threads && w.threads[t].stage.Starting?
    ensures PoolOk(w.pool) && StartOk(w.pool, t, Starting(0, 0, w.threads[t].stage.mode))
  {
    assert StartOk(w.pool, t, w.threads[t].stage);
  }

  lemma {:induction false} FinishedKeeps(w: World, t: Thread, q: Pool, r: Checked)
    requires Inv(w) && t in w.threads && w.threads[t].stage.Starting? && r.Got?
    requires FinishOk(w.pool, t, w.threads[t].stage.mode, q, r)
    ensures var s := w.threads[t].stage;
      Inv(w.(pool := q, threads := w.threads[t := w.threads[t].(stage := Holding(s.call, s.attempt, r.worker, r.mode))]))
  {
    var s := w.threads[t].stage;
    var stage := Holding(s.call, s.attempt, r.worker, r.mode);
    var th := w.threads[t].(stage := stage);
    LockHolders(w);
    StartPlace(w, t);
    MovesSlots(w.pool, q, t, Some(r.worker));
    assert UseOk(q, t, stage);
    MoveKeeps(w.pool, q, w.threads, t, th, Some(r.worker));
    hide UseInv, CleanInv, PoolOk, Moves, Obtained, StartOk, UseOk;
    CountMoves(w.sent, w.accepted, w.threads, t, th);
    FileMoves(w.pool.slots, q.slots, w.threads, w.marked, w.ends, t, stage);
    LockSame(w.pool, q, w.threads, w.owner, w.taken, w.released, t, th);
  }

  lemma {:induction false} FailedKeeps(w: World, t: Thread, q: Pool, r: Checked, end: End)
    requires Inv(w) && t in w.threads && w.threads[t].stage.Starting? && r.Unavailable?
    requires FinishOk(w.pool, t, w.threads[t].stage.mode, q, r)
    requires end.Cancelled? ==> w.threads[t].stage.call in w.marked
    ensures var s := w.threads[t].stage;
      var v := if s.mode == Pooled then w.(owner := None, released := w.released + 1) else w;
      Inv(Over(v.(pool := q.(unavailable := true)), t, s.call, end))
  {
    var s := w.threads[t].stage;
    var u := q.(unavailable := true);
    FailedPool(w, t, q, r);
    hide UseInv, CleanInv, PoolOk, Moves, StartOk, UseOk, LockInv, CountInv, SlotsFrom;
    assert u.slots.Keys == w.pool.slots.Keys by { SameSlots(w.pool, u, t); }
    FailedLock(w, t, u);
    RestCounts(w.sent, w.accepted, w.threads, t);
    FailedFile(w.pool.slots, u.slots, w.threads, w.marked, w.ends, t, s.call, end);
    hide FileInv;
  }

  lemma FailedFile(slots: map<Thread, Option<WorkerId>>, after: map<Thread, Option<WorkerId>>, threads: map<Thread, ThreadState>,
                   marked: set<Call>, ends: map<Call, End>, t: Thread, c: Call, end: End)
    requires FileInv(slots, threads, marked, ends) && after.Keys == slots.Keys && t in threads
    requires end.Cancelled? ==> c in marked
    ensures FileInv(after, threads[t := AtRest], marked, ends[c := end])
  {
    forall u | u in threads && u != t ensures FileOk(after, marked, u, threads[u]) {
      assert FileOk(slots, marked, u, threads[u]);
    }
  }

  lemma SameSlots(p: Pool, q: Pool, t: Thread)
    requires SlotsFrom(p, q, t)
    ensures q.slots.Keys == p.slots.Keys
  {
  }

  lemma {:induction false} FailedPool(w: World, t: Thread, q: Pool, r: Checked)
    requires Inv(w) && t in w.threads && w.threads[t].stage.Starting? && r.Unavailable?
    requires FinishOk(w.pool, t, w.threads[t].stage.mode, q, r)
    ensures var u := q.(unavailable := true);
      PoolOk(u) && UseInv(u, w.threads[t := AtRest]) && CleanInv(u, w.threads[t := AtRest]) && SlotsFrom(w.pool, u, t)
  {
    var u := q.(unavailable := true);
    LockHolders(w);
    UnavailableIsFree(w.pool, q, t);
    MovesSlots(w.pool, u, t, None);
    MoveKeeps(w.pool, u, w.threads, t, AtRest, None);
  }

  lemma {:induction false} FailedLock(w: World, t: Thread, q: Pool)
    requires LockInv(w.pool, w.threads, w.owner, w.taken, w.released) && t in w.threads && w.threads[t].stage.Starting?
    requires q.locked == (w.pool.locked && w.threads[t].stage.mode != Pooled)
    ensures var pooled := w.threads[t].stage.mode == Pooled;
      LockInv(q, w.threads[t := AtRest], if pooled then None else w.owner, w.taken,
              if pooled then w.released + 1 else w.released)
  {
  }

  lemma {:induction false} RestCounts(sent: map<Call, nat>, accepted: set<Call>, threads: map<Thread, ThreadState>, t: Thread)
    requires CountInv(sent, accepted, threads) && t in threads
    ensures CountInv(sent, accepted, threads[t := AtRest])
  {
  }

  lemma PoolOf(w: World)
    requires Inv(w)
    ensures PoolOk(w.pool)
  {
  }

  lemma CancelledIsMarked(w: World, t: Thread)
    requires Inv(w) && t in w.threads && IsCancelled(w.threads[t])
    ensures !w.threads[t].stage.Idle? && w.threads[t].stage.call in w.marked
  {
    assert FileOk(w.pool.slots, w.marked, t, w.threads[t]);
  }

  // A thread goes on with the worker it has: only that worker's own row may change.
  lemma {:induction false} OwnWorkerChange(p: Pool, threads: map<Thread, ThreadState>, t: Thread, y: Worker, th: ThreadState)
    requires PoolOk(p) && UseInv(p, threads) && CleanInv(p, threads)
    requires t in threads && Uses(threads[t].stage) && Uses(th.stage)
    requires th.stage.worker == threads[t].stage.worker && th.stage.mode == threads[t].stage.mode
    requires CleanOk(p.(workers := p.workers[th.stage.worker := y]), th.stage)
    ensures var q := p.(workers := p.workers[th.stage.worker := y]);
      PoolOk(q) && UseInv(q, threads[t := th]) && CleanInv(q, threads[t := th])
  {
    var x := th.stage.worker;
    var q := p.(workers := p.workers[x := y]);
    var after := threads[t := th];
    assert UseOk(p, t, threads[t].stage);
    forall u | u in threads && u != t
      ensures UseOk(q, u, threads[u].stage) && CleanOk(q, threads[u].stage) && StartOk(q, u, threads[u].stage)
           && (Uses(threads[u].stage) ==> threads[u].stage.worker != x)
    {
      assert UseOk(p, u, threads[u].stage) && CleanOk(p, threads[u].stage) && StartOk(p, u, threads[u].stage);
      assert !Shares(threads, t, u);
    }
    SharesNothing(threads, t, th);
  }

  lemma LockSame(p: Pool, q: Pool, threads: map<Thread, ThreadState>, owner: Option<Thread>, taken: nat, released: nat,
                 t: Thread, th: ThreadState)
    requires LockInv(p, threads, owner, taken, released) && q.locked == p.locked
    requires t in threads && (HoldsLock(th.stage) <==> HoldsLock(threads[t].stage))
    ensures LockInv(q, threads[t := th], owner, taken, released)
  {
  }

  lemma {:induction false} CountChange(sent: map<Call, nat>, accepted: set<Call>, threads: map<Thread, ThreadState>, t: Thread,
                                       th: ThreadState, count: nat, more: bool)
    requires CountInv(sent, accepted, threads)
    requires t in threads && !threads[t].stage.Idle? && !th.stage.Idle?
    requires th.stage.call == threads[t].stage.call && th.stage.call in sent && count <= 2
    requires var c := th.stage.call;
      CountOk(sent[c := count], if more then accepted + {c} else accepted, th.stage)
    ensures var c := th.stage.call;
      CountInv(sent[c := count], if more then accepted + {c} else accepted, threads[t := th])
  {
    var c := th.stage.call;
    var counts, marks := sent[c := count], if more then accepted + {c} else accepted;
    forall u | u in threads && u != t ensures CountOk(counts, marks, threads[u].stage) {
      assert CountOk(sent, accepted, threads[u].stage);
      if !threads[u].stage.Idle? { assert threads[u].stage.call != c; }
    }
  }

  lemma {:induction false} FileChange(slots: map<Thread, Option<WorkerId>>, threads: map<Thread, ThreadState>, marked: set<Call>,
                                      ends: map<Call, End>, t: Thread, th: ThreadState, more: map<Call, End>)
    requires FileInv(slots, threads, marked, ends)
    requires FileOk(slots, marked, t, th)
    requires forall c :: c in more && more[c].Cancelled? ==> (c in ends && ends[c].Cancelled?) || c in marked
    ensures FileInv(slots, threads[t := th], marked, more)
  {
  }

  // What the invariants say of one thread in a call.
  lemma {:induction false} InCall(w: World, t: Thread)
    requires Inv(w) && t in w.threads && Uses(w.threads[t].stage)
    ensures PoolOk(w.pool) && UseInv(w.pool, w.threads) && CleanInv(w.pool, w.threads)
    ensures LockInv(w.pool, w.threads, w.owner, w.taken, w.released)
    ensures CountInv(w.sent, w.accepted, w.threads) && FileInv(w.pool.slots, w.threads, w.marked, w.ends)
    ensures var th := w.threads[t];
      UseOk(w.pool, t, th.stage) && CleanOk(w.pool, th.stage) && CountOk(w.sent, w.accepted, th.stage)
      && FileOk(w.pool.slots, w.marked, t, th) && th.stage.worker in w.pool.workers
  {
    assert UseOk(w.pool, t, w.threads[t].stage);
  }

  lemma {:induction false} SentKeeps(w: World, t: Thread)
    requires Inv(w) && t in w.threads && w.threads[t].stage.Holding? && w.threads[t].stage.call in w.sent
    ensures Inv(Sent(w, t))
  {
    hide UseInv, CleanInv, CountInv, LockInv, FileInv, PoolOk, StartOk;
    InCall(w, t);
    var th := w.threads[t];
    var s := th.stage;
    var v := Sent(w, t);
    var y := v.pool.workers[s.worker];
    assert v.pool == w.pool.(workers := w.pool.workers[s.worker := y]);
    var next := v.threads[t];
    assert v.sent == w.sent[s.call := v.sent[s.call]];
    OwnWorkerChange(w.pool, w.threads, t, y, next);
    LockSame(w.pool, v.pool, w.threads, w.owner, w.taken, w.released, t, next);
    CountChange(w.sent, w.accepted, w.threads, t, next, v.sent[s.call], false);
    FileChange(w.pool.slots, w.threads, w.marked, w.ends, t, next, v.ends);
  }

  // What hearing something does to the worker and to the stage.
  lemma ListenedIs(w: World, t: Thread, h: Heard)
    requires t in w.threads && w.threads[t].stage.Waiting? && w.threads[t].stage.worker in w.pool.workers
    requires CleanOk(w.pool, w.threads[t].stage) && CountOk(w.sent, w.accepted, w.threads[t].stage)
    ensures var s := w.threads[t].stage;
      var v := Listened(w, t, h);
      && v == w.(pool := v.pool, threads := w.threads[t := v.threads[t]], accepted := v.accepted, ends := v.ends)
      && v.pool == w.pool.(workers := w.pool.workers[s.worker := v.pool.workers[s.worker]])
      && Uses(v.threads[t].stage) && v.threads[t] == w.threads[t].(stage := v.threads[t].stage)
      && v.threads[t].stage.worker == s.worker && v.threads[t].stage.mode == s.mode && v.threads[t].stage.call == s.call
      && CleanOk(v.pool, v.threads[t].stage)
      && (v.accepted == w.accepted || v.accepted == w.accepted + {s.call})
      && CountOk(w.sent, v.accepted, v.threads[t].stage)
      && (v.ends == w.ends
          || (s.call in v.ends && v.ends == w.ends[s.call := v.ends[s.call]]
              && (v.ends[s.call].Cancelled? ==> IsCancelled(w.threads[t]))))
  {
  }

  lemma {:induction false} ListenedKeeps(w: World, t: Thread, h: Heard)
    requires Inv(w) && t in w.threads && w.threads[t].stage.Waiting?
    ensures Inv(Listened(w, t, h))
  {
    hide UseInv, CleanInv, CountInv, LockInv, FileInv, PoolOk, CleanOk, CountOk, Listened;
    InCall(w, t);
    ListenedIs(w, t, h);
    var s := w.threads[t].stage;
    var v := Listened(w, t, h);
    var next := v.threads[t];
    OwnWorkerChange(w.pool, w.threads, t, v.pool.workers[s.worker], next);
    LockSame(w.pool, v.pool, w.threads, w.owner, w.taken, w.released, t, next);
    var count := w.sent[s.call];
    assert w.sent == w.sent[s.call := count];
    CountTwice(w.sent, w.accepted, w.threads, s.call);
    CountChange(w.sent, w.accepted, w.threads, t, next, count, v.accepted != w.accepted);
    FileChange(w.pool.slots, w.threads, w.marked, w.ends, t, next, v.ends);
  }

  lemma CountTwice(sent: map<Call, nat>, accepted: set<Call>, threads: map<Thread, ThreadState>, c: Call)
    requires CountInv(sent, accepted, threads) && c in sent
    ensures sent[c] <= 2
  {
  }

  lemma ReturnedLock(p: Pool, threads: map<Thread, ThreadState>, owner: Option<Thread>, taken: nat, released: nat,
                     t: Thread, q: Pool, th: ThreadState)
    requires LockInv(p, threads, owner, taken, released) && t in threads && Uses(threads[t].stage) && !Uses(th.stage) && !th.stage.Starting?
    requires UseInv(p, threads)
    requires q.locked == (p.locked && threads[t].stage.mode != Pooled)
    ensures var pooled := threads[t].stage.mode == Pooled;
      LockInv(q, threads[t := th], if pooled then None else owner, taken, if pooled then released + 1 else released)
    ensures forall u :: u in threads && u != t && HoldsLock(threads[u].stage) ==> threads[t].stage.mode != Pooled
  {
    assert UseOk(p, t, threads[t].stage);
  }

  lemma {:induction false} ReturnedFile(slots: map<Thread, Option<WorkerId>>, after: map<Thread, Option<WorkerId>>,
                                        threads: map<Thread, ThreadState>, marked: set<Call>, ends: map<Call, End>,
                                        t: Thread, th: ThreadState)
    requires FileInv(slots, threads, marked, ends) && after.Keys == slots.Keys && t in threads
    requires th == AtRest || (th == threads[t].(stage := th.stage) && !th.stage.Idle? && !threads[t].stage.Idle?
                              && th.stage.call == threads[t].stage.call)
    ensures FileInv(after, threads[t := th], marked, ends)
  {
    assert FileOk(slots, marked, t, threads[t]);
    assert FileOk(after, marked, t, th);
  }

  lemma {:induction false} ReturnedKeeps(w: World, t: Thread)
    requires Inv(w) && t in w.threads && w.threads[t].stage.Closing?
    ensures Inv(Returned(w, t))
  {
    hide Checkin, UseInv, CleanInv, CountInv, LockInv, FileInv, PoolOk, SameOthers, UseOk, CleanOk, CountOk, FileOk;
    InCall(w, t);
    var s := w.threads[t].stage;
    var q := Checkin(w.pool, t, s.worker, s.mode);
    CheckinFacts(w.pool, t, s.worker, s.mode);
    var th := Returned(w, t).threads[t];
    ReturnedLock(w.pool, w.threads, w.owner, w.taken, w.released, t, q, th);
    ReturnedUse(w.pool, w.threads, t, q, th);
    ReturnedClean(w.pool, w.threads, t, q, th);
    ReturnedCount(w.sent, w.accepted, w.threads, t, th);
    ReturnedFile(w.pool.slots, q.slots, w.threads, w.marked, w.ends, t, th);
  }

  lemma {:induction false} ReturnedUse(p: Pool, threads: map<Thread, ThreadState>, t: Thread, q: Pool, th: ThreadState)
    requires PoolOk(p) && UseInv(p, threads) && t in threads && threads[t].stage.Closing?
    requires !Uses(th.stage) && !th.stage.Starting?
    requires PoolOk(q) && SlotsFrom(p, q, t) && SameAfterCheckin(p, q, threads[t].stage.worker)
    requires forall u :: u in threads && u != t ==> !HoldsLock(threads[u].stage) || q.locked == p.locked
    requires threads[t].stage.mode != Pooled ==> q.locked == p.locked && q.pooled == p.pooled
    requires q.pooled.Some? ==> q.pooled == p.pooled
    requires forall u, y :: InSlot(q.slots, u, y) ==> InSlot(p.slots, u, y)
    requires forall u :: u in threads && u != t && HoldsLock(threads[u].stage) ==> threads[t].stage.mode != Pooled
    ensures UseInv(q, threads[t := th])
  {
    var after := threads[t := th];
    forall u | u in threads && u != t ensures UseOk(q, u, threads[u].stage) && StartOk(q, u, threads[u].stage) {
      assert UseOk(p, u, threads[u].stage) && StartOk(p, u, threads[u].stage);
    }
    SharesNothing(threads, t, th);
  }

  lemma {:induction false} ReturnedClean(p: Pool, threads: map<Thread, ThreadState>, t: Thread, q: Pool, th: ThreadState)
    requires PoolOk(p) && UseInv(p, threads) && CleanInv(p, threads)
    requires t in threads && threads[t].stage.Closing? && !Uses(th.stage)
    requires PoolOk(q) && SlotsFrom(p, q, t) && SameAfterCheckin(p, q, threads[t].stage.worker)
    requires var s := threads[t].stage;
      && q.locked == (p.locked && s.mode != Pooled)
      && (q.pooled.Some? ==> q.pooled == p.pooled)
      && (s.mode == Pooled && q.pooled == Some(s.worker) ==> p.workers[s.worker].healthy)
      && (s.mode == Dedicated && InSlot(q.slots, t, s.worker) ==> p.workers[s.worker].healthy)
      && (s.mode != Dedicated ==> q.slots == p.slots)
    requires forall u, y :: InSlot(q.slots, u, y) ==> InSlot(p.slots, u, y)
    ensures CleanInv(q, threads[t := th])
  {
    var s := threads[t].stage;
    assert UseOk(p, t, s) && CleanOk(p, s);
    forall u | u in threads && u != t ensures CleanOk(q, threads[u].stage) {
      assert UseOk(p, u, threads[u].stage) && CleanOk(p, threads[u].stage);
    }
  }

  lemma {:induction false} ReturnedCount(sent: map<Call, nat>, accepted: set<Call>, threads: map<Thread, ThreadState>, t: Thread,
                                         th: ThreadState)
    requires CountInv(sent, accepted, threads) && t in threads && threads[t].stage.Closing?
    requires var s := threads[t].stage; th.stage == if s.again then Trying(s.call, 2) else Idle
    ensures CountInv(sent, accepted, threads[t := th])
  {
    assert CountOk(sent, accepted, threads[t].stage);
  }

  // ---------------------------------------------------------------- the other steps

  // A worker may die at any time: nothing that is promised depends on its being alive.
  lemma {:induction false} DeathKeeps(w: World, x: WorkerId)
    requires Inv(w)
    ensures Inv(w.(pool := w.pool.(workers := Killed(w.pool.workers, x))))
  {
    var q := w.pool.(workers := Killed(w.pool.workers, x));
    hide CountInv, FileInv;
    forall u | u in w.threads
      ensures UseOk(q, u, w.threads[u].stage) && StartOk(q, u, w.threads[u].stage) && CleanOk(q, w.threads[u].stage)
    {
      assert UseOk(w.pool, u, w.threads[u].stage) && StartOk(w.pool, u, w.threads[u].stage);
      assert CleanOk(w.pool, w.threads[u].stage);
    }
  }

  lemma {:induction false} BreakKeeps(w: World, x: WorkerId)
    requires Inv(w)
    ensures Inv(w.(pool := w.pool.(workers := Broken(w.pool.workers, x))))
  {
    var q := w.pool.(workers := Broken(w.pool.workers, x));
    hide CountInv, FileInv;
    forall u | u in w.threads
      ensures UseOk(q, u, w.threads[u].stage) && StartOk(q, u, w.threads[u].stage) && CleanOk(q, w.threads[u].stage)
    {
      assert UseOk(w.pool, u, w.threads[u].stage) && StartOk(w.pool, u, w.threads[u].stage);
      assert CleanOk(w.pool, w.threads[u].stage);
    }
  }

  lemma {:induction false} EnterKeeps(w: World, t: Thread)
    requires Inv(w) && t in w.threads && w.threads[t].stage.Idle? && t !in w.pool.slots
    ensures Inv(w.(pool := w.pool.(slots := w.pool.slots[t := None])))
  {
    var q := w.pool.(slots := w.pool.slots[t := None]);
    forall u, x ensures InSlot(q.slots, u, x) <==> InSlot(w.pool.slots, u, x) {
    }
    forall u | u in w.threads
      ensures UseOk(q, u, w.threads[u].stage) && StartOk(q, u, w.threads[u].stage)
      ensures CleanOk(q, w.threads[u].stage) && FileOk(q.slots, w.marked, u, w.threads[u])
    {
      assert UseOk(w.pool, u, w.threads[u].stage) && StartOk(w.pool, u, w.threads[u].stage);
      assert CleanOk(w.pool, w.threads[u].stage);
      assert FileOk(w.pool.slots, w.marked, u, w.threads[u]);
    }
  }

  lemma {:induction false} LeaveSlot(w: World, t: Thread)
    requires Inv(w) && t in w.threads && w.threads[t].stage.Idle?
    ensures Inv(w.(pool := w.pool.(slots := w.pool.slots - {t})))
  {
    var q := w.pool.(slots := w.pool.slots - {t});
    hide CountInv;
    forall u, x ensures InSlot(q.slots, u, x) <==> InSlot(w.pool.slots, u, x) && u != t {
    }
    forall u | u in w.threads
      ensures UseOk(q, u, w.threads[u].stage) && StartOk(q, u, w.threads[u].stage)
      ensures CleanOk(q, w.threads[u].stage) && FileOk(q.slots, w.marked, u, w.threads[u])
    {
      assert UseOk(w.pool, u, w.threads[u].stage) && StartOk(w.pool, u, w.threads[u].stage);
      assert CleanOk(w.pool, w.threads[u].stage);
      assert FileOk(w.pool.slots, w.marked, u, w.threads[u]);
    }
  }

  lemma {:induction false} LeaveKeeps(w: World, t: Thread)
    requires Inv(w) && t in w.threads && w.threads[t].stage.Idle?
    ensures Inv(w.(pool := Left(w.pool, t)))
  {
    hide Inv;
    if t in w.pool.slots && w.pool.slots[t].Some? {
      DeathKeeps(w, w.pool.slots[t].value);
      LeaveSlot(w.(pool := w.pool.(workers := Killed(w.pool.workers, w.pool.slots[t].value))), t);
    } else {
      LeaveSlot(w, t);
    }
  }

  // A thread that uses no worker before or after changes nothing but its call.
  lemma {:induction false} ThreadChange(w: World, t: Thread, th: ThreadState, sent: map<Call, nat>, marked: set<Call>)
    requires Inv(w) && !Uses(th.stage) && !th.stage.Starting?
    requires t in w.threads ==> !Uses(w.threads[t].stage) && !w.threads[t].stage.Starting?
    requires t !in w.threads ==> t !in w.pool.slots && w.owner != Some(t)
    requires CountInv(sent, w.accepted, w.threads[t := th])
    requires FileInv(w.pool.slots, w.threads[t := th], marked, w.ends)
    ensures Inv(w.(threads := w.threads[t := th], sent := sent, marked := marked))
  {
    var after := w.threads[t := th];
    forall u, r | u in after && r in after && u != r ensures !Shares(after, u, r) {
      if u != t && r != t { assert !Shares(w.threads, u, r); }
    }
  }

  lemma {:induction false} SpawnKeeps(w: World, t: Thread)
    requires Inv(w) && t !in w.threads
    ensures Inv(w.(threads := w.threads[t := AtRest]))
  {
    ThreadChange(w, t, AtRest, w.sent, w.marked);
  }

  lemma {:induction false} StartKeeps(w: World, t: Thread, call: Call)
    requires Inv(w) && t in w.threads && w.threads[t].stage.Idle? && call !in w.sent
    ensures Inv(Next(w, Start(t, call)))
  {
    var file := if t in w.pool.slots then Some(call) else None;
    var th := ThreadState(Trying(call, 1), file, None);
    var sent := w.sent[call := 0];
    forall u | u in w.threads && u != t
      ensures CountOk(sent, w.accepted, w.threads[u].stage)
           && (!w.threads[u].stage.Idle? ==> w.threads[u].stage.call != call)
    {
      assert CountOk(w.sent, w.accepted, w.threads[u].stage);
    }
    ThreadChange(w, t, th, sent, w.marked);
  }

  lemma {:induction false} MarkKeeps(w: World, k: nat, t: Thread, call: Call)
    requires Inv(w) && t in w.threads && t in w.pool.slots && w.threads[t].file == Some(call)
    ensures Inv(w.(threads := w.threads[t := w.threads[t].(cancelled := Some(call))],
                   strikes := w.strikes[k := Strike(t, call, w.pool.slots[t])], marked := w.marked + {call}))
  {
    var th := w.threads[t].(cancelled := Some(call));
    var after := w.threads[t := th];
    assert FileOk(w.pool.slots, w.marked, t, w.threads[t]);
    forall u, r | u in after && r in after && u != r ensures !Shares(after, u, r) {
      assert !Shares(w.threads, u, r);
    }
    forall u | u in w.threads ensures FileOk(w.pool.slots, w.marked + {call}, u, after[u]) {
      assert FileOk(w.pool.slots, w.marked, u, w.threads[u]);
    }
  }

  lemma StrikesAreFree(w: World, strikes: map<nat, Strike>)
    requires Inv(w)
    ensures Inv(w.(strikes := strikes))
  {
    hide PoolOk, UseInv, LockInv, CleanInv, CountInv, FileInv;
  }

  lemma {:induction false} NextKeeps(w: World, step: Step)
    requires Inv(w)
    ensures Inv(Next(w, step))
  {
    hide Inv, CheckedOut, StartEnded, Heeds, Sent, Listened, Returned, Left;
    match step
    case Spawn(t) => if t !in w.threads { SpawnKeeps(w, t); }
    case Enter(t) => if t in w.threads && w.threads[t].stage.Idle? && t !in w.pool.slots { EnterKeeps(w, t); }
    case Leave(t) => if t in w.threads && w.threads[t].stage.Idle? { LeaveKeeps(w, t); }
    case Start(t, call) => if t in w.threads && w.threads[t].stage.Idle? && call !in w.sent { StartKeeps(w, t, call); }
    case TryCheckout(t) => if t in w.threads && w.threads[t].stage.Trying? { CheckoutKeeps(w, t); }
    case StartEnds(t, starts) => if t in w.threads && w.threads[t].stage.Starting? { StartKeepsAll(w, t, starts); }
    case Send(t) =>
      if t in w.threads && w.threads[t].stage.Holding? && w.threads[t].stage.call in w.sent { SentKeeps(w, t); }
    case Hear(t, h) =>
      if t in w.threads && w.threads[t].stage.Waiting? && Heeds(w.pool, w.threads[t].stage.worker, h) { ListenedKeeps(w, t, h); }
    case BringIn(t) => if t in w.threads && w.threads[t].stage.Closing? { ReturnedKeeps(w, t); }
    case Mark(k, t, call) =>
      if t in w.threads && t in w.pool.slots && k !in w.strikes && w.threads[t].file == Some(call) {
        MarkKeeps(w, k, t, call);
      }
    case Hit(k) =>
      if k in w.strikes {
        StrikesAreFree(w, w.strikes - {k});
        if w.strikes[k].worker.Some? { DeathKeeps(w.(strikes := w.strikes - {k}), w.strikes[k].worker.value); }
      }
    case Die(x) => DeathKeeps(w, x);
    case Break(x) => BreakKeeps(w, x);
  }

  lemma {:induction false} EveryRunKeeps(steps: seq<Step>)
    ensures Inv(Exec(steps))
    decreases |steps|
  {
    hide Inv, Next;
    if steps == [] {
      assert Inv(Init()) by { InitIsOk(); }
    } else {
      EveryRunKeeps(steps[..|steps| - 1]);
      NextKeeps(Exec(steps[..|steps| - 1]), steps[|steps| - 1]);
    }
  }

  lemma InitIsOk()
    ensures Inv(Init())
  {
  }
}
