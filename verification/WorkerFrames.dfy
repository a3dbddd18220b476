// What one step of the worker protocol leaves alone: calls, workers and who uses them.

module WorkerFrames {
  import opened Prelude
  import opened WorkerPool
  import opened WorkerProtocol

  // Thread t is in the middle of call c.
  predicate InCallOf(w: World, t: Thread, c: Call) {
    t in w.threads && !w.threads[t].stage.Idle? && w.threads[t].stage.call == c
  }

  predicate Working(w: World, t: Thread, x: WorkerId) {
    t in w.threads && (w.threads[t].stage.Holding? || w.threads[t].stage.Waiting?) && w.threads[t].stage.worker == x
  }

  predicate UsesWorker(w: World, t: Thread, x: WorkerId) {
    t in w.threads && Uses(w.threads[t].stage) && w.threads[t].stage.worker == x
  }

  // The thread goes on with its call. Once cancelled, it stays so.
  predicate Continues(w: World, v: World, t: Thread)
    requires t in v.threads && !v.threads[t].stage.Idle?
  {
    && InCallOf(w, t, v.threads[t].stage.call)
    && w.threads[t].file == v.threads[t].file
    && (w.threads[t].cancelled == v.threads[t].cancelled || IsCancelled(v.threads[t]))
  }

  predicate Begins(w: World, v: World, t: Thread)
    requires t in v.threads && !v.threads[t].stage.Idle?
  {
    && v.threads[t].stage.call !in w.sent && v.threads[t].stage.call in v.sent
    && v.threads[t].stage.Trying?
  }

  ghost predicate CallsFrom(w: World, v: World) {
    && (forall c :: c in w.sent ==> c in v.sent)
    && w.marked <= v.marked
    && (forall t :: t in v.threads && !v.threads[t].stage.Idle? ==> Continues(w, v, t) || Begins(w, v, t))
  }

  // A worker that is new in a place was there before, or is a new worker.
  ghost predicate WorkersFrom(w: World, v: World) {
    && (forall x :: x in w.pool.workers ==> x in v.pool.workers)
    && (v.pool.pooled.Some? ==> v.pool.pooled == w.pool.pooled || v.pool.pooled.value !in w.pool.workers)
    && (forall t, x: WorkerId :: InSlot(v.pool.slots, t, x) ==> InSlot(w.pool.slots, t, x) || x !in w.pool.workers)
    && (forall t, x: WorkerId :: UsesWorker(v, t, x) ==>
          var mode := v.threads[t].stage.mode;
          (UsesWorker(w, t, x) && w.threads[t].stage.mode == mode) || (InSlot(w.pool.slots, t, x) && mode == Dedicated)
          || w.pool.pooled == Some(x) || x !in w.pool.workers)
  }

  // A worker at work does not die.
  ghost predicate AliveFrom(w: World, v: World) {
    forall t, x: WorkerId :: Working(v, t, x) && !Alive(v.pool, x) ==> Working(w, t, x) && !Alive(w.pool, x)
  }

  ghost predicate Frame(w: World, v: World) {
    CallsFrom(w, v) && WorkersFrom(w, v) && AliveFrom(w, v)
  }

  // ---------------------------------------------------------------- steps that change the pool

  // A checkout or a start.
  lemma {:induction false} MoveFrame(w: World, v: World, t: Thread, q: Pool, x: Option<WorkerId>)
    requires Inv(w) && t in w.threads && !w.threads[t].stage.Idle? && !Uses(w.threads[t].stage)
    requires Moves(w.pool, q, t, x)
    requires forall u :: u in w.threads && u != t && HoldsLock(w.threads[u].stage) ==>
               w.pool.locked && q.locked && q.pooled == w.pool.pooled
    requires v.pool in {q, q.(unavailable := true)} && v.sent == w.sent && v.marked == w.marked
    requires v.threads.Keys == w.threads.Keys && forall u :: u in w.threads && u != t ==> v.threads[u] == w.threads[u]
    requires v.threads[t] == AtRest || (v.threads[t] == w.threads[t].(stage := v.threads[t].stage)
               && !v.threads[t].stage.Idle? && v.threads[t].stage.call == w.threads[t].stage.call)
    requires Uses(v.threads[t].stage) <==> x.Some?
    requires x.Some? ==> x == Some(v.threads[t].stage.worker) && Obtained(w.pool, q, t, x.value, v.threads[t].stage.mode)
    ensures Frame(w, v)
  {
    MoveWorkers(w, v, t, q, x);
    MoveAlive(w, v, t, q, x);
  }

  lemma {:induction false} MoveWorkers(w: World, v: World, t: Thread, q: Pool, x: Option<WorkerId>)
    requires t in w.threads && Moves(w.pool, q, t, x)
    requires x.Some? ==> x.value in q.workers
    requires v.pool in {q, q.(unavailable := true)}
    requires v.threads.Keys == w.threads.Keys && forall u :: u in w.threads && u != t ==> v.threads[u] == w.threads[u]
    requires Uses(v.threads[t].stage) ==>
               x == Some(v.threads[t].stage.worker) && Obtained(w.pool, q, t, x.value, v.threads[t].stage.mode)
    ensures WorkersFrom(w, v)
  {
    assert v.pool.workers == q.workers && v.pool.slots == q.slots && v.pool.pooled == q.pooled;
  }

  lemma {:induction false} MoveAlive(w: World, v: World, t: Thread, q: Pool, x: Option<WorkerId>)
    requires Inv(w) && t in w.threads && !Uses(w.threads[t].stage) && Moves(w.pool, q, t, x)
    requires forall u :: u in w.threads && u != t && HoldsLock(w.threads[u].stage) ==>
               w.pool.locked && q.locked && q.pooled == w.pool.pooled
    requires v.pool in {q, q.(unavailable := true)}
    requires v.threads.Keys == w.threads.Keys && forall u :: u in w.threads && u != t ==> v.threads[u] == w.threads[u]
    requires Uses(v.threads[t].stage) ==>
               x == Some(v.threads[t].stage.worker) && Obtained(w.pool, q, t, x.value, v.threads[t].stage.mode)
    ensures AliveFrom(w, v)
  {
    LockHolders(w);
    hide Inv;
    forall u, y | Working(v, u, y) && !Alive(v.pool, y) ensures Working(w, u, y) && !Alive(w.pool, y) {
      if u != t {
        OthersUndisturbed(w.pool, q, w.threads, t, u, x);
        assert UseOk(q, u, w.threads[u].stage) && UseOk(w.pool, u, w.threads[u].stage);
      }
    }
  }

  lemma {:induction false} CheckoutFrame(w: World, t: Thread)
    requires Inv(w) && t in w.threads && w.threads[t].stage.Trying?
    ensures Frame(w, CheckedOut(w, t))
  {
    hide Inv, Begin, Frame, Moves, Obtained;
    var v := CheckedOut(w, t);
    if IsCancelled(w.threads[t]) {
      RestFrame(w, v, t);
    } else {
      LockHolders(w);
      BeginFacts(w.pool, t);
      var (q, b) := Begin(w.pool, t);
      MoveFrame(w, v, t, q, if b.Reused? then Some(b.worker) else None);
    }
  }

  lemma {:induction false} StartFrame(w: World, t: Thread, starts: bool)
    requires Inv(w) && t in w.threads && w.threads[t].stage.Starting?
    ensures Frame(w, StartEnded(w, t, starts))
  {
    hide Inv, FinishStart, Frame, Moves, Obtained;
    LockHolders(w);
    StartPlace(w, t);
    var mode := w.threads[t].stage.mode;
    FinishFacts(w.pool, t, mode, starts);
    var (q, r) := FinishStart(w.pool, t, mode, starts);
    MoveFrame(w, StartEnded(w, t, starts), t, q, if r.Got? then Some(r.worker) else None);
  }

  // The thread goes on with the worker it has, and no worker's life changes.
  lemma {:induction false} OwnFrame(w: World, v: World, t: Thread)
    requires t in w.threads && Uses(w.threads[t].stage) && w.threads[t].stage.worker in w.pool.workers
    requires t in v.threads && Uses(v.threads[t].stage) && v.threads[t] == w.threads[t].(stage := v.threads[t].stage)
    requires v.threads[t].stage.call == w.threads[t].stage.call && v.threads[t].stage.worker == w.threads[t].stage.worker
    requires v.threads[t].stage.mode == w.threads[t].stage.mode
    requires v.threads[t].stage.Closing? || w.threads[t].stage.Holding? || w.threads[t].stage.Waiting?
    requires v.threads == w.threads[t := v.threads[t]] && v.marked == w.marked && w.sent.Keys <= v.sent.Keys
    requires v.pool.slots == w.pool.slots && v.pool.pooled == w.pool.pooled && v.pool.workers.Keys == w.pool.workers.Keys
    requires forall x :: x in w.pool.workers ==> v.pool.workers[x].alive == w.pool.workers[x].alive
    ensures Frame(w, v)
  {
  }

  lemma {:induction false} SendFrame(w: World, t: Thread)
    requires Inv(w) && t in w.threads && w.threads[t].stage.Holding? && w.threads[t].stage.call in w.sent
    ensures Frame(w, Sent(w, t))
  {
    hide Inv, Frame;
    InCall(w, t);
    OwnFrame(w, Sent(w, t), t);
  }

  lemma ListenedLives(w: World, t: Thread, h: Heard)
    requires t in w.threads && w.threads[t].stage.Waiting?
    ensures var v := Listened(w, t, h);
      v.sent == w.sent && v.marked == w.marked
      && forall x :: x in w.pool.workers ==> x in v.pool.workers && v.pool.workers[x].alive == w.pool.workers[x].alive
  {
  }

  lemma {:induction false} HearFrame(w: World, t: Thread, h: Heard)
    requires Inv(w) && t in w.threads && w.threads[t].stage.Waiting?
    ensures Frame(w, Listened(w, t, h))
  {
    hide Inv, Frame, Listened, HeardPool, UseInv, CleanInv, CountInv, FileInv, LockInv, PoolOk;
    InCall(w, t);
    ListenedIs(w, t, h);
    ListenedLives(w, t, h);
    OwnFrame(w, Listened(w, t, h), t);
  }

  lemma {:induction false} BringFrame(w: World, t: Thread)
    requires Inv(w) && t in w.threads && w.threads[t].stage.Closing?
    ensures Frame(w, Returned(w, t))
  {
    hide Inv, Checkin, WorkersFrom, AliveFrom, UseInv, CleanInv, CountInv, FileInv, LockInv, PoolOk;
    InCall(w, t);
    var s := w.threads[t].stage;
    CheckinFacts(w.pool, t, s.worker, s.mode);
    BringWorkers(w, Returned(w, t), t);
    BringAlive(w, Returned(w, t), t);
  }

  lemma {:induction false} BringWorkers(w: World, v: World, t: Thread)
    requires t in w.threads && t in v.threads && v.threads == w.threads[t := v.threads[t]]
    requires !Uses(v.threads[t].stage) && v.pool.workers.Keys == w.pool.workers.Keys
    requires forall u, y :: InSlot(v.pool.slots, u, y) ==> InSlot(w.pool.slots, u, y)
    requires v.pool.pooled.Some? ==> v.pool.pooled == w.pool.pooled
    ensures WorkersFrom(w, v)
  {
  }

  lemma {:induction false} BringAlive(w: World, v: World, t: Thread)
    requires UseInv(w.pool, w.threads)
    requires t in w.threads && t in v.threads && v.threads == w.threads[t := v.threads[t]]
    requires Uses(w.threads[t].stage) && !Uses(v.threads[t].stage)
    requires SameAfterCheckin(w.pool, v.pool, w.threads[t].stage.worker)
    ensures AliveFrom(w, v)
  {
    forall u, y: WorkerId | Working(v, u, y) && !Alive(v.pool, y) ensures Working(w, u, y) && !Alive(w.pool, y) {
      assert !Shares(w.threads, t, u);
      assert UseOk(w.pool, u, w.threads[u].stage);
    }
  }

  // ---------------------------------------------------------------- the other steps

  // Nothing happens to workers; one thread comes to rest.
  lemma {:induction false} RestFrame(w: World, v: World, t: Thread)
    requires v.threads == w.threads[t := AtRest] && v.pool == w.pool && v.sent == w.sent && v.marked == w.marked
    ensures Frame(w, v)
  {
  }

  lemma {:induction false} StartsFrame(w: World, t: Thread, call: Call)
    requires t in w.threads && w.threads[t].stage.Idle? && call !in w.sent
    ensures Frame(w, Next(w, Start(t, call)))
  {
  }

  lemma {:induction false} MarkFrame(w: World, k: nat, t: Thread, call: Call)
    ensures Frame(w, Next(w, Mark(k, t, call)))
  {
  }

  lemma {:induction false} EnterFrame(w: World, t: Thread)
    ensures Frame(w, Next(w, Enter(t)))
  {
  }

  lemma {:induction false} LeaveFrame(w: World, t: Thread)
    requires Inv(w) && t in w.threads && w.threads[t].stage.Idle?
    ensures Frame(w, w.(pool := Left(w.pool, t)))
  {
    LockHolders(w);
    hide Inv;
    var v := w.(pool := Left(w.pool, t));
    forall u, y: WorkerId | InSlot(v.pool.slots, u, y) ensures InSlot(w.pool.slots, u, y) {
    }
    forall u, y: WorkerId | Working(v, u, y) && !Alive(v.pool, y) ensures Working(w, u, y) && !Alive(w.pool, y) {
      assert UseOk(w.pool, u, w.threads[u].stage);
      assert !InSlot(w.pool.slots, t, y);
    }
  }

  lemma {:induction false} SameFrame(w: World)
    ensures Frame(w, w)
  {
  }

  lemma {:induction false} BreakFrame(w: World, x: WorkerId)
    ensures Frame(w, Next(w, Break(x)))
  {
  }

  // A death leaves everything but one worker's life.
  lemma {:induction false} DeathFrame(w: World, v: World, x: WorkerId)
    requires v.pool == w.pool.(workers := Killed(w.pool.workers, x))
    requires v.threads == w.threads && v.sent == w.sent && v.marked == w.marked
    ensures CallsFrom(w, v) && WorkersFrom(w, v)
    ensures forall t, y: WorkerId :: Working(v, t, y) && !Alive(v.pool, y) && y != x ==> Working(w, t, y) && !Alive(w.pool, y)
  {
  }

  lemma {:induction false} HitFrame(w: World, k: nat)
    ensures var v := Next(w, Hit(k)); CallsFrom(w, v) && WorkersFrom(w, v)
  {
    if k in w.strikes && w.strikes[k].worker.Some? {
      DeathFrame(w, Next(w, Hit(k)), w.strikes[k].worker.value);
    } else {
      SameFrame(w);
    }
  }

  lemma {:induction false} StepFrame(w: World, step: Step)
    requires Inv(w)
    ensures CallsFrom(w, Next(w, step)) && WorkersFrom(w, Next(w, step))
    ensures !step.Hit? && !step.Die? ==> AliveFrom(w, Next(w, step))
  {
    hide Inv, CheckedOut, StartEnded, Heeds, Sent, Listened, Returned, Left, CallsFrom, WorkersFrom, AliveFrom;
    SameFrame(w);
    match step
    case Spawn(t) => if t !in w.threads { RestFrame(w, Next(w, step), t); }
    case Enter(t) => EnterFrame(w, t);
    case Leave(t) => if t in w.threads && w.threads[t].stage.Idle? { LeaveFrame(w, t); }
    case Start(t, call) => if t in w.threads && w.threads[t].stage.Idle? && call !in w.sent { StartsFrame(w, t, call); }
    case TryCheckout(t) => if t in w.threads && w.threads[t].stage.Trying? { CheckoutFrame(w, t); }
    case StartEnds(t, starts) => if t in w.threads && w.threads[t].stage.Starting? { StartFrame(w, t, starts); }
    case Send(t) =>
      if t in w.threads && w.threads[t].stage.Holding? && w.threads[t].stage.call in w.sent { SendFrame(w, t); }
    case Hear(t, h) =>
      if t in w.threads && w.threads[t].stage.Waiting? && Heeds(w.pool, w.threads[t].stage.worker, h) { HearFrame(w, t, h); }
    case BringIn(t) => if t in w.threads && w.threads[t].stage.Closing? { BringFrame(w, t); }
    case Mark(k, t, call) => MarkFrame(w, k, t, call);
    case Hit(k) => HitFrame(w, k);
    case Die(x) => DeathFrame(w, Next(w, step), x);
    case Break(x) => BreakFrame(w, x);
  }

  // ---------------------------------------------------------------- broken workers and crashed calls

  ghost predicate BrokenFrom(p: Pool, q: Pool) {
    forall x :: x in q.workers && q.workers[x].broken ==> x in p.workers && p.workers[x].broken
  }

  lemma BeginBreaksNothing(p: Pool, t: Thread)
    ensures BrokenFrom(p, Begin(p, t).0)
  {
  }

  lemma FinishBreaksNothing(p: Pool, t: Thread, mode: Mode, starts: bool)
    ensures BrokenFrom(p, FinishStart(p, t, mode, starts).0)
  {
  }

  lemma CheckinBreaksNothing(p: Pool, t: Thread, x: WorkerId, mode: Mode)
    ensures BrokenFrom(p, Checkin(p, t, x, mode))
  {
  }

  lemma LeaveBreaksNothing(p: Pool, t: Thread)
    ensures BrokenFrom(p, Left(p, t))
  {
  }

  lemma HearBreaksNothing(w: World, t: Thread, h: Heard)
    requires t in w.threads && w.threads[t].stage.Waiting?
    ensures BrokenFrom(w.pool, Listened(w, t, h).pool)
  {
  }

  lemma {:induction false} StepBreaksNothing(w: World, step: Step)
    requires !step.Break?
    ensures BrokenFrom(w.pool, Next(w, step).pool)
  {
    hide Begin, FinishStart, Checkin, Left, Listened, Heeds;
    match step
    case TryCheckout(t) => BeginBreaksNothing(w.pool, t);
    case StartEnds(t, starts) =>
      if t in w.threads && w.threads[t].stage.Starting? { FinishBreaksNothing(w.pool, t, w.threads[t].stage.mode, starts); }
    case BringIn(t) =>
      if t in w.threads && w.threads[t].stage.Closing? {
        CheckinBreaksNothing(w.pool, t, w.threads[t].stage.worker, w.threads[t].stage.mode);
      }
    case Leave(t) => LeaveBreaksNothing(w.pool, t);
    case Hear(t, h) => if t in w.threads && w.threads[t].stage.Waiting? { HearBreaksNothing(w, t, h); }
    case _ =>
  }

  predicate CrashedCall(w: World, c: Call) { c in w.ends && w.ends[c] == Finished(Crashed) }

  // What a thread hears when a call crashes.
  predicate HearsCrash(w: World, step: Step, c: Call) {
    step.Hear? && InCallOf(w, step.t, c) && w.threads[step.t].stage.Waiting? && !IsCancelled(w.threads[step.t])
    && Heeds(w.pool, w.threads[step.t].stage.worker, step.heard)
    && (step.heard.Gone? || step.heard.Unknown? || step.heard == Failure(true))
  }

  lemma {:induction false} CrashIsHeard(w: World, step: Step, c: Call)
    requires CrashedCall(Next(w, step), c)
    ensures CrashedCall(w, c) || HearsCrash(w, step, c)
  {
    hide Begin, FinishStart, Checkin, Left, HeardPool;
  }

  lemma StrikesFrom(w: World, step: Step, k: nat)
    requires k in Next(w, step).strikes
    ensures (k in w.strikes && Next(w, step).strikes[k] == w.strikes[k]) || (step.Mark? && step.k == k && k !in w.strikes)
  {
    hide Begin, FinishStart, Checkin, Left, HeardPool, OnHeard;
  }

  lemma StrikesStay(w: World, step: Step, k: nat)
    requires k in w.strikes && step != Hit(k)
    ensures k in Next(w, step).strikes && Next(w, step).strikes[k] == w.strikes[k]
  {
    hide Begin, FinishStart, Checkin, Left, HeardPool, OnHeard;
  }
}
