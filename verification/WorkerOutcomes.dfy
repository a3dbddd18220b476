// How files end: what each message of a worker leads to, the one resend, and that a file is
// analysed when nothing fails.

module WorkerOutcomes {
  import opened Prelude
  import opened WorkerPool
  import opened WorkerProtocol
  import opened WorkerFrames
  import opened WorkerTheorems

  predicate Waits(w: World, t: Thread) { t in w.threads && w.threads[t].stage.Waiting? }

  // What a file ends as once the thread hears this. None: it is not over yet.
  function EndHeard(accepted: bool, attempt: nat, cancelled: bool, h: Heard): Option<End> {
    if h.Accepted? || h.Progress? then None
    else if h == Success(true) then Some(Finished(Result))
    else if h.Gone? && !accepted && attempt == 1 then None
    else if cancelled then Some(Cancelled)
    else
      Some(Finished(
        if h.TimedOut? then TimeLimit
        else if h == Success(false) || h == Failure(false) then Failed
        else Crashed))
  }

  // A thread that hears its worker ends its file as that says, or goes on listening, or sends the
  // file once more: that is what it does exactly when the worker vanished before it accepted the
  // file's first request. Only an answer to a file that is not given up leaves the worker for reuse.
  lemma {:induction false} HearingEnds(steps: seq<Step>, t: Thread, h: Heard)
    requires var w := Exec(steps); Waits(w, t) && Heeds(w.pool, w.threads[t].stage.worker, h)
    ensures var w := Exec(steps);
      var s := w.threads[t].stage;
      var v := Next(w, Hear(t, h));
      var end := EndHeard(s.accepted, s.attempt, IsCancelled(w.threads[t]), h);
      var resends := h.Gone? && !s.accepted && s.attempt == 1;
      && v.ends == (if end.Some? then w.ends[s.call := end.value] else w.ends)
      && v.sent == w.sent
      && v.threads == w.threads[t := w.threads[t].(stage := v.threads[t].stage)]
      && (Waits(v, t) <==> h.Accepted? || h.Progress?)
      && (Waits(v, t) ==> v.threads[t].stage == s.(accepted := s.accepted || h.Accepted?))
      && (!Waits(v, t) ==> v.threads[t].stage == Closing(s.call, s.worker, s.mode, resends))
      && s.worker in v.pool.workers
      && (v.pool.workers[s.worker].healthy <==>
            h == Success(true) || (h in {Success(false), Failure(false)} && !IsCancelled(w.threads[t])))
  {
    hide Exec, Inv;
    EveryRunKeeps(steps);
    InCall(Exec(steps), t);
    HeardEnds(Exec(steps), t, h);
  }

  lemma {:induction false} HeardEnds(w: World, t: Thread, h: Heard)
    requires Waits(w, t) && w.threads[t].stage.worker in w.pool.workers && CleanOk(w.pool, w.threads[t].stage)
    ensures var s := w.threads[t].stage;
      var v := Listened(w, t, h);
      var end := EndHeard(s.accepted, s.attempt, IsCancelled(w.threads[t]), h);
      var resends := h.Gone? && !s.accepted && s.attempt == 1;
      && v.ends == (if end.Some? then w.ends[s.call := end.value] else w.ends)
      && v.sent == w.sent
      && v.threads == w.threads[t := w.threads[t].(stage := v.threads[t].stage)]
      && (Waits(v, t) <==> h.Accepted? || h.Progress?)
      && (Waits(v, t) ==> v.threads[t].stage == s.(accepted := s.accepted || h.Accepted?))
      && (!Waits(v, t) ==> v.threads[t].stage == Closing(s.call, s.worker, s.mode, resends))
      && s.worker in v.pool.workers
      && (v.pool.workers[s.worker].healthy <==>
            h == Success(true) || (h in {Success(false), Failure(false)} && !IsCancelled(w.threads[t])))
  {
  }

  // ---------------------------------------------------------------- the one resend

  // A request whose worker vanished before accepting it is tried again: once, with the worker
  // checked in and another one checked out.
  lemma {:induction false} VanishedIsTriedAgain(steps: seq<Step>, t: Thread)
    requires var w := Exec(steps); Waits(w, t) && Heeds(w.pool, w.threads[t].stage.worker, Gone) && !w.threads[t].stage.accepted
    ensures var w := Exec(steps);
      var s := w.threads[t].stage;
      var heard := Next(w, Hear(t, Gone));
      var back := Next(heard, BringIn(t));
      if s.attempt == 1
      then heard.ends == back.ends == w.ends && back.threads[t] == w.threads[t].(stage := Trying(s.call, 2))
      else
        && s.attempt == 2 && s.call in w.sent && w.sent[s.call] == 2
        && back.ends == w.ends[s.call := if IsCancelled(w.threads[t]) then Cancelled else Finished(Crashed)]
        && back.threads[t] == AtRest
  {
    hide Exec, Inv, Listened;
    EveryRunKeeps(steps);
    InCall(Exec(steps), t);
    HearingEnds(steps, t, Gone);
  }

  // The thread heard a broken message, or a crash report, while it was in this call.
  ghost predicate HeardBroken(steps: seq<Step>, c: Call) {
    exists n :: 0 <= n < |steps| && steps[n].Hear? && steps[n].heard in {Unknown, Failure(true)}
      && InCallOf(Exec(steps[..n]), steps[n].t, c)
  }

  // A file ends as crashed only if a worker had accepted it, or it was sent twice, or the worker
  // sent something broken or reported the crash itself.
  lemma {:induction false} CrashesAreEarned(steps: seq<Step>, c: Call)
    requires CrashedCall(Exec(steps), c)
    ensures var w := Exec(steps);
      c in w.accepted || (c in w.sent && w.sent[c] == 2) || HeardBroken(steps, c)
    decreases |steps|
  {
    hide Exec, Next, HeardBroken, Heeds;
    if steps == [] {
      assert Exec(steps) == Init() by { NothingRun(steps); }
    } else {
      var n := |steps| - 1;
      var less, step := steps[..n], steps[n];
      assert steps == less + [step];
      var w := Exec(less);
      ExecLast(steps);
      CrashIsHeard(w, step, c);
      if CrashedCall(w, c) {
        CrashesAreEarned(less, c);
        if HeardBroken(less, c) { BrokenStays(less, step, c); }
        CountsGrow(less, step, c);
      } else if step.heard.Gone? {
        SecondAttempt(less, step.t, c);
      } else {
        BrokenNow(steps, c);
      }
    }
  }

  lemma NothingRun(steps: seq<Step>)
    requires steps == []
    ensures Exec(steps) == Init()
  {
  }

  lemma ExecLast(steps: seq<Step>)
    requires steps != []
    ensures Exec(steps) == Next(Exec(steps[..|steps| - 1]), steps[|steps| - 1])
  {
  }

  lemma {:induction false} BrokenStays(steps: seq<Step>, step: Step, c: Call)
    requires HeardBroken(steps, c)
    ensures HeardBroken(steps + [step], c)
  {
    hide Exec, InCallOf;
    var n :| 0 <= n < |steps| && steps[n].Hear? && steps[n].heard in {Unknown, Failure(true)}
      && InCallOf(Exec(steps[..n]), steps[n].t, c);
    var more := steps + [step];
    assert more[..n] == steps[..n] && more[n] == steps[n];
  }

  lemma {:induction false} BrokenNow(steps: seq<Step>, c: Call)
    requires steps != []
    requires var n := |steps| - 1;
      steps[n].Hear? && steps[n].heard in {Unknown, Failure(true)} && InCallOf(Exec(steps[..n]), steps[n].t, c)
    ensures HeardBroken(steps, c)
  {
    hide Exec, InCallOf;
  }

  lemma {:induction false} CountsGrow(steps: seq<Step>, step: Step, c: Call)
    ensures c in Exec(steps).accepted ==> c in Next(Exec(steps), step).accepted
    ensures c in Exec(steps).sent && Exec(steps).sent[c] == 2 ==>
      c in Next(Exec(steps), step).sent && Next(Exec(steps), step).sent[c] == 2
  {
    hide Exec, Inv, CheckedOut, StartEnded, Returned, Left;
    EveryRunKeeps(steps);
    EveryRunKeeps(steps + [step]);
    var w := Exec(steps);
    assert Exec(steps + [step]) == Next(w, step) by { assert (steps + [step])[..|steps|] == steps; ExecLast(steps + [step]); }
    AcceptedGrows(w, step, c);
    if c in w.sent && w.sent[c] == 2 { SentTwiceStays(w, step, c); }
  }

  lemma AcceptedGrows(w: World, step: Step, c: Call)
    ensures c in w.accepted ==> c in Next(w, step).accepted
  {
    hide Begin, FinishStart, Checkin, Left, HeardPool;
  }

  lemma {:induction false} SentTwiceStays(w: World, step: Step, c: Call)
    requires Inv(w) && c in w.sent && w.sent[c] == 2
    ensures c in Next(w, step).sent && Next(w, step).sent[c] == 2
  {
    hide Inv, CheckedOut, StartEnded, Listened, Returned, Left;
    if step.Send? && step.t in w.threads && w.threads[step.t].stage.Holding? { InCall(w, step.t); }
    SentOnlyBySend(w, step);
  }

  lemma {:induction false} SecondAttempt(steps: seq<Step>, t: Thread, c: Call)
    requires var w := Exec(steps); HearsCrash(w, Hear(t, Gone), c)
    requires CrashedCall(Next(Exec(steps), Hear(t, Gone)), c) && !CrashedCall(Exec(steps), c)
    ensures var w := Next(Exec(steps), Hear(t, Gone)); c in w.accepted || (c in w.sent && w.sent[c] == 2)
  {
    hide Exec, Inv, Listened;
    EveryRunKeeps(steps);
    var w := Exec(steps);
    InCall(w, t);
    HearingEnds(steps, t, Gone);
    if w.threads[t].stage.accepted { AcceptedGrows(w, Hear(t, Gone), c); }
  }

  // ---------------------------------------------------------------- a file ends once

  predicate Open(s: Stage) { !s.Idle? && (s.Closing? ==> s.again) }

  // No file a thread still works on has ended, and only files that were started have.
  ghost predicate EndInv(w: World) {
    && (forall t :: t in w.threads && Open(w.threads[t].stage) ==> w.threads[t].stage.call !in w.ends)
    && (forall c :: c in w.ends ==> c in w.sent)
  }

  // What a step may do to the ends: nothing, or end the file that one thread works on.
  predicate EndsOne(w: World, v: World, t: Thread) {
    t in w.threads && Open(w.threads[t].stage) && t in v.threads && !Open(v.threads[t].stage)
    && w.threads[t].stage.call in v.ends && v.ends == w.ends[w.threads[t].stage.call := v.ends[w.threads[t].stage.call]]
  }

  // Threads go on with their calls, and at most thread t's ends.
  ghost predicate EndsFrom(w: World, v: World, t: Thread) {
    && (v.ends == w.ends || EndsOne(w, v, t))
    && (forall c :: c in w.sent ==> c in v.sent)
    && (forall u :: u in v.threads && Open(v.threads[u].stage) ==>
          (u in w.threads && Open(w.threads[u].stage) && w.threads[u].stage.call == v.threads[u].stage.call)
          || v.threads[u].stage.call !in w.sent)
  }

  lemma {:induction false} CheckoutEnds(w: World, t: Thread)
    requires t in w.threads && w.threads[t].stage.Trying?
    ensures EndsFrom(w, CheckedOut(w, t), t)
  {
    hide Begin;
  }

  lemma {:induction false} StartEndsFile(w: World, t: Thread, starts: bool)
    requires t in w.threads && w.threads[t].stage.Starting?
    ensures EndsFrom(w, StartEnded(w, t, starts), t)
  {
    hide FinishStart;
  }

  lemma {:induction false} SendEnds(w: World, t: Thread)
    requires t in w.threads && w.threads[t].stage.Holding? && w.threads[t].stage.call in w.sent
    ensures EndsFrom(w, Sent(w, t), t)
  {
  }

  lemma {:induction false} HearEnds(w: World, t: Thread, h: Heard)
    requires t in w.threads && w.threads[t].stage.Waiting?
    ensures EndsFrom(w, Listened(w, t, h), t)
  {
    hide HeardPool;
  }

  lemma {:induction false} BringEnds(w: World, t: Thread)
    requires t in w.threads && w.threads[t].stage.Closing?
    ensures EndsFrom(w, Returned(w, t), t)
  {
    hide Checkin;
  }

  lemma {:induction false} OtherEnds(w: World, v: World, t: Thread)
    requires v.ends == w.ends && v.sent == w.sent && w.threads.Keys <= v.threads.Keys
    requires forall u :: u in w.threads ==> v.threads[u].stage == w.threads[u].stage
    requires forall u :: u in v.threads && u !in w.threads ==> v.threads[u].stage.Idle?
    ensures EndsFrom(w, v, t)
  {
  }

  function Actor(step: Step): Thread {
    match step
    case TryCheckout(t) => t
    case StartEnds(t, _) => t
    case Send(t) => t
    case Hear(t, _) => t
    case BringIn(t) => t
    case _ => 0
  }

  lemma {:induction false} StepEnds(w: World, step: Step)
    ensures EndsFrom(w, Next(w, step), Actor(step))
  {
    hide EndsFrom, CheckedOut, StartEnded, Sent, Listened, Returned, Heeds, Left;
    OtherEnds(w, w, Actor(step));
    match step
    case TryCheckout(t) => if t in w.threads && w.threads[t].stage.Trying? { CheckoutEnds(w, t); }
    case StartEnds(t, starts) => if t in w.threads && w.threads[t].stage.Starting? { StartEndsFile(w, t, starts); }
    case Send(t) =>
      if t in w.threads && w.threads[t].stage.Holding? && w.threads[t].stage.call in w.sent { SendEnds(w, t); }
    case Hear(t, h) =>
      if t in w.threads && w.threads[t].stage.Waiting? && Heeds(w.pool, w.threads[t].stage.worker, h) { HearEnds(w, t, h); }
    case BringIn(t) => if t in w.threads && w.threads[t].stage.Closing? { BringEnds(w, t); }
    case Start(t, call) => if t in w.threads && w.threads[t].stage.Idle? && call !in w.sent { BeginEnds(w, t, call); }
    case _ => OtherEnds(w, Next(w, step), Actor(step));
  }

  lemma {:induction false} BeginEnds(w: World, t: Thread, call: Call)
    requires t in w.threads && w.threads[t].stage.Idle? && call !in w.sent
    ensures EndsFrom(w, Next(w, Start(t, call)), 0)
  {
  }

  lemma {:induction false} EndsKeep(w: World, v: World, t: Thread)
    requires EndInv(w) && CountInv(w.sent, w.accepted, w.threads) && EndsFrom(w, v, t)
    requires CountInv(v.sent, v.accepted, v.threads)
    ensures EndInv(v)
    ensures forall c :: c in w.ends ==> c in v.ends && v.ends[c] == w.ends[c]
  {
    if EndsOne(w, v, t) { assert CountOk(w.sent, w.accepted, w.threads[t].stage); }
    forall u | u in v.threads && Open(v.threads[u].stage) ensures v.threads[u].stage.call !in v.ends {
      if v.ends != w.ends && u != t && u in w.threads && Open(w.threads[u].stage) {
        assert w.threads[u].stage.call != w.threads[t].stage.call;
      }
    }
  }

  lemma CountsOf(w: World)
    requires Inv(w)
    ensures CountInv(w.sent, w.accepted, w.threads)
  {
  }

  lemma {:induction false} EndsHold(steps: seq<Step>)
    ensures EndInv(Exec(steps))
    decreases |steps|
  {
    hide Exec, Next, Inv, CountInv, EndInv, EndsFrom;
    if steps == [] {
      NothingRun(steps);
      assert EndInv(Init()) by { NothingEnded(); }
    } else {
      var less, step := steps[..|steps| - 1], steps[|steps| - 1];
      EndsHold(less);
      ExecLast(steps);
      EveryRunKeeps(less);
      EveryRunKeeps(steps);
      CountsOf(Exec(less));
      CountsOf(Exec(steps));
      StepEnds(Exec(less), step);
      EndsKeep(Exec(less), Exec(steps), Actor(step));
    }
  }

  lemma NothingEnded()
    ensures EndInv(Init())
  {
  }

  // However a file ends, that stays its end: no step ends it again.
  lemma {:induction false} FilesEndOnce(steps: seq<Step>, step: Step, c: Call)
    requires c in Exec(steps).ends
    ensures c in Next(Exec(steps), step).ends && Next(Exec(steps), step).ends[c] == Exec(steps).ends[c]
  {
    hide Exec, Next, Inv, CountInv, EndInv, EndsFrom;
    var w := Exec(steps);
    EndsHold(steps);
    EveryRunKeeps(steps);
    CountsOf(w);
    NextKeeps(w, step);
    CountsOf(Next(w, step));
    StepEnds(w, step);
    EndsKeep(w, Next(w, step), Actor(step));
  }

  // ---------------------------------------------------------------- whose worker it is

  // The worker in a thread's slot, and the one it uses, were started by that thread.
  ghost predicate OwnWorkers(w: World) {
    && (forall t, x: WorkerId :: InSlot(w.pool.slots, t, x) ==> x in w.pool.workers && w.pool.workers[x].creator == t)
    && (forall t, x: WorkerId :: UsesWorker(w, t, x) ==> x in w.pool.workers && w.pool.workers[x].creator == t)
  }

  ghost predicate SameCreators(p: Pool, q: Pool) {
    forall x :: x in p.workers ==> x in q.workers && q.workers[x].creator == p.workers[x].creator
  }

  // Workers keep their creators, and what is new in a slot or in use was started by its thread.
  lemma {:induction false} OwnersStay(w: World, v: World, t: Thread, x: Option<WorkerId>)
    requires OwnWorkers(w) && SameCreators(w.pool, v.pool)
    requires forall u, y: WorkerId :: InSlot(v.pool.slots, u, y) ==> InSlot(w.pool.slots, u, y) || (u == t && x == Some(y))
    requires forall u, y: WorkerId :: UsesWorker(v, u, y) ==> UsesWorker(w, u, y) || (u == t && x == Some(y))
    requires x.Some? ==> x.value in v.pool.workers && v.pool.workers[x.value].creator == t
    ensures OwnWorkers(v)
  {
  }

  lemma {:induction false} BeginOwner(p: Pool, t: Thread)
    requires forall x: WorkerId :: InSlot(p.slots, t, x) ==> x in p.workers && p.workers[x].creator == t
    ensures var (q, b) := Begin(p, t);
      && SameCreators(p, q) && (forall u, y: WorkerId :: InSlot(q.slots, u, y) ==> InSlot(p.slots, u, y))
      && (b.Reused? ==> b.worker in q.workers && q.workers[b.worker].creator == t)
  {
    if t in p.slots && p.slots[t].Some? { assert InSlot(p.slots, t, p.slots[t].value); }
  }

  lemma {:induction false} FinishOwner(p: Pool, t: Thread, mode: Mode, starts: bool)
    requires PoolOk(p)
    ensures var (q, r) := FinishStart(p, t, mode, starts);
      && SameCreators(p, q)
      && (forall u, y: WorkerId :: InSlot(q.slots, u, y) ==>
            InSlot(p.slots, u, y) || (u == t && r.Got? && y == r.worker))
      && (r.Got? ==> r.worker in q.workers && q.workers[r.worker].creator == t)
  {
  }

  lemma CheckinOwner(p: Pool, t: Thread, x: WorkerId, mode: Mode)
    ensures var q := Checkin(p, t, x, mode);
      SameCreators(p, q) && forall u, y: WorkerId :: InSlot(q.slots, u, y) ==> InSlot(p.slots, u, y)
  {
  }

  lemma {:induction false} CheckoutOwns(w: World, t: Thread)
    requires OwnWorkers(w) && t in w.threads && w.threads[t].stage.Trying?
    ensures OwnWorkers(CheckedOut(w, t))
  {
    BeginOwner(w.pool, t);
    hide Begin, OwnWorkers;
    var b := Begin(w.pool, t).1;
    OwnersStay(w, CheckedOut(w, t), t, if !IsCancelled(w.threads[t]) && b.Reused? then Some(b.worker) else None);
  }

  lemma {:induction false} StartOwns(w: World, t: Thread, starts: bool)
    requires Inv(w) && OwnWorkers(w) && t in w.threads && w.threads[t].stage.Starting?
    ensures OwnWorkers(StartEnded(w, t, starts))
  {
    LockHolders(w);
    hide FinishStart, OwnWorkers, Inv;
    var mode := w.threads[t].stage.mode;
    FinishOwner(w.pool, t, mode, starts);
    var r := FinishStart(w.pool, t, mode, starts).1;
    OwnersStay(w, StartEnded(w, t, starts), t, if r.Got? then Some(r.worker) else None);
  }

  lemma {:induction false} BringOwns(w: World, t: Thread)
    requires OwnWorkers(w) && t in w.threads && w.threads[t].stage.Closing?
    ensures OwnWorkers(Returned(w, t))
  {
    hide Checkin, OwnWorkers;
    CheckinOwner(w.pool, t, w.threads[t].stage.worker, w.threads[t].stage.mode);
    OwnersStay(w, Returned(w, t), t, None);
  }

  // A step that keeps creators and slots, and gives no thread a worker.
  predicate MovesOn(step: Step) { step.Send? || step.Hear? }

  lemma {:induction false} MovesOwn(w: World, step: Step)
    requires OwnWorkers(w) && MovesOn(step)
    ensures OwnWorkers(Next(w, step))
  {
    hide OwnWorkers;
    OwnersStay(w, Next(w, step), 0, None);
  }

  lemma {:induction false} LeaveOwns(w: World, t: Thread)
    requires OwnWorkers(w)
    ensures OwnWorkers(w.(pool := Left(w.pool, t)))
  {
    hide OwnWorkers;
    OwnersStay(w, w.(pool := Left(w.pool, t)), 0, None);
  }

  lemma {:induction false} OthersOwn(w: World, step: Step)
    requires OwnWorkers(w) && !step.TryCheckout? && !step.StartEnds? && !step.BringIn? && !MovesOn(step) && !step.Leave?
    ensures OwnWorkers(Next(w, step))
  {
    hide OwnWorkers, CheckedOut, StartEnded, Returned, Sent, Listened, Left, Heeds;
    OwnersStay(w, Next(w, step), 0, None);
  }

  lemma {:induction false} StepOwns(w: World, step: Step)
    requires Inv(w) && OwnWorkers(w)
    ensures OwnWorkers(Next(w, step))
  {
    hide Inv, OwnWorkers, CheckedOut, StartEnded, Returned, Sent, Listened, Left, Heeds;
    match step
    case TryCheckout(t) => if t in w.threads && w.threads[t].stage.Trying? { CheckoutOwns(w, t); }
    case StartEnds(t, starts) => if t in w.threads && w.threads[t].stage.Starting? { StartOwns(w, t, starts); }
    case BringIn(t) => if t in w.threads && w.threads[t].stage.Closing? { BringOwns(w, t); }
    case Send(t) => MovesOwn(w, step);
    case Hear(t, h) => MovesOwn(w, step);
    case Leave(t) => if t in w.threads && w.threads[t].stage.Idle? { LeaveOwns(w, t); }
    case _ => OthersOwn(w, step);
  }

  // A thread only ever uses workers it started itself: they stop when their starter exits.
  lemma {:induction false} OnlyStartersUse(steps: seq<Step>)
    ensures OwnWorkers(Exec(steps))
    decreases |steps|
  {
    hide Exec, Next, Inv, OwnWorkers;
    if steps == [] {
      NothingRun(steps);
      assert OwnWorkers(Init()) by { NothingOwned(); }
    } else {
      var less := steps[..|steps| - 1];
      OnlyStartersUse(less);
      EveryRunKeeps(less);
      ExecLast(steps);
      StepOwns(Exec(less), steps[|steps| - 1]);
    }
  }

  lemma NothingOwned()
    ensures OwnWorkers(Init())
  {
  }

  // ---------------------------------------------------------------- analysing a file

  // A worker that answered well serves its thread's next file, without another start.
  lemma {:induction false} HealthyIsReused(steps: seq<Step>, t: Thread, call: Call)
    requires var w := Exec(steps);
      t in w.threads && w.threads[t].stage.Closing? && !w.threads[t].stage.again && w.threads[t].stage.mode != OneOff
      && call !in w.sent
    requires var w := Exec(steps);
      var x := w.threads[t].stage.worker;
      Alive(w.pool, x) && w.pool.workers[x].healthy
    ensures var w := Exec(steps);
      var s := w.threads[t].stage;
      var v := Next(Next(Next(w, BringIn(t)), Start(t, call)), TryCheckout(t));
      t in v.threads && v.threads[t].stage == Holding(call, 1, s.worker, s.mode) && v.pool.next == w.pool.next
  {
    hide Exec, Inv;
    EveryRunKeeps(steps);
    OnlyStartersUse(steps);
    var w := Exec(steps);
    InCall(w, t);
    var s := w.threads[t].stage;
    assert UsesWorker(w, t, s.worker);
    var w1 := Next(w, BringIn(t));
    BringsBack(w, t);
    var w2 := Next(w1, Start(t, call));
    assert w2.threads[t].stage == Trying(call, 1) && !IsCancelled(w2.threads[t]) && w2.pool == w1.pool;
    Reuses(w2.pool, t, s.worker, s.mode);
  }

  // A start that fails is the last: from then on the process starts no worker. A file then finds a
  // worker that is still there, or is analysed in this process.
  lemma {:induction false} FailedStartsAreFinal(steps: seq<Step>, t: Thread)
    requires var w := Exec(steps); t in w.threads
    ensures var w := Exec(steps);
      w.threads[t].stage.Starting? ==>
        var v := Next(w, StartEnds(t, false));
        v.pool.unavailable && v.threads[t] == AtRest
        && v.ends == w.ends[w.threads[t].stage.call := if IsCancelled(w.threads[t]) then Cancelled else InProcess]
    ensures var w := Exec(steps);
      w.pool.unavailable && w.threads[t].stage.Trying? && !IsCancelled(w.threads[t]) ==>
        var v := Next(w, TryCheckout(t));
        v.pool.unavailable && v.pool.next == w.pool.next
        && (v.threads[t].stage.Holding?
            || (v.threads[t] == AtRest && v.ends == w.ends[w.threads[t].stage.call := InProcess]))
  {
    hide Exec;
    var w := Exec(steps);
    OnlyReuses(w.pool, t);
    hide Begin;
  }

  lemma OnlyReuses(p: Pool, t: Thread)
    ensures Begin(p, t).0.next == p.next && Begin(p, t).0.unavailable == p.unavailable
    ensures p.unavailable ==> !Begin(p, t).1.ToStart?
  {
  }

  lemma {:induction false} BringsBack(w: World, t: Thread)
    requires t in w.threads && w.threads[t].stage.Closing? && UseOk(w.pool, t, w.threads[t].stage)
    requires w.threads[t].stage.mode != OneOff && !w.threads[t].stage.again
    requires w.threads[t].stage.worker in w.pool.workers && w.pool.workers[w.threads[t].stage.worker].healthy
    ensures var s := w.threads[t].stage;
      var v := Next(w, BringIn(t));
      && v.threads == w.threads[t := AtRest] && v.sent == w.sent
      && v.pool == w.pool.(locked := w.pool.locked && s.mode != Pooled)
  {
  }

  lemma {:induction false} Reuses(p: Pool, t: Thread, x: WorkerId, mode: Mode)
    requires Alive(p, x) && mode != OneOff
    requires t in p.slots <==> mode == Dedicated
    requires mode == Dedicated ==> p.slots[t] == Some(x)
    requires mode == Pooled ==> !p.locked && p.pooled == Some(x) && p.workers[x].creator == t
    ensures Begin(p, t).1 == Reused(x, mode) && Begin(p, t).0.next == p.next
  {
  }

  // In every reachable state a thread at rest has a new file analysed: it finds or starts a worker,
  // sends the file once, and ends it with its result. The worker stops only if it was made for it.
  lemma {:induction false} FilesAreAnalysed(steps: seq<Step>, t: Thread, call: Call)
    requires var w := Exec(steps);
      t in w.threads && w.threads[t].stage.Idle? && call !in w.sent && !w.pool.unavailable
    ensures var w := Exec(steps);
      var v := Next(Next(Next(Next(Next(Next(w, Start(t, call)), TryCheckout(t)), StartEnds(t, true)), Send(t)),
                         Hear(t, Success(true))), BringIn(t));
      && v.ends == w.ends[call := Finished(Result)]
      && v.sent == w.sent[call := 1]
      && v.threads == w.threads[t := AtRest]
  {
    hide Exec, Inv, Next, OnlyStage;
    EveryRunKeeps(steps);
    var w := Exec(steps);
    var w1 := Next(w, Start(t, call));
    BeginsFile(w, t, call);
    NextKeeps(w, Start(t, call));
    var w2 := Next(w1, TryCheckout(t));
    NextKeeps(w1, TryCheckout(t));
    ChecksOut(w1, t);
    var w3 := Next(w2, StartEnds(t, true));
    NextKeeps(w2, StartEnds(t, true));
    WorkerStarts(w2, t);
    KnownWorker(w3, t);
    var w4 := Next(w3, Send(t));
    NextKeeps(w3, Send(t));
    SendsOnce(w3, t);
    KnownWorker(w4, t);
    var w5 := Next(w4, Hear(t, Success(true)));
    AnswersWell(w4, t);
    ComesBack(w5, t);
    assert w1.threads == w.threads[t := w1.threads[t]];
    StagesOnly(w1, w2, t);
    StagesOnly(w2, w3, t);
    StagesOnly(w3, w4, t);
    StagesOnly(w4, w5, t);
  }

  lemma {:induction false} KnownWorker(w: World, t: Thread)
    requires Inv(w) && t in w.threads && Uses(w.threads[t].stage)
    ensures w.threads[t].stage.worker in w.pool.workers && w.threads[t].stage.call in w.sent
  {
    InCall(w, t);
  }

  lemma {:induction false} StagesOnly(w: World, v: World, t: Thread)
    requires t in w.threads && t in v.threads && OnlyStage(w, v, t, v.threads[t].stage)
    ensures v.threads == w.threads[t := v.threads[t]]
  {
  }

  lemma {:induction false} BeginsFile(w: World, t: Thread, call: Call)
    requires t in w.threads && w.threads[t].stage.Idle? && call !in w.sent
    ensures var v := Next(w, Start(t, call));
      && v.ends == w.ends && v.sent == w.sent[call := 0] && v.pool == w.pool
      && t in v.threads && v.threads == w.threads[t := v.threads[t]]
      && v.threads[t].stage == Trying(call, 1) && v.threads[t].cancelled == None
  {
  }

  // The thread's part of one step, every other thread being left alone.
  predicate OnlyStage(w: World, v: World, t: Thread, stage: Stage)
    requires t in w.threads
  {
    v.threads == w.threads[t := w.threads[t].(stage := stage)]
  }

  lemma {:induction false} ChecksOut(w: World, t: Thread)
    requires t in w.threads && w.threads[t].stage.Trying? && !IsCancelled(w.threads[t]) && !w.pool.unavailable
    ensures var v := Next(w, TryCheckout(t));
      && v.ends == w.ends && v.sent == w.sent && t in v.threads && OnlyStage(w, v, t, v.threads[t].stage)
      && (v.threads[t].stage.Holding? || v.threads[t].stage.Starting?)
      && v.threads[t].stage.call == w.threads[t].stage.call && v.threads[t].stage.attempt == w.threads[t].stage.attempt
      && v.threads[t].cancelled == w.threads[t].cancelled
  {
    NotRefused(w.pool, t);
    hide Begin;
  }

  lemma NotRefused(p: Pool, t: Thread)
    requires !p.unavailable
    ensures !Begin(p, t).1.Refused?
  {
  }

  lemma {:induction false} WorkerStarts(w: World, t: Thread)
    requires t in w.threads && (w.threads[t].stage.Holding? || w.threads[t].stage.Starting?)
    ensures var v := Next(w, StartEnds(t, true));
      && v.ends == w.ends && v.sent == w.sent && t in v.threads && OnlyStage(w, v, t, v.threads[t].stage)
      && v.threads[t].stage.Holding?
      && v.threads[t].stage.call == w.threads[t].stage.call && v.threads[t].stage.attempt == w.threads[t].stage.attempt
      && v.threads[t].cancelled == w.threads[t].cancelled
  {
  }

  lemma {:induction false} SendsOnce(w: World, t: Thread)
    requires t in w.threads && w.threads[t].stage.Holding? && !IsCancelled(w.threads[t]) && w.threads[t].stage.call in w.sent
    ensures var s := w.threads[t].stage;
      var v := Next(w, Send(t));
      && v.ends == w.ends && v.sent == w.sent[s.call := w.sent[s.call] + 1]
      && t in v.threads && v.threads[t].stage.Waiting? && OnlyStage(w, v, t, v.threads[t].stage)
      && v.threads[t].stage.call == s.call
  {
  }

  lemma {:induction false} AnswersWell(w: World, t: Thread)
    requires t in w.threads && w.threads[t].stage.Waiting? && w.threads[t].stage.worker in w.pool.workers
    ensures var s := w.threads[t].stage;
      var v := Next(w, Hear(t, Success(true)));
      && v.ends == w.ends[s.call := Finished(Result)] && v.sent == w.sent
      && t in v.threads && v.threads[t].stage == Closing(s.call, s.worker, s.mode, false)
      && OnlyStage(w, v, t, v.threads[t].stage)
  {
  }

  lemma {:induction false} ComesBack(w: World, t: Thread)
    requires t in w.threads && w.threads[t].stage.Closing? && !w.threads[t].stage.again
    ensures var v := Next(w, BringIn(t));
      v.ends == w.ends && v.sent == w.sent && v.threads == w.threads[t := AtRest]
  {
    hide Checkin;
  }

  // ---------------------------------------------------------------- no worker is lost

  ghost predicate Slotted(p: Pool, x: WorkerId) { exists t :: InSlot(p.slots, t, x) }

  ghost predicate Placed(w: World, x: WorkerId) {
    w.pool.pooled == Some(x) || Slotted(w.pool, x) || exists t :: UsesWorker(w, t, x)
  }

  // Every worker that is alive can still be reached: from the pool, from its thread's slot, or by
  // the thread that uses it.
  ghost predicate NoneLost(w: World) {
    forall x :: Alive(w.pool, x) ==> Placed(w, x)
  }

  // What a change of the pool must do for that: it stops what it drops.
  ghost predicate StopsDropped(p: Pool, q: Pool, added: Option<WorkerId>) {
    forall x: WorkerId :: Alive(q, x) ==>
      added == Some(x)
      || (Alive(p, x) && (p.pooled == Some(x) ==> q.pooled == Some(x)) && (Slotted(p, x) ==> Slotted(q, x)))
  }

  lemma {:induction false} BeginStops(p: Pool, t: Thread)
    ensures StopsDropped(p, Begin(p, t).0, None)
  {
    var q := Begin(p, t).0;
    forall x | Alive(q, x) && Slotted(p, x) ensures Slotted(q, x) {
      var u :| InSlot(p.slots, u, x);
      assert InSlot(q.slots, u, x);
    }
  }

  lemma {:induction false} FinishStops(p: Pool, t: Thread, mode: Mode, starts: bool)
    requires StartOk(p, t, Starting(0, 0, mode))
    ensures var (q, r) := FinishStart(p, t, mode, starts);
      StopsDropped(p, q, if r.Got? then Some(r.worker) else None)
  {
    var q := FinishStart(p, t, mode, starts).0;
    forall x | Slotted(p, x) ensures Slotted(q, x) {
      var u :| InSlot(p.slots, u, x);
      assert InSlot(q.slots, u, x);
    }
  }

  // A worker that is brought back stays alive only where it can be reused.
  lemma {:induction false} CheckinStops(p: Pool, t: Thread, s: Stage)
    requires PoolOk(p) && Uses(s) && UseOk(p, t, s)
    ensures var q := Checkin(p, t, s.worker, s.mode);
      StopsDropped(p, q, None) && (Alive(q, s.worker) ==> q.pooled == Some(s.worker) || Slotted(q, s.worker))
  {
    var q := Checkin(p, t, s.worker, s.mode);
    forall x | Alive(q, x) && Slotted(p, x) ensures Slotted(q, x) {
      var u :| InSlot(p.slots, u, x);
      assert InSlot(q.slots, u, x);
    }
    if Alive(q, s.worker) && s.mode == Dedicated { assert InSlot(q.slots, t, s.worker); }
  }

  lemma {:induction false} LeaveStops(p: Pool, t: Thread)
    ensures StopsDropped(p, Left(p, t), None)
  {
    var q := Left(p, t);
    forall x | Alive(q, x) && Slotted(p, x) ensures Slotted(q, x) {
      var u :| InSlot(p.slots, u, x);
      assert u != t;
      assert InSlot(q.slots, u, x);
    }
  }

  // Nothing is lost when the pool stops what it drops, threads keep what they use, and what is new
  // goes to a thread.
  lemma {:induction false} StopsKeep(w: World, v: World, added: Option<WorkerId>, gone: Option<WorkerId>)
    requires NoneLost(w) && StopsDropped(w.pool, v.pool, added)
    requires forall t, x: WorkerId :: UsesWorker(w, t, x) && gone != Some(x) ==> UsesWorker(v, t, x)
    requires added.Some? ==> exists t :: UsesWorker(v, t, added.value)
    requires gone.Some? && Alive(v.pool, gone.value) ==> Placed(v, gone.value)
    ensures NoneLost(v)
  {
    forall x: WorkerId | Alive(v.pool, x) ensures Placed(v, x) {
      if added != Some(x) && gone != Some(x) {
        assert Placed(w, x);
        if t :| UsesWorker(w, t, x) { assert UsesWorker(v, t, x); }
      }
    }
  }

  lemma {:induction false} CheckoutLoses(w: World, t: Thread)
    requires NoneLost(w) && t in w.threads && w.threads[t].stage.Trying?
    ensures NoneLost(CheckedOut(w, t))
  {
    hide Begin, StopsDropped, NoneLost;
    BeginStops(w.pool, t);
    var v := CheckedOut(w, t);
    var q := Begin(w.pool, t).0;
    assert StopsDropped(w.pool, q.(unavailable := true), None) by { StopsSame(w.pool, q, q.(unavailable := true)); }
    assert StopsDropped(w.pool, w.pool, None) by { StopsNothing(w.pool, w.pool); }
    StopsKeep(w, v, None, None);
  }

  lemma StopsSame(p: Pool, q: Pool, r: Pool)
    requires StopsDropped(p, q, None) && r == q.(unavailable := true)
    ensures StopsDropped(p, r, None)
  {
    assert forall x :: Slotted(q, x) ==> Slotted(r, x) by {
      forall x | Slotted(q, x) ensures Slotted(r, x) {
        var t :| InSlot(q.slots, t, x);
        assert InSlot(r.slots, t, x);
      }
    }
  }

  // Workers may die or change, but none comes alive and none is dropped.
  lemma StopsNothing(p: Pool, q: Pool)
    requires q.pooled == p.pooled && (forall x :: Alive(q, x) ==> Alive(p, x))
    requires forall t, x: WorkerId :: InSlot(p.slots, t, x) ==> InSlot(q.slots, t, x)
    ensures StopsDropped(p, q, None)
  {
    forall x | Slotted(p, x) ensures Slotted(q, x) {
      var t :| InSlot(p.slots, t, x);
      assert InSlot(q.slots, t, x);
    }
  }

  lemma {:induction false} StartLoses(w: World, t: Thread, starts: bool)
    requires Inv(w) && NoneLost(w) && t in w.threads && w.threads[t].stage.Starting?
    ensures NoneLost(StartEnded(w, t, starts))
  {
    hide Inv, FinishStart, StopsDropped, NoneLost;
    StartPlace(w, t);
    var mode := w.threads[t].stage.mode;
    FinishStops(w.pool, t, mode, starts);
    var v := StartEnded(w, t, starts);
    var (q, r) := FinishStart(w.pool, t, mode, starts);
    if r.Got? {
      assert UsesWorker(v, t, r.worker);
      StopsKeep(w, v, Some(r.worker), None);
    } else {
      StopsSame(w.pool, q, q.(unavailable := true));
      StopsKeep(w, v, None, None);
    }
  }

  lemma {:induction false} BringLoses(w: World, t: Thread)
    requires Inv(w) && NoneLost(w) && t in w.threads && w.threads[t].stage.Closing?
    ensures NoneLost(Returned(w, t))
  {
    hide Inv, Checkin, StopsDropped, NoneLost;
    InCall(w, t);
    CheckinStops(w.pool, t, w.threads[t].stage);
    StopsKeep(w, Returned(w, t), None, Some(w.threads[t].stage.worker));
  }

  // No thread lets go of a worker, no place changes, and no worker comes alive.
  lemma {:induction false} SamePlaces(w: World, v: World)
    requires NoneLost(w)
    requires v.pool.pooled == w.pool.pooled && forall x :: Alive(v.pool, x) ==> Alive(w.pool, x)
    requires forall t, x: WorkerId :: InSlot(w.pool.slots, t, x) ==> InSlot(v.pool.slots, t, x)
    requires forall t, x: WorkerId :: UsesWorker(w, t, x) ==> UsesWorker(v, t, x)
    ensures NoneLost(v)
  {
    StopsNothing(w.pool, v.pool);
    StopsKeep(w, v, None, None);
  }

  lemma {:induction false} ThreadStepLoses(w: World, step: Step)
    requires NoneLost(w) && (step.Send? || step.Hear?)
    ensures NoneLost(Next(w, step))
  {
    hide NoneLost;
    SamePlaces(w, Next(w, step));
  }

  lemma {:induction false} OtherStepLoses(w: World, step: Step)
    requires step.Spawn? || step.Enter? || step.Start? || step.Mark? || step.Hit? || step.Die? || step.Break?
    requires NoneLost(w)
    ensures NoneLost(Next(w, step))
  {
    hide NoneLost;
    SamePlaces(w, Next(w, step));
  }

  lemma {:induction false} LeaveLoses(w: World, t: Thread)
    requires NoneLost(w)
    ensures NoneLost(w.(pool := Left(w.pool, t)))
  {
    hide NoneLost, Left, StopsDropped;
    LeaveStops(w.pool, t);
    StopsKeep(w, w.(pool := Left(w.pool, t)), None, None);
  }

  lemma {:induction false} StepLoses(w: World, step: Step)
    requires Inv(w) && NoneLost(w)
    ensures NoneLost(Next(w, step))
  {
    hide Inv, NoneLost, CheckedOut, StartEnded, Returned, Left;
    match step
    case TryCheckout(t) => if t in w.threads && w.threads[t].stage.Trying? { CheckoutLoses(w, t); }
    case StartEnds(t, starts) => if t in w.threads && w.threads[t].stage.Starting? { StartLoses(w, t, starts); }
    case BringIn(t) => if t in w.threads && w.threads[t].stage.Closing? { BringLoses(w, t); }
    case Leave(t) => if t in w.threads && w.threads[t].stage.Idle? { LeaveLoses(w, t); }
    case Send(t) => ThreadStepLoses(w, step);
    case Hear(t, h) => ThreadStepLoses(w, step);
    case _ => OtherStepLoses(w, step);
  }

  // In every run no worker process is left behind: one that is alive is in the pool, in a slot or in use.
  lemma {:induction false} NoWorkerIsLost(steps: seq<Step>)
    ensures NoneLost(Exec(steps))
    decreases |steps|
  {
    hide Exec, Next, Inv, NoneLost;
    if steps == [] {
      NothingRun(steps);
      assert NoneLost(Init()) by { NothingLost(); }
    } else {
      var less := steps[..|steps| - 1];
      NoWorkerIsLost(less);
      EveryRunKeeps(less);
      ExecLast(steps);
      StepLoses(Exec(less), steps[|steps| - 1]);
    }
  }

  lemma NothingLost()
    ensures NoneLost(Init())
  {
  }
}
