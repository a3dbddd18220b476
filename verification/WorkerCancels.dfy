// What cancelling a file does to the files analysed after it: the exact condition under which it
// hits another one, the guard that excludes it, and that crashes have no other cause.

module WorkerCancels {
  import opened Prelude
  import opened WorkerPool
  import opened WorkerProtocol
  import opened WorkerFrames

  // ---------------------------------------------------------------- what a strike is aimed at

  // Nobody but thread t can have worker x, now or later, and t only as its dedicated worker.
  ghost predicate Only(w: World, x: WorkerId, t: Thread) {
    && x in w.pool.workers && w.pool.pooled != Some(x)
    && (forall u :: InSlot(w.pool.slots, u, x) ==> u == t)
    && (forall u :: UsesWorker(w, u, x) ==> u == t && w.threads[u].stage.mode == Dedicated)
  }

  ghost predicate StrikeOk(w: World, s: Strike) {
    && s.call in w.sent && s.call in w.marked
    && (InCallOf(w, s.thread, s.call) ==> IsCancelled(w.threads[s.thread]) && w.threads[s.thread].file == Some(s.call))
    && (s.worker.Some? ==> Only(w, s.worker.value, s.thread))
  }

  ghost predicate StrikeInv(w: World) {
    forall k :: k in w.strikes ==> StrikeOk(w, w.strikes[k])
  }

  lemma {:induction false} StrikeStaysOk(w: World, v: World, s: Strike)
    requires StrikeOk(w, s) && CallsFrom(w, v) && WorkersFrom(w, v)
    ensures StrikeOk(v, s)
  {
  }

  lemma {:induction false} MarkIsOk(w: World, k: nat, t: Thread, c: Call)
    requires Inv(w) && Marks(w, k, t, c)
    ensures StrikeOk(Next(w, Mark(k, t, c)), Strike(t, c, w.pool.slots[t]))
  {
    MarkedIsCurrent(w, k, t, c);
    if w.pool.slots[t].Some? { SlotIsOnly(w, t, w.pool.slots[t].value); }
  }

  // The cancel finds its file to be the thread's current one.
  predicate Marks(w: World, k: nat, t: Thread, c: Call) {
    k !in w.strikes && t in w.threads && t in w.pool.slots && w.threads[t].file == Some(c)
  }

  lemma {:induction false} MarkedIsCurrent(w: World, k: nat, t: Thread, c: Call)
    requires Inv(w) && Marks(w, k, t, c)
    ensures InCallOf(w, t, c) && c in w.sent
  {
    assert FileOk(w.pool.slots, w.marked, t, w.threads[t]);
    assert CountOk(w.sent, w.accepted, w.threads[t].stage);
  }

  lemma {:induction false} SlotIsOnly(w: World, t: Thread, x: WorkerId)
    requires Inv(w) && InSlot(w.pool.slots, t, x)
    ensures Only(w, x, t)
  {
    LockHolders(w);
    hide Inv;
    forall u | UsesWorker(w, u, x) ensures u == t && w.threads[u].stage.mode == Dedicated {
      assert UseOk(w.pool, u, w.threads[u].stage);
    }
  }

  lemma {:induction false} StrikesKeep(w: World, step: Step)
    requires Inv(w) && StrikeInv(w)
    ensures StrikeInv(Next(w, step))
  {
    hide Inv, StrikeOk, Next;
    var v := Next(w, step);
    StepFrame(w, step);
    forall k | k in v.strikes ensures StrikeOk(v, v.strikes[k]) {
      StrikesFrom(w, step, k);
      if k in w.strikes {
        StrikeStaysOk(w, v, w.strikes[k]);
      } else {
        NewStrike(w, step, k);
      }
    }
  }

  lemma NewStrike(w: World, step: Step, k: nat)
    requires Inv(w) && step.Mark? && step.k == k && k !in w.strikes && k in Next(w, step).strikes
    ensures StrikeOk(Next(w, step), Next(w, step).strikes[k])
  {
    hide Inv, StrikeOk;
    MarkIsOk(w, k, step.t, step.call);
  }

  lemma {:induction false} RunStrikes(steps: seq<Step>)
    ensures StrikeInv(Exec(steps)) && Inv(Exec(steps))
    decreases |steps|
  {
    hide Next, Inv;
    EveryRunKeeps(steps);
    if steps != [] {
      RunStrikes(steps[..|steps| - 1]);
      StrikesKeep(Exec(steps[..|steps| - 1]), steps[|steps| - 1]);
    }
  }

  // ---------------------------------------------------------------- when a strike hits another file

  // The step kills a worker that is serving call d.
  ghost predicate Kills(w: World, step: Step, d: Call) {
    exists t, x: WorkerId ::
      Working(w, t, x) && InCallOf(w, t, d) && Alive(w.pool, x) && !Alive(Next(w, step).pool, x)
  }

  // A cancel of another call's file strikes the worker that serves d.
  ghost predicate HitsOther(w: World, k: nat, d: Call) {
    k in w.strikes && w.strikes[k].call != d && Kills(w, Hit(k), d)
  }

  predicate EndsCall(w: World, step: Step, t: Thread, c: Call) {
    InCallOf(w, t, c) && !InCallOf(Next(w, step), t, c)
  }

  // In the steps mid after base, the thread ends call c.
  ghost predicate Ended(base: seq<Step>, mid: seq<Step>, t: Thread, c: Call) {
    exists i :: 0 <= i < |mid| && EndsCall(Exec(base + mid[..i]), mid[i], t, c)
  }

  // The thread still has the worker the cancel saw, and is about to send it a file or waits for it.
  predicate KeptAndWorking(w: World, t: Thread, seen: Option<WorkerId>) {
    seen.Some? && InSlot(w.pool.slots, t, seen.value) && Alive(w.pool, seen.value)
    && t in w.threads && (w.threads[t].stage.Holding? || w.threads[t].stage.Waiting?)
  }

  // A strike kills the worker of a file it was not meant for exactly when, between mark and strike,
  // the thread ended the marked file, kept its worker, and went on to another file with it.
  lemma {:induction false} HitStrikesAnotherExactlyWhen(pre: seq<Step>, k: nat, t: Thread, c: Call, mid: seq<Step>)
    requires Marks(Exec(pre), k, t, c) && Hit(k) !in mid
    ensures var base := pre + [Mark(k, t, c)];
      var w := Exec(base + mid);
      && ((exists d :: HitsOther(w, k, d)) <==>
            Ended(base, mid, t, c) && KeptAndWorking(w, t, Exec(pre).pool.slots[t]))
      && (forall d :: HitsOther(w, k, d) ==> InCallOf(w, t, d))
      && k in w.strikes && w.strikes[k].call == c
  {
    hide Exec, Next, Inv, Only;
    var mark := Mark(k, t, c);
    var base := pre + [mark];
    var w := Exec(base + mid);
    var seen := Exec(pre).pool.slots[t];
    EveryRunKeeps(pre);
    ExecOne(pre, mark);
    MarkEffect(Exec(pre), k, t, c);
    StrikeWaits(base, mid, k);
    RunStrikes(base + mid);
    EndedExactlyWhen(base, mid, t, c);
    HitMeets(w, k);
    forall d | HitsOther(w, k, d) ensures KeptAndWorking(w, t, seen) && InCallOf(w, t, d) && !InCallOf(w, t, c) {
    }
    if KeptAndWorking(w, t, seen) && !InCallOf(w, t, c) {
      assert HitsOther(w, k, w.threads[t].stage.call);
    }
  }

  lemma ExecOne(steps: seq<Step>, step: Step)
    ensures Exec(steps + [step]) == Next(Exec(steps), step)
  {
    assert (steps + [step])[..|steps|] == steps;
  }

  lemma MarkEffect(w: World, k: nat, t: Thread, c: Call)
    requires Inv(w) && Marks(w, k, t, c)
    ensures var v := Next(w, Mark(k, t, c));
      k in v.strikes && v.strikes[k] == Strike(t, c, w.pool.slots[t]) && InCallOf(v, t, c)
  {
    MarkedIsCurrent(w, k, t, c);
  }

  lemma {:induction false} StrikeWaits(base: seq<Step>, mid: seq<Step>, k: nat)
    requires k in Exec(base).strikes && Hit(k) !in mid
    ensures k in Exec(base + mid).strikes && Exec(base + mid).strikes[k] == Exec(base).strikes[k]
    decreases |mid|
  {
    hide Exec, Next;
    if mid == [] {
      assert base + mid == base;
    } else {
      var less := mid[..|mid| - 1];
      StrikeWaits(base, less, k);
      assert base + mid == (base + less) + [mid[|mid| - 1]];
      ExecOne(base + less, mid[|mid| - 1]);
      StrikesStay(Exec(base + less), mid[|mid| - 1], k);
    }
  }

  // A thread that is in call c is no longer exactly when a step ended it: calls do not return.
  lemma {:induction false} EndedExactlyWhen(base: seq<Step>, mid: seq<Step>, t: Thread, c: Call)
    requires InCallOf(Exec(base), t, c)
    ensures !InCallOf(Exec(base + mid), t, c) <==> Ended(base, mid, t, c)
    ensures c in Exec(base + mid).sent
    decreases |mid|
  {
    hide Exec, Next, Inv;
    if mid == [] {
      assert base + mid == base;
      EveryRunKeeps(base);
      CallIsKnown(Exec(base), t);
    } else {
      var n := |mid| - 1;
      var less := mid[..n];
      EndedExactlyWhen(base, less, t, c);
      assert base + mid == (base + less) + [mid[n]];
      ExecOne(base + less, mid[n]);
      EveryRunKeeps(base + less);
      StepFrame(Exec(base + less), mid[n]);
      assert forall i :: 0 <= i < n ==> less[..i] == mid[..i];
      EndedLast(base, mid, t, c);
    }
  }

  lemma EndedLast(base: seq<Step>, mid: seq<Step>, t: Thread, c: Call)
    requires mid != []
    ensures var n := |mid| - 1;
      Ended(base, mid, t, c) <==> Ended(base, mid[..n], t, c) || EndsCall(Exec(base + mid[..n]), mid[n], t, c)
  {
    hide Exec, EndsCall;
    var n := |mid| - 1;
    var less := mid[..n];
    if Ended(base, mid, t, c) {
      var i :| 0 <= i < |mid| && EndsCall(Exec(base + mid[..i]), mid[i], t, c);
      if i < n { assert less[..i] == mid[..i] && less[i] == mid[i]; }
    }
    if Ended(base, less, t, c) {
      var i :| 0 <= i < |less| && EndsCall(Exec(base + less[..i]), less[i], t, c);
      assert less[..i] == mid[..i] && less[i] == mid[i];
    }
  }

  lemma CallIsKnown(w: World, t: Thread)
    requires Inv(w) && t in w.threads && !w.threads[t].stage.Idle?
    ensures w.threads[t].stage.call in w.sent
  {
    assert CountOk(w.sent, w.accepted, w.threads[t].stage);
  }

  // A strike can kill only the worker of the thread it was aimed at, while it is in that slot.
  lemma {:induction false} HitMeets(w: World, k: nat)
    requires Inv(w) && StrikeInv(w) && k in w.strikes
    ensures var s := w.strikes[k];
      forall d :: Kills(w, Hit(k), d) <==> KeptAndWorking(w, s.thread, s.worker) && InCallOf(w, s.thread, d)
  {
    LockHolders(w);
    var s := w.strikes[k];
    assert StrikeOk(w, s);
    hide Inv;
    forall d | Kills(w, Hit(k), d) ensures KeptAndWorking(w, s.thread, s.worker) && InCallOf(w, s.thread, d) {
      var t, x: WorkerId :| Working(w, t, x) && InCallOf(w, t, d) && Alive(w.pool, x) && !Alive(Next(w, Hit(k)).pool, x);
      assert s.worker == Some(x) && UsesWorker(w, t, x);
      assert UseOk(w.pool, t, w.threads[t].stage);
    }
    if KeptAndWorking(w, s.thread, s.worker) {
      assert UseOk(w.pool, s.thread, w.threads[s.thread].stage);
      assert Working(w, s.thread, s.worker.value);
      assert !Alive(Next(w, Hit(k)).pool, s.worker.value);
    }
  }

  // ---------------------------------------------------------------- with the missing guard

  // Every strike falls while its file is still the thread's current one, as it would if the slot's
  // lock were held from the mark to the kill.
  ghost predicate Guarded(steps: seq<Step>) {
    forall n, k :: 0 <= n < |steps| && steps[n] == Hit(k) && k in Exec(steps[..n]).strikes ==>
      StillCurrent(Exec(steps[..n]), Exec(steps[..n]).strikes[k])
  }

  predicate StillCurrent(w: World, s: Strike) {
    s.thread in w.threads && w.threads[s.thread].file == Some(s.call)
  }

  // Then no strike meets any file but the cancelled one.
  lemma {:induction false} GuardedHitsOnlyTheMarked(steps: seq<Step>, n: nat, k: nat, d: Call)
    requires Guarded(steps) && n < |steps| && steps[n] == Hit(k) && Kills(Exec(steps[..n]), Hit(k), d)
    ensures var w := Exec(steps[..n]);
      && k in w.strikes && d == w.strikes[k].call && d in w.marked
      && IsCancelled(w.threads[w.strikes[k].thread]) && InCallOf(w, w.strikes[k].thread, d)
  {
    hide Exec, Inv;
    var w := Exec(steps[..n]);
    RunStrikes(steps[..n]);
    if k in w.strikes {
      HitMeets(w, k);
      assert StillCurrent(w, w.strikes[k]);
      assert StrikeOk(w, w.strikes[k]);
      FileIsCall(w, w.strikes[k].thread);
    }
  }

  lemma FileIsCall(w: World, t: Thread)
    requires Inv(w) && t in w.threads && w.threads[t].file.Some?
    ensures !w.threads[t].stage.Idle? && w.threads[t].file == Some(w.threads[t].stage.call)
  {
    assert FileOk(w.pool.slots, w.marked, t, w.threads[t]);
  }

  // ---------------------------------------------------------------- crashes have no other cause

  // No worker dies or breaks by itself, and none reports a crash.
  predicate Quiet(steps: seq<Step>) {
    forall i :: 0 <= i < |steps| ==> IsQuiet(steps[i])
  }

  predicate IsQuiet(step: Step) {
    !step.Die? && !step.Break? && !(step.Hear? && step.heard == Failure(true))
  }

  // A cancel of another file struck the worker that served d.
  ghost predicate HitElsewhere(steps: seq<Step>, d: Call) {
    exists n, k :: 0 <= n < |steps| && steps[n] == Hit(k) && HitsOther(Exec(steps[..n]), k, d)
  }

  // Without other failures, a file fails as a crash only because a cancel of another file struck
  // the worker that served it.
  lemma {:induction false} CrashesComeFromCancels(steps: seq<Step>, c: Call)
    requires Quiet(steps) && CrashedCall(Exec(steps), c)
    ensures HitElsewhere(steps, c)
  {
    Causes(steps);
  }

  // With the guard no file fails as a crash.
  lemma {:induction false} GuardedNeverCrashes(steps: seq<Step>, c: Call)
    requires Quiet(steps) && Guarded(steps)
    ensures !CrashedCall(Exec(steps), c)
  {
    hide Exec, Kills;
    if CrashedCall(Exec(steps), c) {
      CrashesComeFromCancels(steps, c);
      var n, k :| 0 <= n < |steps| && steps[n] == Hit(k) && HitsOther(Exec(steps[..n]), k, c);
      GuardedHitsOnlyTheMarked(steps, n, k, c);
    }
  }

  // A thread whose worker is dead was cancelled, or a cancel of another file struck it.
  ghost predicate CauseInv(w: World, steps: seq<Step>) {
    && (forall x :: x in w.pool.workers ==> !w.pool.workers[x].broken)
    && (forall t, x: WorkerId :: Working(w, t, x) && !Alive(w.pool, x) ==> Excused(w, steps, t))
    && (forall c :: CrashedCall(w, c) ==> HitElsewhere(steps, c))
  }

  ghost predicate Excused(w: World, steps: seq<Step>, t: Thread)
    requires t in w.threads && !w.threads[t].stage.Idle?
  {
    IsCancelled(w.threads[t]) || HitElsewhere(steps, w.threads[t].stage.call)
  }

  lemma {:induction false} Causes(steps: seq<Step>)
    requires Quiet(steps)
    ensures CauseInv(Exec(steps), steps)
    decreases |steps|
  {
    hide Next, CauseInv, Inv, StrikeInv;
    if steps == [] {
      assert CauseInv(Init(), []) by { NothingYet(); }
    } else {
      var n := |steps| - 1;
      var less, step := steps[..n], steps[n];
      Causes(less);
      RunStrikes(less);
      assert steps == less + [step];
      assert IsQuiet(step);
      CauseStep(less, step);
    }
  }

  lemma NothingYet()
    ensures CauseInv(Init(), [])
  {
  }

  lemma HitElsewhereStays(steps: seq<Step>, step: Step, d: Call)
    requires HitElsewhere(steps, d)
    ensures HitElsewhere(steps + [step], d)
  {
    hide HitsOther, Exec;
    var n, k :| 0 <= n < |steps| && steps[n] == Hit(k) && HitsOther(Exec(steps[..n]), k, d);
    var more := steps + [step];
    assert more[..n] == steps[..n] && more[n] == steps[n];
  }

  lemma {:induction false} HitNow(steps: seq<Step>, k: nat, d: Call)
    requires HitsOther(Exec(steps), k, d)
    ensures HitElsewhere(steps + [Hit(k)], d)
  {
    hide HitsOther, Exec;
    var more := steps + [Hit(k)];
    assert more[..|steps|] == steps && more[|steps|] == Hit(k);
  }

  lemma {:induction false} CauseStep(steps: seq<Step>, step: Step)
    requires var w := Exec(steps); CauseInv(w, steps) && Inv(w) && StrikeInv(w)
    requires IsQuiet(step)
    ensures CauseInv(Next(Exec(steps), step), steps + [step])
  {
    hide Exec, Next, Inv, StrikeInv, HitElsewhere, CallsFrom, WorkersFrom, AliveFrom;
    var w := Exec(steps);
    var v := Next(w, step);
    var more := steps + [step];
    StepBreaksNothing(w, step);
    StepFrame(w, step);
    forall t, x: WorkerId | Working(v, t, x) && !Alive(v.pool, x) ensures Excused(v, more, t) {
      if Working(w, t, x) && !Alive(w.pool, x) {
        StaysExcused(w, v, steps, step, t);
      } else {
        assert step.Hit? by { StaysDead(w, v, t, x); }
        NewlyDead(steps, step.k, t, x);
      }
    }
    forall c | CrashedCall(v, c) ensures HitElsewhere(more, c) {
      CrashIsHeard(w, step, c);
      if !CrashedCall(w, c) {
        var t := step.t;
        var x := w.threads[t].stage.worker;
        assert Working(w, t, x) && Excused(w, steps, t);
      }
      HitElsewhereStays(steps, step, c);
    }
  }

  lemma StaysDead(w: World, v: World, t: Thread, x: WorkerId)
    requires Working(v, t, x) && !Alive(v.pool, x) && !(Working(w, t, x) && !Alive(w.pool, x))
    ensures !AliveFrom(w, v)
  {
  }

  lemma {:induction false} StaysExcused(w: World, v: World, steps: seq<Step>, step: Step, t: Thread)
    requires CallsFrom(w, v)
    requires t in w.threads && !w.threads[t].stage.Idle? && t in v.threads && !v.threads[t].stage.Idle? && !v.threads[t].stage.Trying?
    requires Excused(w, steps, t)
    ensures Excused(v, steps + [step], t)
  {
    assert Continues(w, v, t);
    if !IsCancelled(w.threads[t]) { HitElsewhereStays(steps, step, w.threads[t].stage.call); }
  }

  // A worker that a strike kills served a cancelled file, or another one than the strike's.
  lemma {:induction false} NewlyDead(steps: seq<Step>, k: nat, t: Thread, x: WorkerId)
    requires var w := Exec(steps); Inv(w) && StrikeInv(w)
    requires var w := Exec(steps); var v := Next(w, Hit(k));
      Working(v, t, x) && !Alive(v.pool, x) && !(Working(w, t, x) && !Alive(w.pool, x))
    ensures Excused(Next(Exec(steps), Hit(k)), steps + [Hit(k)], t)
  {
    hide Exec, Inv, HitElsewhere;
    var w := Exec(steps);
    var v := Next(w, Hit(k));
    assert v.threads == w.threads;
    var d := w.threads[t].stage.call;
    assert Working(w, t, x) && InCallOf(w, t, d) && !Alive(Next(w, Hit(k)).pool, x);
    assert Kills(w, Hit(k), d);
    assert k in w.strikes;
    HitMeets(w, k);
    if w.strikes[k].call != d {
      HitNow(steps, k, d);
    } else {
      assert StrikeOk(w, w.strikes[k]);
      StruckIsAimedAt(w, k, t, x);
    }
  }

  lemma {:induction false} StruckIsAimedAt(w: World, k: nat, t: Thread, x: WorkerId)
    requires StrikeInv(w) && k in w.strikes && Working(w, t, x) && Alive(w.pool, x) && !Alive(Next(w, Hit(k)).pool, x)
    ensures t == w.strikes[k].thread
  {
    assert StrikeOk(w, w.strikes[k]) && UsesWorker(w, t, x);
  }
}
