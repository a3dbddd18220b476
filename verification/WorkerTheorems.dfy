// What holds of the worker pool in every reachable state.

module WorkerTheorems {
  import opened Prelude
  import opened WorkerPool
  import opened WorkerProtocol

  // The pool lock is held exactly while one thread has the pooled worker or starts one, and has been
  // released exactly once for every time it was taken before, also by starts that failed.
  lemma {:induction false} PoolLockBalances(steps: seq<Step>)
    ensures var w := Exec(steps);
      && w.taken == w.released + (if w.pool.locked then 1 else 0)
      && (w.pool.locked <==> exists t :: t in w.threads && HoldsLock(w.threads[t].stage))
      && (forall t, u :: t in w.threads && u in w.threads && HoldsLock(w.threads[t].stage) && HoldsLock(w.threads[u].stage)
                   ==> t == u)
  {
    EveryRunKeeps(steps);
  }

  // No worker is in two threads' hands.
  lemma {:induction false} NoWorkerServesTwo(steps: seq<Step>, t: Thread, u: Thread)
    requires var w := Exec(steps);
      t in w.threads && u in w.threads && t != u && Uses(w.threads[t].stage) && Uses(w.threads[u].stage)
    ensures Exec(steps).threads[t].stage.worker != Exec(steps).threads[u].stage.worker
  {
    EveryRunKeeps(steps);
    assert !Shares(Exec(steps).threads, t, u);
  }

  // A worker that gets a request owes no answer to an earlier one: one that did not answer is
  // never used again.
  lemma {:induction false} UnansweredIsNeverReused(steps: seq<Step>, t: Thread)
    requires var w := Exec(steps); t in w.threads && w.threads[t].stage.Holding?
    ensures var w := Exec(steps);
      var x := w.threads[t].stage.worker;
      x in w.pool.workers && w.pool.workers[x].busy.None?
  {
    EveryRunKeeps(steps);
    InCall(Exec(steps), t);
  }

  // A call is sent at most twice, and never again once a worker accepted it.
  lemma {:induction false} SentAtMostTwice(steps: seq<Step>, step: Step, c: Call)
    requires c in Exec(steps).sent
    ensures Exec(steps).sent[c] <= 2
    ensures c in Exec(steps).accepted ==>
      c in Next(Exec(steps), step).sent && Next(Exec(steps), step).sent[c] == Exec(steps).sent[c]
  {
    hide Exec, CheckedOut, Listened, Returned, Left;
    EveryRunKeeps(steps);
    var w := Exec(steps);
    CountTwice(w.sent, w.accepted, w.threads, c);
    if step.Send? && step.t in w.threads && w.threads[step.t].stage.Holding? {
      InCall(w, step.t);
    }
    SentOnlyBySend(w, step);
  }

  lemma SentOnlyBySend(w: World, step: Step)
    ensures !step.Send? && !step.Start? ==> Next(w, step).sent == w.sent
  {
  }

  // ---------------------------------------------------------------- cancellation

  // A file is reported as cancelled only if it was cancelled.
  lemma {:induction false} OnlyMarkedEndCancelled(steps: seq<Step>, c: Call)
    requires c in Exec(steps).ends && Exec(steps).ends[c] == Cancelled
    ensures c in Exec(steps).marked
  {
    EveryRunKeeps(steps);
  }

  // A cancelled file is not sent. If it ends, then as cancelled unless its result arrived, and the
  // worker it had is stopped.
  predicate GivesUp(w: World, v: World, t: Thread, resulted: bool)
    requires t in w.threads && !w.threads[t].stage.Idle?
  {
    var c := w.threads[t].stage.call;
    && v.sent == w.sent
    && (v.ends == w.ends || v.ends == w.ends[c := if resulted then Finished(Result) else Cancelled])
    && (v.ends != w.ends && t in v.threads && v.threads[t].stage.Closing? && !resulted ==>
          var x := v.threads[t].stage.worker; x in v.pool.workers && !v.pool.workers[x].healthy)
  }

  // A thread whose file is cancelled starts no worker and sends nothing.
  lemma {:induction false} CancelledIsNotSent(steps: seq<Step>, t: Thread, step: Step)
    requires var w := Exec(steps); t in w.threads && IsCancelled(w.threads[t])
    requires step in {Send(t), TryCheckout(t), StartEnds(t, true), StartEnds(t, false)} || (step.Hear? && step.t == t)
    ensures var w := Exec(steps);
      var v := Next(w, step);
      && !w.threads[t].stage.Idle? && w.threads[t].file == Some(w.threads[t].stage.call)
      && GivesUp(w, v, t, step == Hear(t, Success(true)))
      && (step == TryCheckout(t) ==> v.pool == w.pool)
  {
    hide Exec, Inv, CheckedOut, StartEnded, Sent, Listened, Heeds, GivesUp;
    EveryRunKeeps(steps);
    var w := Exec(steps);
    CancelledHasFile(w, t);
    var s := w.threads[t].stage;
    if Uses(s) { InCall(w, t); }
    Unchanged(w, t, step == Hear(t, Success(true)));
    if step == Send(t) && s.Holding? {
      CancelledSend(w, t);
    } else if step == TryCheckout(t) && s.Trying? {
      CancelledCheckout(w, t);
    } else if step.StartEnds? && s.Starting? {
      CancelledStart(w, t, step.starts);
    } else if step.Hear? && s.Waiting? && Heeds(w.pool, s.worker, step.heard) {
      CancelledHears(w, t, step.heard);
    }
  }

  lemma Unchanged(w: World, t: Thread, resulted: bool)
    requires t in w.threads && !w.threads[t].stage.Idle?
    ensures GivesUp(w, w, t, resulted)
  {
  }

  lemma CancelledHasFile(w: World, t: Thread)
    requires Inv(w) && t in w.threads && IsCancelled(w.threads[t])
    ensures !w.threads[t].stage.Idle? && w.threads[t].file == Some(w.threads[t].stage.call)
  {
    assert FileOk(w.pool.slots, w.marked, t, w.threads[t]);
  }

  lemma CancelledSend(w: World, t: Thread)
    requires t in w.threads && IsCancelled(w.threads[t]) && w.threads[t].stage.Holding? && w.threads[t].stage.call in w.sent
    requires w.threads[t].stage.worker in w.pool.workers && CleanOk(w.pool, w.threads[t].stage)
    ensures GivesUp(w, Sent(w, t), t, false)
  {
  }

  lemma CancelledCheckout(w: World, t: Thread)
    requires t in w.threads && IsCancelled(w.threads[t]) && w.threads[t].stage.Trying?
    ensures GivesUp(w, CheckedOut(w, t), t, false) && CheckedOut(w, t).pool == w.pool
  {
  }

  lemma CancelledStart(w: World, t: Thread, starts: bool)
    requires t in w.threads && IsCancelled(w.threads[t]) && w.threads[t].stage.Starting?
    ensures GivesUp(w, StartEnded(w, t, starts), t, false)
  {
  }

  lemma CancelledHears(w: World, t: Thread, h: Heard)
    requires t in w.threads && IsCancelled(w.threads[t]) && w.threads[t].stage.Waiting?
    requires w.threads[t].stage.worker in w.pool.workers && CleanOk(w.pool, w.threads[t].stage)
    ensures GivesUp(w, Listened(w, t, h), t, h == Success(true))
  {
  }
}
