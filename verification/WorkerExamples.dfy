// A concrete run in which cancelling one file makes the next one crash.

module WorkerExamples {
  import opened Prelude
  import opened WorkerPool
  import opened WorkerProtocol
  import opened WorkerFrames
  import opened WorkerCancels

  // Nothing fails in this run but through its one cancel, which marks file 1 and strikes when its
  // thread has begun file 2. That one, which nobody cancelled, ends as a crash.
  lemma {:induction false} CancelMayHitTheNextFile()
    ensures exists steps: seq<Step>, n: nat, k: nat ::
      && Quiet(steps) && n < |steps| && steps[n] == Hit(k) && HitsOther(Exec(steps[..n]), k, 2)
      && CrashedCall(Exec(steps), 2) && 2 !in Exec(steps).marked
  {
    hide Exec, Follow, Quiet, HitsOther, CrashedCall;
    RunToSecond();
    FollowConcat(BEFORE, STRUCK);
    NextIsStruck();
    var steps := BEFORE + STRUCK;
    RunIsQuiet();
    assert steps[..|BEFORE|] == BEFORE && steps[|BEFORE|] == Hit(7);
  }

  const BEFORE := (FIRST_SENT + FIRST_MARKED) + NEXT_SENT

  lemma RunIsQuiet()
    ensures Quiet(BEFORE + STRUCK)
  {
  }

  lemma RunToSecond()
    ensures Exec(BEFORE) == SentTwice
  {
    hide Follow;
    FollowConcat([], FIRST_SENT);
    assert [] + FIRST_SENT == FIRST_SENT;
    FollowConcat(FIRST_SENT, FIRST_MARKED);
    FollowConcat(FIRST_SENT + FIRST_MARKED, NEXT_SENT);
    hide Exec;
    FirstIsSent();
    FirstIsMarked();
    NextIsSent();
  }

  function Follow(w: World, steps: seq<Step>): World
    decreases |steps|
  {
    if steps == [] then w else Follow(Next(w, steps[0]), steps[1..])
  }

  lemma {:induction false} FollowConcat(steps: seq<Step>, more: seq<Step>)
    ensures Exec(steps + more) == Follow(Exec(steps), more)
    decreases |more|
  {
    if more == [] {
      assert steps + more == steps;
    } else {
      var longer := steps + [more[0]];
      assert longer[..|longer| - 1] == steps;
      assert longer + more[1..] == steps + more;
      FollowConcat(longer, more[1..]);
    }
  }

  const FIRST_SENT := [Spawn(0), Enter(0), Start(0, 1), TryCheckout(0), StartEnds(0, true), Send(0)]
  const FIRST_MARKED := [Mark(7, 0, 1), Hear(0, Success(true)), BringIn(0)]
  const NEXT_SENT := [Start(0, 2), TryCheckout(0), Send(0), Hear(0, Accepted)]
  const STRUCK := [Hit(7), Hear(0, Gone)]

  // One thread whose dedicated worker is number 0, through the four parts of the run.
  function OneThread(worker: Worker, th: ThreadState, strikes: map<nat, Strike>, sent: map<Call, nat>, accepted: set<Call>,
                     marked: set<Call>, ends: map<Call, End>): World {
    World(Pool(None, false, false, map[0 := worker], map[0 := Some(0)], 1), map[0 := th], strikes, sent, accepted, marked, ends,
          None, 0, 0)
  }

  const SentOnce := OneThread(
    Worker(0, true, false, Some(1), false), ThreadState(Waiting(1, 1, 0, Dedicated, false), Some(1), None),
    map[], map[1 := 1], {}, {}, map[])

  const Marked := OneThread(
    Worker(0, true, false, Some(1), false), ThreadState(Waiting(1, 1, 0, Dedicated, false), Some(1), Some(1)),
    map[7 := Strike(0, 1, Some(0))], map[1 := 1], {}, {1}, map[])

  const Answered := OneThread(
    Worker(0, true, true, None, false), ThreadState(Closing(1, 0, Dedicated, false), Some(1), Some(1)),
    map[7 := Strike(0, 1, Some(0))], map[1 := 1], {}, {1}, map[1 := Finished(Result)])

  const Rested := OneThread(
    Worker(0, true, true, None, false), AtRest, map[7 := Strike(0, 1, Some(0))], map[1 := 1], {}, {1}, map[1 := Finished(Result)])

  const Begun := OneThread(
    Worker(0, true, true, None, false), ThreadState(Trying(2, 1), Some(2), None),
    map[7 := Strike(0, 1, Some(0))], map[1 := 1, 2 := 0], {}, {1}, map[1 := Finished(Result)])

  const Ready := OneThread(
    Worker(0, true, false, None, false), ThreadState(Holding(2, 1, 0, Dedicated), Some(2), None),
    map[7 := Strike(0, 1, Some(0))], map[1 := 1, 2 := 0], {}, {1}, map[1 := Finished(Result)])

  const SentAgain := OneThread(
    Worker(0, true, false, Some(2), false), ThreadState(Waiting(2, 1, 0, Dedicated, false), Some(2), None),
    map[7 := Strike(0, 1, Some(0))], map[1 := 1, 2 := 1], {}, {1}, map[1 := Finished(Result)])

  const SentTwice := OneThread(
    Worker(0, true, false, Some(2), false), ThreadState(Waiting(2, 1, 0, Dedicated, true), Some(2), None),
    map[7 := Strike(0, 1, Some(0))], map[1 := 1, 2 := 1], {2}, {1}, map[1 := Finished(Result)])

  lemma FirstIsSent()
    ensures Follow(Init(), FIRST_SENT) == SentOnce
  {
    var w3 := Next(Next(Next(Init(), Spawn(0)), Enter(0)), Start(0, 1));
    assert w3.pool == Pool(None, false, false, map[], map[0 := None], 0);
    var w4 := Next(w3, TryCheckout(0));
    assert w4.pool == w3.pool;
    var w5 := Next(w4, StartEnds(0, true));
    assert w5.pool == Pool(None, false, false, map[0 := NewWorker(0)], map[0 := Some(0)], 1);
    FollowSix(Init(), FIRST_SENT);
  }

  lemma FollowSix(w: World, steps: seq<Step>)
    requires |steps| == 6
    ensures Follow(w, steps) ==
      Next(Next(Next(Next(Next(Next(w, steps[0]), steps[1]), steps[2]), steps[3]), steps[4]), steps[5])
  {
    hide Next;
    var w1 := Next(w, steps[0]);
    var w2 := Next(w1, steps[1]);
    assert Follow(w, steps) == Follow(w1, steps[1..]);
    assert Follow(w1, steps[1..]) == Follow(w2, steps[1..][1..]);
    assert steps[1..][1..] == steps[2..];
    FollowFour(w2, steps[2..]);
  }

  lemma FollowFour(w: World, steps: seq<Step>)
    requires |steps| == 4
    ensures Follow(w, steps) == Next(Next(Next(Next(w, steps[0]), steps[1]), steps[2]), steps[3])
  {
    hide Next;
    var w1 := Next(w, steps[0]);
    assert Follow(w, steps) == Follow(w1, steps[1..]);
    var w2 := Next(w1, steps[1]);
    assert Follow(w1, steps[1..]) == Follow(w2, steps[1..][1..]);
    assert steps[1..][1..] == [steps[2], steps[3]];
    FollowTwo(w2, steps[2], steps[3]);
  }

  lemma FollowTwo(w: World, a: Step, b: Step)
    ensures Follow(w, [a, b]) == Next(Next(w, a), b)
  {
    hide Next;
    assert [a, b][1..] == [b];
    assert Follow(Next(w, a), [b]) == Follow(Next(Next(w, a), b), []);
  }

  lemma MarkStep()
    ensures Next(SentOnce, Mark(7, 0, 1)) == Marked
  {
  }

  lemma AnswerStep()
    ensures Next(Marked, Hear(0, Success(true))) == Answered
  {
  }

  lemma RestStep()
    ensures Next(Answered, BringIn(0)) == Rested
  {
  }

  lemma FirstIsMarked()
    ensures Follow(SentOnce, FIRST_MARKED) == Rested
  {
    hide Next;
    MarkStep();
    AnswerStep();
    RestStep();
    assert FIRST_MARKED[1..] == [Hear(0, Success(true)), BringIn(0)];
    assert Follow(SentOnce, FIRST_MARKED) == Follow(Next(SentOnce, FIRST_MARKED[0]), FIRST_MARKED[1..]);
    FollowTwo(Marked, Hear(0, Success(true)), BringIn(0));
  }

  lemma BegunStep()
    ensures Next(Rested, Start(0, 2)) == Begun
  {
  }

  lemma ReadyStep()
    ensures Next(Begun, TryCheckout(0)) == Ready
  {
  }

  lemma SentStep()
    ensures Next(Ready, Send(0)) == SentAgain
  {
  }

  lemma AcceptedStep()
    ensures Next(SentAgain, Hear(0, Accepted)) == SentTwice
  {
  }

  lemma NextIsSent()
    ensures Follow(Rested, NEXT_SENT) == SentTwice
  {
    hide Next;
    BegunStep();
    ReadyStep();
    SentStep();
    AcceptedStep();
    FollowFour(Rested, NEXT_SENT);
  }

  lemma NextIsStruck()
    ensures HitsOther(SentTwice, 7, 2)
    ensures var w := Follow(SentTwice, STRUCK); CrashedCall(w, 2) && 2 !in w.marked
  {
    var v := Next(SentTwice, Hit(7));
    assert Working(SentTwice, 0, 0) && InCallOf(SentTwice, 0, 2) && Alive(SentTwice.pool, 0) && !Alive(v.pool, 0);
    FollowTwo(SentTwice, Hit(7), Hear(0, Gone));
  }
}
