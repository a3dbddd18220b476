// The durable profile backfill row of one source, the statements that update it, and the wake a
// catalogue change leaves behind.

module Backfill {
  import opened Prelude

  const BACKFILL_STALE_SECONDS: nat := 30 * 60
  const PREPARATION_STALE_SECONDS: nat := 3_600
  const BACKFILL_ABORT_RETRY_SECONDS: nat := 60

  datatype Status = Queued | Running | Complete | Failed

  // wake is refresh_wake_pending and retry is next_retry_at.
  datatype Row = Row(status: Status, wake: bool, retry: Option<nat>, updated: nat)

  predicate Stale(r: Row, now: nat) { r.updated + BACKFILL_STALE_SECONDS < now }

  predicate Due(retry: Option<nat>, now: nat) { retry.None? || retry.value <= now }

  // ---------------------------------------------------------------- the statements

  predicate Active(row: Option<Row>) {
    row.Some? && (row.value.status == Queued || row.value.status == Running)
  }

  // A catalogue refresh was published; changed means it has something to analyse.
  function Notified(row: Option<Row>, changed: bool, now: nat): Option<Row> {
    if !Active(row) then row
    else
      var r := row.value;
      Some(r.(wake := changed || r.wake, retry := if changed && r.status == Queued then None else r.retry, updated := now))
  }

  predicate Admits(row: Option<Row>, now: nat) {
    row.None? || !Active(row) || Stale(row.value, now)
  }

  // Admitting a workflow keeps a pending wake.
  function Admitted(row: Option<Row>, now: nat): Option<Row> {
    if !Admits(row, now) then row
    else Some(Row(Queued, row.Some? && row.value.wake, None, now))
  }

  predicate Claimable(row: Option<Row>, now: nat) {
    row.Some? &&
    match row.value.status
    case Queued => Due(row.value.retry, now)
    case Failed => Due(row.value.retry, now)
    case Running => Stale(row.value, now)
    case Complete => false
  }

  function Claimed(row: Option<Row>, now: nat): Option<Row> {
    if Claimable(row, now) then Some(row.value.(status := Running, retry := None, updated := now)) else row
  }

  function Heartbeat(row: Option<Row>, now: nat): Option<Row> {
    if row.Some? && row.value.status == Running then Some(row.value.(updated := now)) else row
  }

  // How a batch, or a paused turn, leaves the row.
  datatype Ending = Again | Later(at: nat) | Done | Abort

  function Ended(row: Option<Row>, e: Ending, now: nat): Option<Row> {
    var status := match e case Again => Queued case Later(_) => Queued case Done => Complete case Abort => Failed;
    var retry := match e
      case Again => None
      case Later(at) => Some(at)
      case Done => None
      case Abort => Some(now + BACKFILL_ABORT_RETRY_SECONDS);
    if row.None? then Some(Row(status, false, retry, now))
    else
      var wake := row.value.wake;
      Some(Row(if status == Complete && wake then Queued else status, false,
               if wake && !e.Abort? then None else retry, now))
  }

  // What a batch finds and does: nothing to analyse, an analysed batch, or an exception. retry is
  // the earliest retry any track waits for.
  datatype Work = Nothing(retry: Option<nat>) | Analysed(more: bool, retry: Option<nat>) | Raised

  function EndingOf(work: Work): Ending {
    match work
    case Raised => Abort
    case Nothing(retry) => if retry.Some? then Later(retry.value) else Done
    case Analysed(more, retry) => if more then Again else if retry.Some? then Later(retry.value) else Done
  }

  // A change that arrives while a batch runs is due within a minute of its end, however it ends.
  lemma WakeOutlivesBatch(row: Option<Row>, claimed: nat, arrived: nat, ended: nat, work: Work)
    requires Claimable(row, claimed)
    ensures var after := Ended(Notified(Claimed(row, claimed), true, arrived), EndingOf(work), ended);
      Prompt(after, ended) && after.value.status != Running && !after.value.wake
  {
  }

  // When the next batch may start after one has ended, if nothing happens in between: at once if a
  // change was pending or arrived or more is left, a minute after an exception, when the earliest track waits until,
  // and never if nothing is left.
  lemma {:induction false} NextBatchExactlyWhen(row: Option<Row>, claimed: nat, changed: bool, ended: nat, work: Work, later: nat)
    requires Claimable(row, claimed) && ended <= later
    ensures var woken := changed || row.value.wake;
      var after := Ended(Notified(Claimed(row, claimed), changed, ended), EndingOf(work), ended);
      Claimable(after, later) <==>
        match work
        case Raised => later >= ended + 60
        case Nothing(retry) => woken || (retry.Some? && retry.value <= later)
        case Analysed(more, retry) => woken || more || (retry.Some? && retry.value <= later)
    ensures var after := Ended(Notified(Claimed(row, claimed), changed, ended), EndingOf(work), ended);
      after.Some? && (after.value.status == Complete <==>
        !(changed || row.value.wake) && (work == Nothing(None) || work == Analysed(false, None)))
  {
  }

  // Admitting a workflow, claiming a batch and its heartbeat keep a pending wake, as recovery does.
  lemma {:induction false} WakeIsKept(row: Option<Row>, now: nat)
    requires row.Some?
    ensures Admitted(row, now).Some? && Admitted(row, now).value.wake == row.value.wake
    ensures Claimed(row, now).Some? && Claimed(row, now).value.wake == row.value.wake
    ensures Heartbeat(row, now).Some? && Heartbeat(row, now).value.wake == row.value.wake
    ensures Armed(row, now).Some? && (row.value.wake ==> Armed(row, now).value.wake)
  {
  }

  // A running batch is taken over exactly when it has not been heard of for half an hour.
  lemma {:induction false} TakenOverExactlyWhen(row: Option<Row>, beat: nat, later: nat)
    requires row.Some? && row.value.status == Running
    ensures Claimable(Heartbeat(row, beat), later) <==> later > beat + 30 * 60
    ensures Admits(Heartbeat(row, beat), later) <==> later > beat + 30 * 60
  {
  }

  // Work was admitted under a token that may be abandoned: look again within an hour.
  function Armed(row: Option<Row>, now: nat): Option<Row> {
    var at := now + PREPARATION_STALE_SECONDS;
    if row.None? then Some(Row(Queued, false, Some(at), now))
    else
      var r := row.value;
      var retry :=
        if r.status == Running then r.retry
        else if r.status == Queued && r.retry.None? then None
        else if r.retry.None? then Some(at)
        else Some(Min(r.retry.value, at) as nat);
      Some(Row(if r.status == Running then Running else Queued, r.status == Running || r.wake, retry, now))
  }

  // Recovery leaves the row running with the wake set, or to be claimed within the hour, and no later
  // than it would have been.
  lemma {:induction false} RecoveryIsDue(row: Option<Row>, now: nat, later: nat)
    requires row.Some? && row.value.status == Failed ==> row.value.retry.Some?
    requires later >= now
    ensures var after := Armed(row, now);
      && after.Some?
      && (row.Some? && row.value.status == Running ==>
            after.value.status == Running && after.value.wake && after.value.retry == row.value.retry)
      && (!(row.Some? && row.value.status == Running) ==>
            && after.value.status == Queued
            && (later >= now + 3_600 ==> Claimable(after, later))
            && (Claimable(row, later) ==> Claimable(after, later))
            && (row.None? || (row.value.status == Complete && row.value.retry.None?) ==>
                  (Claimable(after, later) <==> later >= now + 3_600)))
  {
  }

  // ---------------------------------------------------------------- the row in place

  class BackfillRow {
    var present: bool
    var status: Status
    var wake: bool
    var retry: Option<nat>
    var updated: nat

    ghost function State(): Option<Row>
      reads this
    {
      if present then Some(Row(status, wake, retry, updated)) else None
    }

    constructor ()
      ensures State() == None
    {
      present, status, wake, retry, updated := false, Queued, false, None, 0;
    }

    // True when the row was active, so that nothing has to be started.
    method Notify(changed: bool, now: nat) returns (active: bool)
      modifies this
      ensures active == Active(old(State()))
      ensures State() == Notified(old(State()), changed, now)
    {
      active := present && (status == Queued || status == Running);
      if active {
        if changed {
          wake := true;
          if status == Queued { retry := None; }
        }
        updated := now;
      }
    }

    method Admit(now: nat) returns (claimed: bool)
      modifies this
      ensures claimed == Admits(old(State()), now)
      ensures State() == Admitted(old(State()), now)
    {
      if !present {
        present, status, wake, retry, updated := true, Queued, false, None, now;
        return true;
      }
      claimed := (status != Queued && status != Running) || updated + BACKFILL_STALE_SECONDS < now;
      if claimed {
        status, retry, updated := Queued, None, now;
      }
    }

    method ClaimBatch(now: nat) returns (claimed: bool)
      modifies this
      ensures claimed == Claimable(old(State()), now)
      ensures State() == Claimed(old(State()), now)
    {
      claimed := present &&
        (((status == Queued || status == Failed) && (retry.None? || retry.value <= now))
         || (status == Running && updated + BACKFILL_STALE_SECONDS < now));
      if claimed {
        status, retry, updated := Running, None, now;
      }
    }

    method Beat(now: nat)
      modifies this`updated
      ensures State() == Heartbeat(old(State()), now)
    {
      if present && status == Running {
        updated := now;
      }
    }

    method Update(newStatus: Status, nextRetry: Option<nat>, delay: Option<nat>, now: nat)
      modifies this
      ensures forall e: Ending ::
        (match e
         case Again => newStatus == Queued && nextRetry.None? && delay.None?
         case Later(at) => newStatus == Queued && nextRetry == Some(at) && delay.None?
         case Done => newStatus == Complete && nextRetry.None? && delay.None?
         case Abort => newStatus == Failed && nextRetry.None? && delay == Some(BACKFILL_ABORT_RETRY_SECONDS))
        ==> State() == Ended(old(State()), e, now)
    {
      var excluded := if nextRetry.Some? then nextRetry else if delay.Some? then Some(now + delay.value) else None;
      if !present {
        present, status, wake, retry := true, newStatus, false, excluded;
      } else {
        status := if newStatus == Complete && wake then Queued else newStatus;
        retry := if wake && delay.None? then None else excluded;
        wake := false;
      }
      updated := now;
    }

    // One turn of the background job: paused, coalesced, or one batch with exactly one end.
    method RunTask(paused: bool, work: Work, start: nat, end: nat) returns (claimed: bool)
      modifies this
      ensures claimed == (!paused && Claimable(old(State()), start))
      ensures State() ==
        if paused then Ended(old(State()), Again, start)
        else if claimed then Ended(Claimed(old(State()), start), EndingOf(work), end)
        else old(State())
    {
      if paused {
        Update(Queued, None, None, start);
        return false;
      }
      claimed := ClaimBatch(start);
      if !claimed {
        return;
      }
      match work
      case Raised => Update(Failed, None, Some(BACKFILL_ABORT_RETRY_SECONDS), end);
      case Nothing(retry) => Update(if retry.Some? then Queued else Complete, retry, None, end);
      case Analysed(more, retry) =>
        if more {
          Update(Queued, None, None, end);
        } else {
          Update(if retry.Some? then Queued else Complete, retry, None, end);
        }
    }

    method Arm(now: nat)
      modifies this
      ensures State() == Armed(old(State()), now)
    {
      var at := now + PREPARATION_STALE_SECONDS;
      if !present {
        present, status, wake, retry := true, Queued, false, Some(at);
      } else if status == Running {
        wake := true;
      } else {
        if !(status == Queued && retry.None?) {
          retry := if retry.Some? && retry.value < at then retry else Some(at);
        }
        status := Queued;
      }
      updated := now;
    }
  }

  // ---------------------------------------------------------------- every step of every caller

  type Name = nat

  // owed: a catalogue change has been recorded that no batch has claimed since. open holds the
  // refreshes that found no active row, whose start is still to come and since which no batch has
  // claimed. claimant is the batch that claimed last, while the row is still as its claim left it.
  datatype World = World(row: Option<Row>, now: nat, batches: set<Name>, claimant: Option<Name>, owed: bool, open: set<Name>)

  datatype Step =
    | Wait(seconds: nat)
    | Refresh(r: Name, changed: bool)
    | Start(r: Name, paused: bool)
    | Recover
    | Claim(b: Name)
    | Beat
    | Finish(b: Name, ending: Ending)
    | PausedTurn

  function Init(): World { World(None, 0, {}, None, false, {}) }

  // A refresh is two statements: it notifies an active row, or else starts a workflow, unless
  // maintenance is paused. A start that belongs to no open refresh is a user's.
  function Next(w: World, step: Step): World {
    match step
    case Wait(seconds) => w.(now := w.now + seconds)
    case Refresh(r, changed) =>
      if Active(w.row) then w.(row := Notified(w.row, changed, w.now), owed := w.owed || changed)
      else if changed then w.(open := w.open + {r})
      else w
    case Start(r, paused) =>
      if paused then w.(open := w.open - {r})
      else
        w.(row := Admitted(w.row, w.now), claimant := if Admits(w.row, w.now) then None else w.claimant,
           owed := w.owed || Admits(w.row, w.now) || r in w.open, open := w.open - {r})
    case Recover => w.(row := Armed(w.row, w.now))
    case Claim(b) =>
      if b in w.batches || !Claimable(w.row, w.now) then w
      else
        w.(row := Claimed(w.row, w.now), batches := w.batches + {b}, claimant := Some(b), owed := false, open := {})
    case Beat => w.(row := Heartbeat(w.row, w.now))
    case Finish(b, e) =>
      if b !in w.batches then w
      else w.(row := Ended(w.row, e, w.now), batches := w.batches - {b}, claimant := None)
    case PausedTurn => w.(row := Ended(w.row, Again, w.now), claimant := None)
  }

  function Exec(steps: seq<Step>): World {
    if steps == [] then Init() else Next(Exec(steps[..|steps| - 1]), steps[|steps| - 1])
  }

  // The change will be picked up: at the latest a minute from now, or when the running batch ends.
  predicate Prompt(row: Option<Row>, now: nat) {
    row.Some? &&
    match row.value.status
    case Running => row.value.wake
    case Queued => Due(row.value.retry, now + BACKFILL_ABORT_RETRY_SECONDS)
    case Failed => Due(row.value.retry, now + BACKFILL_ABORT_RETRY_SECONDS)
    case Complete => false
  }

  predicate NotLost(w: World) {
    w.owed ==> Prompt(w.row, w.now)
  }

  ghost predicate Inv(w: World) {
    && (w.claimant.Some? ==> w.claimant.value in w.batches && w.row.Some? && w.row.value.status == Running)
    && (w.row.Some? && w.row.value.status == Running ==> w.row.value.retry.None? && w.open == {})
    && (w.row.Some? && w.row.value.status == Failed ==> w.row.value.retry.Some?)
  }

  // A batch that ends after its claim was taken over, or that finds the row queued again.
  predicate LateEnd(w: World, step: Step) {
    step.Finish? && step.b in w.batches && w.claimant != Some(step.b)
  }

  predicate QueuedForLater(row: Option<Row>, now: nat) {
    row.Some? && row.value.status == Queued && !Stale(row.value, now)
    && !Due(row.value.retry, now + BACKFILL_ABORT_RETRY_SECONDS)
  }

  // A refresh whose start finds that the row was queued for later since.
  predicate DelayedStart(w: World, step: Step) {
    step.Start? && !step.paused && step.r in w.open && QueuedForLater(w.row, w.now)
  }

  lemma {:induction false} NextKeeps(w: World, step: Step)
    requires Inv(w)
    ensures Inv(Next(w, step))
  {
  }

  // The ways to lose an owed wake: its flag has been consumed by an earlier end, and a batch then
  // ends as complete or with a retry more than a minute away; or the start of a refresh is delayed.
  predicate Loses(w: World, step: Step) {
    (step.Finish? && step.b in w.batches && w.owed && w.row.Some? && !w.row.value.wake
     && (step.ending.Done? || (step.ending.Later? && step.ending.at > w.now + BACKFILL_ABORT_RETRY_SECONDS)))
    || DelayedStart(w, step)
  }

  lemma {:induction false} WakeKeptExactlyWhen(w: World, step: Step)
    requires Inv(w) && NotLost(w)
    ensures NotLost(Next(w, step)) <==> !Loses(w, step)
  {
  }

  // Only a late end or a delayed start can be such a step: the batch whose claim stands finds
  // the flag set.
  lemma {:induction false} OnlyLateEndsLose(w: World, step: Step)
    requires Inv(w) && NotLost(w) && Loses(w, step)
    ensures LateEnd(w, step) || DelayedStart(w, step)
  {
  }

  lemma {:induction false} EveryRunKeeps(steps: seq<Step>)
    ensures Inv(Exec(steps))
    decreases |steps|
  {
    if steps != [] {
      EveryRunKeeps(steps[..|steps| - 1]);
      NextKeeps(Exec(steps[..|steps| - 1]), steps[|steps| - 1]);
    }
  }

  ghost predicate NeverLost(steps: seq<Step>) {
    forall n :: 0 <= n <= |steps| ==> NotLost(Exec(steps[..n]))
  }

  ghost predicate NoneLoses(steps: seq<Step>) {
    forall n :: 0 <= n < |steps| ==> !Loses(Exec(steps[..n]), steps[n])
  }

  lemma PrefixOf(steps: seq<Step>, n: nat)
    requires steps != [] && n <= |steps| - 1
    ensures steps[..|steps| - 1][..n] == steps[..n]
  {
  }

  // Both claims about a run split off its last step.
  lemma {:induction false} LastOfRun(steps: seq<Step>)
    requires steps != []
    ensures var init, last := steps[..|steps| - 1], steps[|steps| - 1];
      && (NeverLost(steps) <==> NeverLost(init) && NotLost(Exec(steps)))
      && (NoneLoses(steps) <==> NoneLoses(init) && !Loses(Exec(init), last))
  {
    hide Exec, Loses, NotLost;
    var init := steps[..|steps| - 1];
    forall n | 0 <= n <= |init| ensures init[..n] == steps[..n] { PrefixOf(steps, n); }
    assert steps[..|steps|] == steps;
    if NeverLost(steps) {
      forall n | 0 <= n <= |init| ensures NotLost(Exec(init[..n])) { assert NotLost(Exec(steps[..n])); }
      assert NotLost(Exec(steps[..|steps|]));
    }
    if NeverLost(init) && NotLost(Exec(steps)) {
      forall n | 0 <= n <= |steps| ensures NotLost(Exec(steps[..n])) {
        if n <= |init| { assert NotLost(Exec(init[..n])); }
      }
    }
    if NoneLoses(steps) {
      forall n | 0 <= n < |init| ensures !Loses(Exec(init[..n]), init[n]) { assert !Loses(Exec(steps[..n]), steps[n]); }
      assert !Loses(Exec(steps[..|init|]), steps[|init|]);
    }
    if NoneLoses(init) && !Loses(Exec(init), steps[|init|]) {
      forall n | 0 <= n < |steps| ensures !Loses(Exec(steps[..n]), steps[n]) {
        if n < |init| { assert !Loses(Exec(init[..n]), init[n]); }
      }
    }
  }

  // A run never loses a change if and only if none of its steps is such a step.
  lemma {:induction false} RunKeepsExactlyWhen(steps: seq<Step>)
    ensures NeverLost(steps) <==> NoneLoses(steps)
    decreases |steps|
  {
    hide Next, Loses, NotLost;
    if steps == [] {
      assert NotLost(Exec(steps[..0])) by { NothingOwed(steps[..0]); }
    } else {
      var init, last := steps[..|steps| - 1], steps[|steps| - 1];
      RunKeepsExactlyWhen(init);
      EveryRunKeeps(init);
      forall n | 0 <= n <= |init| ensures init[..n] == steps[..n] { PrefixOf(steps, n); }
      assert init[..|init|] == init && steps[..|steps|] == steps && steps[..|init|] == init;
      assert Exec(steps) == Next(Exec(init), last);
      if NeverLost(init) {
        assert NotLost(Exec(init[..|init|]));
        WakeKeptExactlyWhen(Exec(init), last);
      }
      LastOfRun(steps);
    }
  }

  lemma NothingOwed(steps: seq<Step>)
    requires steps == []
    ensures NotLost(Exec(steps))
  {
  }

  // No batch in the run ends after its claim was taken over, and no start is delayed.
  ghost predicate Orderly(steps: seq<Step>) {
    forall n :: 0 <= n < |steps| ==> !LateEnd(Exec(steps[..n]), steps[n]) && !DelayedStart(Exec(steps[..n]), steps[n])
  }

  // Whatever batches, refreshes, starts, recoveries and pauses do, in any order, a catalogue change
  // is never lost: until a batch claims the row it is due within a minute, or running with the flag.
  lemma {:induction false} NoLostWake(steps: seq<Step>)
    requires Orderly(steps)
    ensures NotLost(Exec(steps))
    decreases |steps|
  {
    if steps != [] {
      var init := steps[..|steps| - 1];
      var last := steps[|steps| - 1];
      forall n | 0 <= n < |init| ensures !LateEnd(Exec(init[..n]), init[n]) && !DelayedStart(Exec(init[..n]), init[n]) {
        PrefixOf(steps, n);
        assert !LateEnd(Exec(steps[..n]), steps[n]);
      }
      NoLostWake(init);
      EveryRunKeeps(init);
      assert !LateEnd(Exec(steps[..|init|]), steps[|init|]);
      WakeKeptExactlyWhen(Exec(init), last);
      if Loses(Exec(init), last) {
        OnlyLateEndsLose(Exec(init), last);
      }
    }
  }

  // With a late end it can be lost: batch 1 stalls, batch 2 takes over, a change arrives, and
  // batch 1's end consumes the flag that batch 2's end then misses.
  lemma {:induction false} LateEndLosesWake()
    ensures exists steps :: !NotLost(Exec(steps)) && Exec(steps).row.Some? && Exec(steps).row.value.status == Complete
  {
    hide Exec;
    var none: seq<Step> := [];
    assert Exec(none) == Init() by { NothingDone(); }
    ExecNext(none, Start(0, false));
    var started := none + [Start(0, false)];
    ExecNext(started, Claim(1));
    var running := started + [Claim(1)];
    ExecNext(running, Wait(1_801));
    var stalled := running + [Wait(1_801)];
    ExecNext(stalled, Claim(2));
    var taken := stalled + [Claim(2)];
    assert Exec(taken) == World(Some(Row(Running, false, None, 1_801)), 1_801, {1, 2}, Some(2), false, {});
    ExecNext(taken, Refresh(3, true));
    var woken := taken + [Refresh(3, true)];
    assert Exec(woken) == World(Some(Row(Running, true, None, 1_801)), 1_801, {1, 2}, Some(2), true, {});
    ExecNext(woken, Finish(1, Done));
    var late := woken + [Finish(1, Done)];
    assert Exec(late) == World(Some(Row(Queued, false, None, 1_801)), 1_801, {2}, None, true, {});
    ExecNext(late, Finish(2, Done));
    var lost := late + [Finish(2, Done)];
    assert Exec(lost) == World(Some(Row(Complete, false, None, 1_801)), 1_801, {}, None, true, {});
  }

  // A refresh finds no row, a recovery queues one for the next hour, and the refresh's start then
  // changes nothing.
  lemma {:induction false} RecoveryDelaysAStart()
    ensures exists steps :: !NotLost(Exec(steps)) && Exec(steps).batches == {}
  {
    hide Exec;
    var none: seq<Step> := [];
    assert Exec(none) == Init() by { NothingDone(); }
    ExecNext(none, Refresh(1, true));
    var refreshed := none + [Refresh(1, true)];
    ExecNext(refreshed, Recover);
    var armed := refreshed + [Recover];
    assert Exec(armed) == World(Some(Row(Queued, false, Some(3_600), 0)), 0, {}, None, false, {1});
    ExecNext(armed, Start(1, false));
    var delayed := armed + [Start(1, false)];
    assert Exec(delayed) == World(Some(Row(Queued, false, Some(3_600), 0)), 0, {}, None, true, {});
  }

  lemma NothingDone()
    ensures Exec([]) == Init()
  {
  }

  lemma {:induction false} ExecNext(steps: seq<Step>, step: Step)
    ensures Exec(steps + [step]) == Next(Exec(steps), step)
  {
    assert (steps + [step])[..|steps|] == steps;
  }

  // ---------------------------------------------------------------- being picked up

  // An owed change is claimable: within a minute when no batch runs, and otherwise as soon as
  // the running batch has not been heard of for half an hour.
  lemma OwedBecomesClaimable(w: World, seconds: nat)
    requires NotLost(w) && w.owed
    requires w.row.value.status == Running ==> w.row.value.updated + BACKFILL_STALE_SECONDS < w.now + seconds
    requires w.row.value.status != Running ==> seconds >= BACKFILL_ABORT_RETRY_SECONDS
    ensures Claimable(Next(w, Wait(seconds)).row, Next(w, Wait(seconds)).now)
  {
  }

  // What the start of a refresh leaves is picked up promptly unless the row was queued for later.
  lemma StartIsPromptExactlyWhen(row: Option<Row>, now: nat)
    requires row.Some? && row.value.status == Running ==> row.value.wake || Stale(row.value, now)
    ensures Prompt(Admitted(row, now), now) <==> !QueuedForLater(row, now)
  {
  }
}
