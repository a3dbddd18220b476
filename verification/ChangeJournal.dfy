// One cursor journal: its floor, its compaction and the reader of one change page.
// The catalogue and the analysis stream share this code.

module ChangeJournal {
  import opened Prelude

  // Stands for the random identifier that names one uninterrupted run of sequence numbers.
  type Epoch = nat

  const MIN_RETAINED_CHANGE_EVENTS := 1_000
  const CHANGE_EVENT_SNAPSHOT_MULTIPLIER := 2
  const MAX_HELD_RETENTION_MULTIPLIER := 4
  const MAX_PAGE_EVENTS := 1_000

  datatype Pos = Pos(epoch: Epoch, num: nat)

  // The journal columns of a state row together with the rows of its changes table.
  datatype Journal<E> = Journal(epoch: Epoch, head: nat, floor: nat, rows: map<Pos, E>)

  // The current epoch's rows are exactly floor+1..head.
  ghost predicate Dense<E>(j: Journal<E>) {
    && j.floor <= j.head
    && forall q: nat :: Pos(j.epoch, q) in j.rows <==> j.floor < q <= j.head
  }

  // ---------------------------------------------------------------- compaction

  function RetentionLimit(entityCount: int): int {
    Max(MIN_RETAINED_CHANGE_EVENTS, Max(0, entityCount) * CHANGE_EVENT_SNAPSHOT_MULTIPLIER)
  }

  // The arguments of one compaction. epoch and head were read by the caller and may be stale.
  datatype Compaction = Compaction(epoch: Epoch, head: nat, retention: int, purge: bool,
                                   hold: Option<int>, currentFloor: Option<int>, maxAdvance: Option<int>)

  function Retained(c: Compaction): int { Max(MIN_RETAINED_CHANGE_EVENTS, c.retention) }

  // The floor asked for when nothing bounds the call.
  function UnboundedFloor(c: Compaction): (f: int)
    ensures 0 <= f <= c.head
  {
    var expired := Max(0, c.head - Retained(c));
    match c.hold
    case None => expired
    case Some(h) => Max(Max(0, c.head - Retained(c) * MAX_HELD_RETENTION_MULTIPLIER), Min(expired, h))
  }

  // The floor the deletes and the update use, and what the call returns.
  function TargetFloor(c: Compaction): int {
    match c.currentFloor
    case None => UnboundedFloor(c)
    case Some(f) =>
      Max(f, match c.maxAdvance case None => UnboundedFloor(c) case Some(m) => Min(UnboundedFloor(c), f + m))
  }

  predicate Advances(c: Compaction) {
    match c.currentFloor
    case None => UnboundedFloor(c) > 0
    case Some(f) => TargetFloor(c) > f
  }

  // DELETE of the rows of other epochs.
  function Purged<E>(rows: map<Pos, E>, c: Compaction): map<Pos, E> {
    if c.purge then map p | p in rows && p.epoch == c.epoch :: rows[p] else rows
  }

  // DELETE of the expired rows of the caller's epoch.
  function Trimmed<E>(rows: map<Pos, E>, c: Compaction): map<Pos, E> {
    if Advances(c) then map p | p in rows && !(p.epoch == c.epoch && p.num <= TargetFloor(c)) :: rows[p] else rows
  }

  function Compacted<E>(j: Journal<E>, c: Compaction): Journal<E> {
    Journal(
      j.epoch, j.head,
      if Advances(c) && c.epoch == j.epoch && j.floor < TargetFloor(c) then TargetFloor(c) else j.floor,
      Trimmed(Purged(j.rows, c), c))
  }

  // A compaction whose caller read the state under the lock that protects it.
  ghost predicate Locked<E>(j: Journal<E>, c: Compaction) {
    && c.epoch == j.epoch
    && c.head == j.head
    && (c.currentFloor.Some? ==> c.currentFloor.value == j.floor)
  }

  // The floor never moves back and never passes the head, and density survives, for a caller
  // whose epoch is current; its head may have fallen behind.
  lemma CompactionKeepsDensity<E>(j: Journal<E>, c: Compaction)
    requires Dense(j)
    requires c.epoch == j.epoch && c.head <= j.head
    requires c.currentFloor.Some? ==> c.currentFloor.value <= j.floor
    ensures Dense(Compacted(j, c))
    ensures j.floor <= Compacted(j, c).floor <= j.head
  {
  }

  // Exactly when a compaction keeps a dense journal dense. Install-time maintenance reads the
  // epoch without a lock and then purges the other epochs, so it can purge the current one.
  lemma DensityAfterCompaction<E>(j: Journal<E>, c: Compaction)
    requires Dense(j)
    requires c.epoch == j.epoch ==> c.head <= j.head
    requires c.epoch == j.epoch && c.currentFloor.Some? ==> c.currentFloor.value <= j.floor
    ensures Dense(Compacted(j, c)) <==> c.epoch == j.epoch || !c.purge || j.floor == j.head
  {
    if c.epoch == j.epoch {
      CompactionKeepsDensity(j, c);
    } else if c.purge && j.floor < j.head {
      assert Pos(j.epoch, j.head) in j.rows;
      assert Pos(j.epoch, j.head) !in Compacted(j, c).rows;
    }
  }

  // Such maintenance deletes every row of the current epoch while floor and head stay, so a reader
  // at the floor has to bootstrap.
  lemma StaleMaintenanceBreaksDensity<E>(j: Journal<E>, c: Compaction)
    requires Dense(j) && j.floor < j.head && c.purge && c.epoch != j.epoch
    ensures var k := Compacted(j, c);
      && !Dense(k) && k.epoch == j.epoch && k.floor == j.floor && k.head == j.head
      && (forall q: nat :: Pos(j.epoch, q) !in k.rows)
      && (forall limit :: ReadChangePage(k, j.epoch, j.floor, limit).BootstrapRequired?)
  {
    hide ReadChangePage, Continues;
    DensityAfterCompaction(j, c);
    forall limit ensures ReadChangePage(Compacted(j, c), j.epoch, j.floor, limit).BootstrapRequired? {
      EmptyIsRefused(Compacted(j, c), limit);
    }
  }

  lemma EmptyIsRefused<E>(j: Journal<E>, limit: int)
    requires j.floor < j.head && forall q: nat :: Pos(j.epoch, q) !in j.rows
    ensures ReadChangePage(j, j.epoch, j.floor, limit).BootstrapRequired?
  {
    hide ReadChangePage;
    ReadChangePageMeaning(j, j.epoch, j.floor, limit);
    assert Pos(j.epoch, j.floor + 1) !in j.rows;
  }

  function SeqRun(epoch: Epoch, low: nat, high: nat): (s: set<Pos>) {
    set q | low < q <= high :: Pos(epoch, q)
  }

  lemma {:induction false} SeqRunSize(epoch: Epoch, low: nat, high: nat)
    requires low <= high
    ensures |SeqRun(epoch, low, high)| == high - low
    decreases high - low
  {
    if low < high {
      SeqRunSize(epoch, low, high - 1);
      assert SeqRun(epoch, low, high) == SeqRun(epoch, low, high - 1) + {Pos(epoch, high)};
    }
  }

  // An unbounded call leaves at most the retention limit, or four times it under a hold.
  lemma CompactionBounds<E>(j: Journal<E>, c: Compaction)
    requires Dense(j) && Locked(j, c) && c.maxAdvance.None?
    ensures var kept := set p | p in Compacted(j, c).rows && p.epoch == j.epoch;
            |kept| <= if c.hold.None? then Retained(c) else Retained(c) * MAX_HELD_RETENTION_MULTIPLIER
    ensures c.purge ==> forall p :: p in Compacted(j, c).rows ==> p.epoch == j.epoch
  {
    var after := Compacted(j, c);
    CompactionKeepsDensity(j, c);
    var kept := set p | p in after.rows && p.epoch == j.epoch;
    forall p ensures p in kept <==> p in SeqRun(j.epoch, after.floor, j.head) {
      assert p.epoch == j.epoch ==> p == Pos(j.epoch, p.num);
    }
    assert kept == SeqRun(j.epoch, after.floor, j.head);
    SeqRunSize(j.epoch, after.floor, j.head);
    assert UnboundedFloor(c) <= after.floor;
  }

  // A hold that retention can honour keeps every later event readable.
  lemma HoldKeepsEvents<E>(j: Journal<E>, c: Compaction, q: nat)
    requires Dense(j) && Locked(j, c) && c.hold.Some?
    requires c.head - Retained(c) * MAX_HELD_RETENTION_MULTIPLIER <= c.hold.value < q
    requires Pos(j.epoch, q) in j.rows
    ensures Pos(j.epoch, q) in Compacted(j, c).rows
    ensures Compacted(j, c).rows[Pos(j.epoch, q)] == j.rows[Pos(j.epoch, q)]
  {
  }

  // A compaction of the current epoch, by a caller whose head and floor may have fallen behind.
  ghost predicate OfThisEpoch<E>(j: Journal<E>, c: Compaction) {
    c.epoch == j.epoch && c.head <= j.head && (c.currentFloor.Some? ==> c.currentFloor.value <= j.floor)
  }

  // What one call must keep, for any hold and any bound on its advance: every event among the last
  // thousand, or the last retention ones if those are more. It keeps their content, and moves no
  // floor that is not further behind.
  lemma {:induction false} RecentEventsStay<E>(j: Journal<E>, c: Compaction, q: nat)
    requires Dense(j) && OfThisEpoch(j, c)
    requires j.floor < q <= j.head && q > c.head - Max(1000, c.retention)
    ensures var k := Compacted(j, c); Pos(j.epoch, q) in k.rows && k.rows[Pos(j.epoch, q)] == j.rows[Pos(j.epoch, q)]
    ensures c.head - j.floor <= Max(1000, c.retention) ==> Compacted(j, c).floor == j.floor
  {
    assert Pos(j.epoch, q) in j.rows;
  }

  // What a call without a bound on its advance keeps, exactly: those events, and under a hold those
  // after the held one among four times as many.
  lemma {:induction false} KeptExactlyWhen<E>(j: Journal<E>, c: Compaction, q: nat)
    requires Dense(j) && Locked(j, c) && c.maxAdvance.None? && j.floor < q <= j.head
    ensures var retained := Max(1000, c.retention);
      Pos(j.epoch, q) in Compacted(j, c).rows
      <==> q > j.head - retained || (c.hold.Some? && q > c.hold.value && q > j.head - 4 * retained)
  {
    assert Pos(j.epoch, q) in j.rows;
  }

  // So a reader at most that far behind is served after the call.
  lemma {:induction false} RecentReadersAreServed<E>(j: Journal<E>, c: Compaction, cursor: nat, limit: int)
    requires Dense(j) && OfThisEpoch(j, c) && j.floor <= cursor <= j.head && c.head - cursor <= Max(1000, c.retention)
    ensures Compacted(j, c).floor <= cursor && ServesNext(Compacted(j, c), cursor, limit)
  {
    CompactionKeepsDensity(j, c);
    if cursor < j.head {
      assert Pos(j.epoch, cursor + 1) in Compacted(j, c).rows by { RecentEventsStay(j, c, cursor + 1); }
    }
    DenseJournalServes(Compacted(j, c), cursor, limit);
  }

  // A publisher that advances by at most step sequence numbers per call, n times, at one head.
  ghost function BoundedCalls<E>(j: Journal<E>, c: Compaction, step: nat, n: nat): Journal<E> {
    if n == 0 then j
    else
      var before := BoundedCalls(j, c, step, n - 1);
      Compacted(before, c.(currentFloor := Some(before.floor), maxAdvance := Some(step)))
  }

  lemma OneBoundedCall<E>(j: Journal<E>, c: Compaction, step: nat)
    requires Dense(j) && c.epoch == j.epoch && c.head == j.head
    ensures var k := Compacted(j, c.(currentFloor := Some(j.floor), maxAdvance := Some(step)));
            Dense(k) && k.epoch == j.epoch && k.head == j.head &&
            k.floor == Max(j.floor, Min(UnboundedFloor(c), j.floor + step))
  {
    var bounded := c.(currentFloor := Some(j.floor), maxAdvance := Some(step));
    assert UnboundedFloor(bounded) == UnboundedFloor(c);
    CompactionKeepsDensity(j, bounded);
  }

  lemma {:induction false} BoundedCallsProgress<E>(j: Journal<E>, c: Compaction, step: nat, n: nat)
    requires Dense(j) && c.epoch == j.epoch && c.head == j.head
    ensures var k := BoundedCalls(j, c, step, n);
            Dense(k) && k.epoch == j.epoch && k.head == j.head &&
            k.floor == Max(j.floor, Min(UnboundedFloor(c), j.floor + n * step))
  {
    hide Dense, Compacted, UnboundedFloor;
    if n > 0 {
      BoundedCallsProgress(j, c, step, n - 1);
      var before := BoundedCalls(j, c, step, n - 1);
      OneBoundedCall(before, c, step);
      assert n * step == (n - 1) * step + step;
    }
  }

  function CeilDiv(a: nat, b: nat): nat
    requires b > 0
  {
    (a + b - 1) / b
  }

  // Bounded calls reach the floor of one unbounded call after exactly ceil(gap / step) calls.
  lemma BoundedCallsCatchUp<E>(j: Journal<E>, c: Compaction, step: nat, n: nat)
    requires Dense(j) && c.epoch == j.epoch && c.head == j.head && step > 0
    requires j.floor <= UnboundedFloor(c)
    ensures BoundedCalls(j, c, step, n).floor == UnboundedFloor(c)
        <==> CeilDiv(UnboundedFloor(c) - j.floor, step) <= n
  {
    BoundedCallsProgress(j, c, step, n);
    var gap := UnboundedFloor(c) - j.floor;
    CeilDivMeaning(gap, step, n);
  }

  lemma CeilDivMeaning(gap: nat, step: nat, n: nat)
    requires step > 0
    ensures CeilDiv(gap, step) <= n <==> gap <= n * step
  {
    var k := CeilDiv(gap, step);
    assert k * step <= gap + step - 1 < k * step + step;
    if k <= n {
      assert k * step <= n * step;
    } else {
      assert (n + 1) * step <= k * step;
    }
  }

  // Events journaled one by one after the head.
  function Appended<E>(j: Journal<E>, es: seq<E>): Journal<E> {
    if es == [] then j
    else
      var k := Appended(j, es[..|es| - 1]);
      k.(head := k.head + 1, rows := k.rows[Pos(k.epoch, k.head + 1) := es[|es| - 1]])
  }

  lemma {:induction false} AppendedRows<E>(j: Journal<E>, es: seq<E>)
    ensures var k := Appended(j, es); k.epoch == j.epoch && k.head == j.head + |es| && k.floor == j.floor
    ensures forall p :: p in Appended(j, es).rows <==>
              p in j.rows || (p.epoch == j.epoch && j.head < p.num <= j.head + |es|)
    ensures forall p :: p in Appended(j, es).rows ==>
              var added := p.epoch == j.epoch && j.head < p.num <= j.head + |es|;
              Appended(j, es).rows[p] == (if added then es[p.num - j.head - 1] else j.rows[p])
    decreases |es|
  {
    if es != [] {
      AppendedRows(j, es[..|es| - 1]);
    }
  }

  lemma {:induction false} AppendKeepsDensity<E>(j: Journal<E>, es: seq<E>)
    requires Dense(j)
    ensures Dense(Appended(j, es))
  {
    AppendedRows(j, es);
  }

  // ---------------------------------------------------------------- reading

  datatype PageResult<E> = Served(events: seq<E>) | BootstrapRequired | CursorAhead

  // The sequence numbers one statement selects for a page, before LIMIT.
  function Selected<E>(j: Journal<E>, epoch: Epoch, after: int): set<nat> {
    set p | p in j.rows && p.epoch == j.epoch && after < p.num <= j.head && epoch == j.epoch && j.floor <= after
          :: p.num
  }

  // ORDER BY seq LIMIT size.
  function Listed<E>(j: Journal<E>, epoch: Epoch, after: int, size: nat): (r: seq<nat>)
    ensures forall i :: 0 <= i < |r| ==> Pos(j.epoch, r[i]) in j.rows
  {
    var all := Ascending(Selected(j, epoch, after));
    var r := if |all| <= size then all else all[..size];
    assert forall i :: 0 <= i < |r| ==> r[i] in all;
    r
  }

  // One page, read with the state row from a single snapshot and checked for density.
  function ReadChangePage<E>(j: Journal<E>, epoch: Epoch, after: int, limit: int): PageResult<E> {
    var size := Clamp(1, limit, MAX_PAGE_EVENTS);
    var seqs := Listed(j, epoch, after, size);
    if epoch != j.epoch || after < j.floor then BootstrapRequired
    else if after > j.head then CursorAhead
    else if seqs != Range(after + 1, Min(size, j.head - after)) then BootstrapRequired
    else Served(seq(|seqs|, i requires 0 <= i < |seqs| => j.rows[Pos(j.epoch, seqs[i])]))
  }

  ghost predicate Continues<E>(j: Journal<E>, after: nat, count: nat) {
    forall q: nat :: after < q <= after + count ==> Pos(j.epoch, q) in j.rows
  }

  ghost function EventsAfter<E>(j: Journal<E>, after: nat, count: nat): seq<E>
    requires Continues(j, after, count)
  {
    seq(count, i requires 0 <= i < count => j.rows[Pos(j.epoch, after + 1 + i)])
  }

  // What the statement selects for a reader whose epoch and floor are good.
  lemma SelectedRows<E>(j: Journal<E>, after: nat)
    requires j.floor <= after
    ensures forall q: nat :: q in Selected(j, j.epoch, after) <==> after < q <= j.head && Pos(j.epoch, q) in j.rows
  {
    forall q: nat ensures q in Selected(j, j.epoch, after) <==> after < q <= j.head && Pos(j.epoch, q) in j.rows {
      if after < q <= j.head && Pos(j.epoch, q) in j.rows {
        assert Pos(j.epoch, q).num in Selected(j, j.epoch, after);
      }
    }
  }

  lemma SelectedPage<E>(j: Journal<E>, after: nat, size: nat)
    requires j.floor <= after <= j.head && size > 0
    ensures var count := Min(size, j.head - after);
            Listed(j, j.epoch, after, size) == Range(after + 1, count) <==> Continues(j, after, count)
  {
    var count := Min(size, j.head - after);
    SelectedRows(j, after);
    if Continues(j, after, count) {
      CompletePage(j, after, size);
    } else {
      var q: nat :| after < q <= after + count && Pos(j.epoch, q) !in j.rows;
      MissingFromPage(j, after, size, q);
    }
  }

  lemma CompletePage<E>(j: Journal<E>, after: nat, size: nat)
    requires after <= j.head && Continues(j, after, Min(size, j.head - after))
    requires forall q: nat :: q in Selected(j, j.epoch, after) <==> after < q <= j.head && Pos(j.epoch, q) in j.rows
    ensures Listed(j, j.epoch, after, size) == Range(after + 1, Min(size, j.head - after))
  {
    hide Selected, Range, Ascending;
    var chosen := Selected(j, j.epoch, after);
    var count := Min(size, j.head - after);
    AscendingStartsWithRange(chosen, after + 1, count);
    if count < size {
      AscendingRange(chosen, after + 1, count);
    }
  }

  lemma MissingFromPage<E>(j: Journal<E>, after: nat, size: nat, q: nat)
    requires after < q <= after + Min(size, j.head - after) && q !in Selected(j, j.epoch, after)
    ensures Listed(j, j.epoch, after, size) != Range(after + 1, Min(size, j.head - after))
  {
    hide Selected;
    var seqs := Listed(j, j.epoch, after, size);
    assert q !in Ascending(Selected(j, j.epoch, after));
    assert forall i :: 0 <= i < |seqs| ==> seqs[i] in Ascending(Selected(j, j.epoch, after));
    assert Range(after + 1, Min(size, j.head - after))[q - after - 1] == q;
  }

  // The page without the query: served exactly when no event of it is missing.
  lemma ReadChangePageMeaning<E>(j: Journal<E>, epoch: Epoch, after: int, limit: int)
    ensures var count := Min(Clamp(1, limit, MAX_PAGE_EVENTS), j.head - after);
            ReadChangePage(j, epoch, after, limit) ==
            if epoch != j.epoch || after < j.floor then BootstrapRequired
            else if after > j.head then CursorAhead
            else if Continues(j, after, count) then Served(EventsAfter(j, after, count))
            else BootstrapRequired
  {
    if epoch == j.epoch && j.floor <= after <= j.head {
      var size := Clamp(1, limit, MAX_PAGE_EVENTS);
      var count := Min(size, j.head - after);
      SelectedPage(j, after, size);
      if Continues(j, after, count) {
        var seqs := Listed(j, epoch, after, size);
        var served := seq(|seqs|, i requires 0 <= i < |seqs| => j.rows[Pos(j.epoch, seqs[i])]);
        assert served == EventsAfter(j, after, count);
      }
    }
  }

  // The page is the next events after the cursor, as many as the limit allows, and some if any remain.
  ghost predicate ServesNext<E>(j: Journal<E>, after: nat, limit: int)
    requires after <= j.head
  {
    var count := Min(Clamp(1, limit, MAX_PAGE_EVENTS), j.head - after);
    && Continues(j, after, count)
    && ReadChangePage(j, j.epoch, after, limit) == Served(EventsAfter(j, after, count))
    && (after < j.head ==> count > 0)
  }

  // On a dense journal a reader within the floor and the head always makes progress.
  lemma DenseJournalServes<E>(j: Journal<E>, after: nat, limit: int)
    requires Dense(j) && j.floor <= after <= j.head
    ensures ServesNext(j, after, limit)
  {
    ReadChangePageMeaning(j, j.epoch, after, limit);
  }

  // ---------------------------------------------------------------- the stored journal

  // The journal columns and rows as the transactions update them in place.
  class JournalStore<E> {
    var epoch: Epoch
    var head: nat
    var floor: nat
    var rows: map<Pos, E>

    ghost function State(): (j: Journal<E>)
      reads this
      ensures j == Journal(epoch, head, floor, rows)
    {
      Journal(epoch, head, floor, rows)
    }

    constructor (epoch: Epoch)
      ensures State() == Journal(epoch, 0, 0, map[]) && Dense(State())
    {
      this.epoch, head, floor, rows := epoch, 0, 0, map[];
    }

    // Journals a publication's events after the head, one insert each.
    method Append(events: seq<E>)
      modifies this`head, this`rows
      ensures State() == Appended(old(State()), events)
    {
      var next := head;
      for i := 0 to |events|
        invariant State().(head := next) == Appended(old(State()), events[..i])
      {
        next := next + 1;
        rows := rows[Pos(epoch, next) := events[i]];
        assert events[..i + 1][..i] == events[..i];
      }
      assert events[..|events|] == events;
      head := next;
    }

    // A rebase starts an empty journal under a new epoch.
    method Rotate(newEpoch: Epoch)
      modifies this
      ensures State() == Journal(newEpoch, 0, 0, map[])
    {
      epoch, head, floor, rows := newEpoch, 0, 0, map[];
    }

    method Compact(c: Compaction) returns (target: int)
      modifies this`floor, this`rows
      ensures State() == Compacted(old(State()), c)
      ensures target == TargetFloor(c)
    {
      var retained := Max(MIN_RETAINED_CHANGE_EVENTS, c.retention);
      target := Max(0, c.head - retained);
      if c.hold.Some? {
        var hard := Max(0, c.head - retained * MAX_HELD_RETENTION_MULTIPLIER);
        target := Max(hard, Min(target, c.hold.value));
      }
      var advance := target > 0;
      if c.currentFloor.Some? {
        var current := c.currentFloor.value;
        if c.maxAdvance.Some? {
          target := Min(target, current + c.maxAdvance.value);
        }
        advance := target > current;
        target := Max(target, current);
      }
      assert target == TargetFloor(c) && advance == Advances(c);
      if c.purge {
        rows := map p | p in rows && p.epoch == c.epoch :: rows[p];
      }
      if advance {
        rows := map p | p in rows && !(p.epoch == c.epoch && p.num <= target) :: rows[p];
        if epoch == c.epoch {
          floor := if floor < target then target else floor;
        }
      }
    }
  }
}
