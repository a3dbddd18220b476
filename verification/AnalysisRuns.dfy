// What every sequence of projections keeps, whatever each of them reads.

module AnalysisRuns {
  import opened Prelude
  import opened ChangeJournal
  import opened Evidence
  import opened AnalysisProjection

  const NO_VIEW := View(map[], map[])

  function Start(epoch: Epoch): Db { Db(0, map[], Journal(epoch, 0, 0, map[])) }

  function NextDb(db: Db, run: Run, clean: Clean): Db {
    var r := Project(db, run, clean);
    if r.Ok? && r.value.Some? then r.value.value else db
  }

  // The events a run journals.
  function Emitted(db: Db, run: Run, clean: Clean): seq<Change> {
    var r := Project(db, run, clean);
    if r.Ok? && r.value.Some? && Rereadable(Previous(db).items, run) then Changes(Previous(db), run, clean) else []
  }

  function Exec(epoch: Epoch, runs: seq<Run>, clean: Clean): Db {
    if runs == [] then Start(epoch) else NextDb(Exec(epoch, runs[..|runs| - 1], clean), runs[|runs| - 1], clean)
  }

  // Every event ever journaled, in order.
  function History(epoch: Epoch, runs: seq<Run>, clean: Clean): seq<Change> {
    if runs == [] then []
    else
      var init := runs[..|runs| - 1];
      History(epoch, init, clean) + Emitted(Exec(epoch, init, clean), runs[|runs| - 1], clean)
  }

  // The journal holds the events after its floor, and all events together make the published view.
  ghost predicate Inv(db: Db, history: seq<Change>, clean: Clean) {
    && Dense(db.journal)
    && db.journal.head == |history|
    && (forall q: nat :: db.journal.floor < q <= db.journal.head ==>
          Pos(db.journal.epoch, q) in db.journal.rows && db.journal.rows[Pos(db.journal.epoch, q)] == history[q - 1])
    && AllConsistent(Previous(db).items)
    && ViewOf(Previous(db), clean) == Replay(NO_VIEW, history)
  }

  lemma {:induction false} JournalGrows(j: Journal<Change>, history: seq<Change>, events: seq<Change>, run: Run)
    requires Dense(j) && j.head == |history|
    requires forall q: nat :: j.floor < q <= j.head ==>
      Pos(j.epoch, q) in j.rows && j.rows[Pos(j.epoch, q)] == history[q - 1]
    ensures var k := JournalAfter(j, events, run);
      Dense(k) && k.epoch == j.epoch && k.head == |history + events| && j.floor <= k.floor
      && forall q: nat :: k.floor < q <= k.head ==>
           Pos(k.epoch, q) in k.rows && k.rows[Pos(k.epoch, q)] == (history + events)[q - 1]
  {
    hide Appended, Compacted;
    AppendKeepsDensity(j, events);
    AppendedRows(j, events);
    var grown := Appended(j, events);
    var c := ProjectionCompaction(grown, run);
    CompactionKeepsDensity(grown, c);
    CompactionKeepsRows(grown, c);
    var k := JournalAfter(j, events, run);
    forall q: nat | k.floor < q <= k.head
      ensures Pos(k.epoch, q) in k.rows && k.rows[Pos(k.epoch, q)] == (history + events)[q - 1]
    {
      assert grown.rows[Pos(j.epoch, q)] == (history + events)[q - 1];
    }
  }

  lemma CompactionKeepsRows(j: Journal<Change>, c: Compaction)
    ensures var k := Compacted(j, c);
      k.epoch == j.epoch && k.head == j.head && forall p :: p in k.rows ==> p in j.rows && k.rows[p] == j.rows[p]
  {
  }

  lemma {:induction false} NextKeeps(db: Db, history: seq<Change>, run: Run, clean: Clean)
    requires Inv(db, history, clean) && LinksCovered(run)
    ensures Inv(NextDb(db, run, clean), history + Emitted(db, run, clean), clean)
  {
    hide Dense, AllConsistent, ViewOf, Replay, Changes, NewItems, NewLinks, JournalAfter, NothingChanged, Recompute, Seen;
    var r := Project(db, run, clean);
    if r.Ok? && r.value.Some? {
      var prior := Previous(db);
      var events := Changes(prior, run, clean);
      JournalGrows(db.journal, history, events, run);
      IncrementalIsRecompute(db, run, clean);
      JournalIsDifference(prior, run, clean);
      ReplayConcat(NO_VIEW, history, events);
    } else {
      assert history + Emitted(db, run, clean) == history;
    }
  }

  lemma {:induction false} EveryRunKeeps(epoch: Epoch, runs: seq<Run>, clean: Clean)
    requires forall i :: 0 <= i < |runs| ==> LinksCovered(runs[i])
    ensures Inv(Exec(epoch, runs, clean), History(epoch, runs, clean), clean)
    ensures Exec(epoch, runs, clean).journal.epoch == epoch
    decreases |runs|
  {
    if runs != [] {
      var init := runs[..|runs| - 1];
      EveryRunKeeps(epoch, init, clean);
      NextKeeps(Exec(epoch, init, clean), History(epoch, init, clean), runs[|runs| - 1], clean);
      SameEpoch(Exec(epoch, init, clean), runs[|runs| - 1], clean);
    } else {
      assert ViewOf(Previous(Start(epoch)), clean) == NO_VIEW;
    }
  }

  lemma {:induction false} SameEpoch(db: Db, run: Run, clean: Clean)
    requires Dense(db.journal)
    ensures NextDb(db, run, clean).journal.epoch == db.journal.epoch
  {
    var r := Project(db, run, clean);
    if r.Ok? && r.value.Some? {
      AppendedRows(db.journal, Changes(Previous(db), run, clean));
    }
  }

  // What a client holds that has followed the stream up to a cursor.
  function MirrorAt(history: seq<Change>, cursor: nat): View
    requires cursor <= |history|
  {
    Replay(NO_VIEW, history[..cursor])
  }

  lemma EventsAreHistory(j: Journal<Change>, history: seq<Change>, cursor: nat, count: nat)
    requires j.head == |history| && j.floor <= cursor && cursor + count <= j.head
    requires forall q: nat :: j.floor < q <= j.head ==>
      Pos(j.epoch, q) in j.rows && j.rows[Pos(j.epoch, q)] == history[q - 1]
    ensures Continues(j, cursor, count) && EventsAfter(j, cursor, count) == history[cursor..cursor + count]
  {
  }

  // After any sequence of projections, over whatever they read, a client whose cursor the journal
  // still covers gets the next events from one page, and holds the published view at the head.
  lemma {:induction false} FollowersCatchUp(epoch: Epoch, runs: seq<Run>, clean: Clean, cursor: nat, limit: int)
    requires forall i :: 0 <= i < |runs| ==> LinksCovered(runs[i])
    requires var j := Exec(epoch, runs, clean).journal; j.floor <= cursor <= j.head
    ensures var db := Exec(epoch, runs, clean);
      var history := History(epoch, runs, clean);
      var count := Min(Clamp(1, limit, MAX_PAGE_EVENTS), db.journal.head - cursor);
      && |history| == db.journal.head
      && ReadChangePage(db.journal, epoch, cursor, limit) == Served(history[cursor..cursor + count])
      && Replay(MirrorAt(history, cursor), history[cursor..cursor + count]) == MirrorAt(history, cursor + count)
      && MirrorAt(history, db.journal.head) == ViewOf(Previous(db), clean)
  {
    hide Exec, History, Replay, ViewOf, MirrorAt, ReadChangePage, Clamp, Dense;
    EveryRunKeeps(epoch, runs, clean);
    var db, history := Exec(epoch, runs, clean), History(epoch, runs, clean);
    PageIsHistory(db.journal, history, cursor, limit);
    MirrorAdvances(history, cursor, Min(Clamp(1, limit, MAX_PAGE_EVENTS), db.journal.head - cursor));
  }

  lemma {:induction false} PageIsHistory(j: Journal<Change>, history: seq<Change>, cursor: nat, limit: int)
    requires Dense(j) && j.head == |history| && j.floor <= cursor <= j.head
    requires forall q: nat :: j.floor < q <= j.head ==>
      Pos(j.epoch, q) in j.rows && j.rows[Pos(j.epoch, q)] == history[q - 1]
    ensures var count := Min(Clamp(1, limit, MAX_PAGE_EVENTS), j.head - cursor);
      ReadChangePage(j, j.epoch, cursor, limit) == Served(history[cursor..cursor + count])
  {
    hide ReadChangePage, Dense, Clamp;
    DenseJournalServes(j, cursor, limit);
    EventsAreHistory(j, history, cursor, Min(Clamp(1, limit, MAX_PAGE_EVENTS), j.head - cursor));
  }

  lemma {:induction false} MirrorAdvances(history: seq<Change>, cursor: nat, count: nat)
    requires cursor + count <= |history|
    ensures Replay(MirrorAt(history, cursor), history[cursor..cursor + count]) == MirrorAt(history, cursor + count)
    ensures MirrorAt(history, |history|) == Replay(NO_VIEW, history)
  {
    assert history[..cursor] + history[cursor..cursor + count] == history[..cursor + count];
    ReplayConcat(NO_VIEW, history[..cursor], history[cursor..cursor + count]);
    assert history[..|history|] == history;
  }

  // The analysis rows a run read last: one that is rewritten is read again.
  function LastRead(db: Db, run: Run, clean: Clean): map<Id, Audio> {
    var r := Project(db, run, clean);
    if r.Ok? && r.value.Some? && Rereadable(Previous(db).items, run) then Seen(Previous(db).items, run) else run.compared
  }

  // After a run that did not fail, the published view is a full recompute of what it read last,
  // however the earlier runs went and whatever changed between its two reads.
  lemma {:induction false} PublishedIsRecomputed(epoch: Epoch, runs: seq<Run>, run: Run, clean: Clean)
    requires forall i :: 0 <= i < |runs| ==> LinksCovered(runs[i])
    requires LinksCovered(run) && Project(Exec(epoch, runs, clean), run, clean).Ok?
    ensures ViewOf(Previous(Exec(epoch, runs + [run], clean)), clean)
         == ViewOf(Recompute(LastRead(Exec(epoch, runs, clean), run, clean), run.umap, run.links), clean)
    ensures ShowsRead(ViewOf(Previous(Exec(epoch, runs + [run], clean)), clean),
                      LastRead(Exec(epoch, runs, clean), run, clean), run.umap, run.links, clean)
    ensures run.compared == run.reread ==> LastRead(Exec(epoch, runs, clean), run, clean) == run.compared
  {
    hide ViewOf, Recompute, Project, Exec, AllConsistent, LastRead, ShowsRead;
    EveryRunKeeps(epoch, runs, clean);
    ExecNext(epoch, runs, run, clean);
    NextIsRecomputed(Exec(epoch, runs, clean), run, clean);
    RecomputeShows(LastRead(Exec(epoch, runs, clean), run, clean), run.umap, run.links, clean);
  }

  // After any run a client is served that was at most a thousand events, or twice the published
  // items and links, behind the new head.
  lemma {:induction false} RecentFollowersSurvive(epoch: Epoch, runs: seq<Run>, run: Run, clean: Clean, cursor: nat, limit: int)
    requires forall i :: 0 <= i < |runs| ==> LinksCovered(runs[i])
    requires LinksCovered(run)
    requires var j := Exec(epoch, runs, clean).journal; j.floor <= cursor <= j.head
    requires NextDb(Exec(epoch, runs, clean), run, clean).journal.head - cursor
             <= Max(1000, 2 * (|run.compared| + |run.links|))
    ensures var j := Exec(epoch, runs + [run], clean).journal;
      j.epoch == epoch && j.floor <= cursor <= j.head && ServesNext(j, cursor, limit)
  {
    hide Exec, ServesNext, Project, Dense;
    EveryRunKeeps(epoch, runs, clean);
    ExecNext(epoch, runs, run, clean);
    var db := Exec(epoch, runs, clean);
    SameEpoch(db, run, clean);
    RunKeepsReaders(db, run, clean, cursor, limit);
  }

  lemma {:induction false} RunKeepsReaders(db: Db, run: Run, clean: Clean, cursor: nat, limit: int)
    requires Dense(db.journal) && db.journal.floor <= cursor <= db.journal.head
    requires NextDb(db, run, clean).journal.head - cursor <= Max(1000, 2 * (|run.compared| + |run.links|))
    ensures var j := NextDb(db, run, clean).journal; j.floor <= cursor <= j.head && ServesNext(j, cursor, limit)
  {
    hide ServesNext, Dense, Changes, NewItems, NewLinks, NothingChanged, Compacted, Appended;
    DenseJournalServes(db.journal, cursor, limit);
    var r := Project(db, run, clean);
    if r.Ok? && r.value.Some? {
      var events := Changes(Previous(db), run, clean);
      var grown := Appended(db.journal, events);
      AppendKeepsDensity(db.journal, events);
      AppendedRows(db.journal, events);
      CompactedHead(grown, ProjectionCompaction(grown, run));
      RecentReadersAreServed(grown, ProjectionCompaction(grown, run), cursor, limit);
    }
  }

  lemma CompactedHead(j: Journal<Change>, c: Compaction)
    ensures Compacted(j, c).head == j.head && Compacted(j, c).epoch == j.epoch
  {
  }

  lemma ExecNext(epoch: Epoch, runs: seq<Run>, run: Run, clean: Clean)
    ensures Exec(epoch, runs + [run], clean) == NextDb(Exec(epoch, runs, clean), run, clean)
  {
    assert (runs + [run])[..|runs|] == runs;
  }

  lemma SeenIsCompared(items: map<Id, Item>, run: Run)
    requires Rereadable(items, run) && run.compared == run.reread
    ensures Seen(items, run) == run.compared
  {
    hide RewrittenItems;
  }

  lemma {:induction false} NextIsRecomputed(db: Db, run: Run, clean: Clean)
    requires AllConsistent(Previous(db).items) && Project(db, run, clean).Ok?
    ensures ViewOf(Previous(NextDb(db, run, clean)), clean)
         == ViewOf(Recompute(LastRead(db, run, clean), run.umap, run.links), clean)
    ensures run.compared == run.reread ==> LastRead(db, run, clean) == run.compared
  {
    hide ViewOf, Recompute, Project, AllConsistent, Seen, Rereadable;
    if Project(db, run, clean).value.Some? {
      IncrementalIsRecompute(db, run, clean);
      if run.compared == run.reread { SeenIsCompared(Previous(db).items, run); }
    } else {
      NoOpIsCurrent(db, run, clean);
    }
  }

  // ---------------------------------------------------------------- what a no-op may leave behind

  const ANALYSIS: Id := 5

  // A run over one analysis row and no track.
  function OneRow(vector: Vector): Run {
    var rows := map[ANALYSIS := Audio(0, vector, None)];
    Run([], map[], map[], rows, rows, true, false, {})
  }

  // A row is published without a vector; then AudioMuse stores an empty one. The next run finds
  // nothing to do, although recomputing would store the empty vector.
  lemma {:induction false} EmptyVectorStaysNull(epoch: Epoch, clean: Clean)
    ensures var db := Exec(epoch, [OneRow(None)], clean);
      var run := OneRow(Some([]));
      && Project(db, run, clean) == Ok(None)
      && Previous(db).items != Recompute(run.compared, run.umap, run.links).items
  {
    hide Project, Exec, Recompute, NextDb;
    var one, two := OneRow(None), OneRow(Some([]));
    assert Exec(epoch, [one], clean) == NextDb(Start(epoch), one, clean) by { FirstRun(epoch, one, clean); }
    NullIsStored(epoch, clean);
    NothingToStore(NextDb(Start(epoch), one, clean), clean);
  }

  lemma FirstRun(epoch: Epoch, run: Run, clean: Clean)
    ensures Exec(epoch, [run], clean) == NextDb(Start(epoch), run, clean)
  {
    assert [run][..0] == [];
  }

  function OneItem(vector: Vector): Generation {
    Generation(map[ANALYSIS := MakeItem(Audio(0, vector, None), None)], map[])
  }

  lemma {:induction false} NullIsStored(epoch: Epoch, clean: Clean)
    ensures var db := NextDb(Start(epoch), OneRow(None), clean);
      db.generation == 1 && Previous(db) == OneItem(None)
  {
    hide Project, Recompute;
    var start, one := Start(epoch), OneRow(None);
    assert Project(start, one, clean).Ok? && Project(start, one, clean).value.Some? by { FirstRunWrites(epoch, clean); }
    IncrementalIsRecompute(start, one, clean);
    SeenIsCompared(map[], one);
    assert Recompute(one.compared, one.umap, one.links) == OneItem(None) by { RecomputedRow(None); }
  }

  lemma FirstRunWrites(epoch: Epoch, clean: Clean)
    ensures Project(Start(epoch), OneRow(None), clean).Ok? && Project(Start(epoch), OneRow(None), clean).value.Some?
    ensures Rereadable(map[], OneRow(None))
  {
    hide Changes, JournalAfter, NewItems, NewLinks, Pruned, NothingChanged;
  }

  lemma RecomputedRow(vector: Vector)
    ensures Recompute(OneRow(vector).compared, map[], map[]) == OneItem(vector)
  {
  }

  lemma NothingToStore(db: Db, clean: Clean)
    requires db.generation == 1 && Previous(db) == OneItem(None)
    ensures var run := OneRow(Some([]));
      Project(db, run, clean) == Ok(None)
      && Previous(db).items != Recompute(run.compared, run.umap, run.links).items
  {
    hide Changes, JournalAfter, NewItems, NewLinks, Pruned;
    var run := OneRow(Some([]));
    RecomputedRow(Some([]));
    assert OneItem(None).items[ANALYSIS] != OneItem(Some([])).items[ANALYSIS];
    assert ChangedItems(OneItem(None).items, run) == {} && RemovedItems(OneItem(None).items, run) == {};
    assert NothingChanged(OneItem(None), run, clean);
  }
}
