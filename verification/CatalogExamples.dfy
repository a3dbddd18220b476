// A concrete run in which maintenance that read the state before a rebase purges the new journal.

module CatalogExamples {
  import opened Prelude
  import opened ChangeJournal
  import opened CatalogTypes
  import opened CatalogDiff
  import opened CatalogStore
  import opened CatalogProtocol
  import opened CatalogTheorems
  import opened CatalogOutcomes

  // A catalogue of one track, with the given metadata.
  function OneTrack(digest: nat): Snapshot {
    Snapshot([], [], [], [Row(1, Metadata(digest, {}), 0, 0)])
  }

  function OneRow(digest: nat): Rows {
    map[Key(Track, 1) := Row(1, Metadata(digest, {}), 0, 0)]
  }

  lemma OneTrackRows(digest: nat)
    ensures SnapshotRows(OneTrack(digest)) == OneRow(digest)
    ensures Insertable(OneTrack(digest)) && NoEmptyIds(OneTrack(digest))
  {
    var rows := [Row(1, Metadata(digest, {}), 0, 0)];
    assert rows[..0] == [] && TableOf(Track, []) == map[];
    assert TableOf(Track, rows) == OneRow(digest);
    InsertableByTable(OneTrack(digest));
  }

  // A refresh that nobody disturbs commits its plan.
  lemma {:induction false} Undisturbed(w: World, s: Snapshot, newEpoch: Epoch)
    requires w.publishers == map[] && w.lock == None && NoEmptyIds(s) && newEpoch !in w.history
    requires var plan := PlanRefresh(BaseOf(w.db), ViewOf(Published(w.db)), s);
      plan.Ok? && plan.value.Write? && CommitRefresh(w.db, plan.value, newEpoch).Ok?
    ensures var plan := PlanRefresh(BaseOf(w.db), ViewOf(Published(w.db)), s).value;
      var after := Exec(w, Refresh(0, s, newEpoch));
      && after.db == CommitRefresh(w.db, plan, newEpoch).value
      && after.publishers == map[] && after.lock == None && after.notes == w.notes
      && after.history == Recorded(w.history, w.db.journal.epoch, plan, newEpoch)
  {
    hide Exec, NoEmptyIds, PlanRefresh, ViewOf, CommitRefresh, Recorded, Next;
    ExecRefresh(w, 0, s, newEpoch);
    var prior := ViewOf(Published(w.db));
    var plan := PlanRefresh(BaseOf(w.db), prior, s).value;
    RefreshBuilds(w, 0, s);
    var built := w.(lock := Some(0), publishers := w.publishers[0 := Built(s, prior, plan, true)]);
    RefreshCommits(built, 0, plan, newEpoch);
    assert w.publishers[0 := Built(s, prior, plan, true)] - {0} == map[];
  }

  // What a publication of one track plans and commits, in each of the three situations.
  ghost predicate Situation(w: World, generation: nat, epoch: Epoch, rows: Rows) {
    && w.publishers == map[] && w.lock == None
    && w.db.generation == generation && w.db.journal.epoch == epoch
    && Published(w.db) == rows
    && (forall g :: g in w.db.generations ==> g <= generation)
  }

  lemma {:induction false} FirstRefresh(w: World, epoch: Epoch)
    requires w == Init(epoch)
    ensures var after := Exec(w, Refresh(0, OneTrack(0), epoch + 1));
      && Situation(after, 1, epoch, OneRow(0)) && after.history.Keys == {epoch}
  {
    hide DiffEvents, Compacted, Appended, SnapshotRows, Insertable, NoEmptyIds;
    OneTrackRows(0);
    Undisturbed(w, OneTrack(0), epoch + 1);
    KeepsEpoch(w.db.journal, PlanRefresh(BaseOf(w.db), ViewOf(Published(w.db)), OneTrack(0)).value, epoch + 1);
  }

  lemma KeepsEpoch(j: Journal<Event>, plan: Plan, newEpoch: Epoch)
    requires plan.Write?
    ensures JournalAfter(j, plan, newEpoch).epoch == if plan.rebase then newEpoch else j.epoch
  {
    AppendedRows(j, plan.events);
  }

  lemma {:induction false} RebasingRefresh(w: World, epoch: Epoch, newEpoch: Epoch)
    requires Situation(w, 1, epoch, OneRow(0)) && w.db.schema == 0 && newEpoch !in w.history
    ensures var after := Exec(w, Refresh(0, OneTrack(0), newEpoch));
      && Situation(after, 2, newEpoch, OneRow(0)) && after.db.journal.head == 0 && after.db.journal.floor == 0
      && after.db.schema == CATALOG_FINGERPRINT_SCHEMA_VERSION
      && after.notes == w.notes && after.history.Keys == w.history.Keys + {newEpoch}
  {
    hide DiffEvents, Compacted, Appended, SnapshotRows, Insertable, NoEmptyIds, ViewOf;
    OneTrackRows(0);
    Undisturbed(w, OneTrack(0), newEpoch);
    CompactedKeeps(Journal(newEpoch, 0, 0, map[]), PublicationCompaction(Journal(newEpoch, 0, 0, map[]), 1, true));
  }

  lemma CompactedKeeps(j: Journal<Event>, c: Compaction)
    ensures Compacted(j, c).epoch == j.epoch && Compacted(j, c).head == j.head
    ensures j.floor == 0 && c.head <= j.head && c.currentFloor.None? && j.head > 0 && c.hold.None? ==>
      Compacted(j, c).floor < j.head
    ensures j.floor == 0 && c.head == 0 && c.currentFloor.None? ==> Compacted(j, c).floor == 0
  {
  }

  lemma {:induction false} ChangingRefresh(w: World, epoch: Epoch, newEpoch: Epoch)
    requires Situation(w, 2, epoch, OneRow(0)) && w.db.schema == CATALOG_FINGERPRINT_SCHEMA_VERSION
    requires newEpoch !in w.history && w.db.journal.head == 0 && w.db.journal.floor == 0 && epoch in w.history
    ensures var after := Exec(w, Refresh(0, OneTrack(1), newEpoch));
      && after.db.journal.epoch == epoch && after.db.journal.floor < after.db.journal.head && after.notes == w.notes
  {
    hide DiffEvents, Compacted, Appended, SnapshotRows, Insertable, NoEmptyIds, ViewOf;
    OneTrackRows(1);
    var prior := ViewOf(OneRow(0));
    var events := DiffEvents(3, prior, OneRow(1));
    assert events != [] by { Differs(); }
    Undisturbed(w, OneTrack(1), newEpoch);
    AppendedRows(w.db.journal, events);
    var grown := Appended(w.db.journal, events);
    CompactedKeeps(grown, PublicationCompaction(grown, 1, false));
  }

  lemma Differs()
    ensures DiffEvents(3, ViewOf(OneRow(0)), OneRow(1)) != []
  {
    DiffEmptyWhenUnchanged(3, ViewOf(OneRow(0)), OneRow(1));
    assert ViewOf(OneRow(0))[Key(Track, 1)] != ViewOf(OneRow(1))[Key(Track, 1)];
  }

  // The run up to the point where maintenance deletes what it takes for other epochs.
  function BeforePurge(epoch: Epoch): seq<Step> {
    ((Refresh(0, OneTrack(0), epoch + 1) + [Deploy(0), ReadMaintenance(7)]) + Refresh(0, OneTrack(0), epoch + 2))
    + Refresh(0, OneTrack(1), epoch + 3)
  }

  lemma {:induction false} BeforePurgeState(epoch: Epoch)
    ensures var w := Exec(Init(epoch), BeforePurge(epoch));
      && 7 in w.notes && w.notes[7].epoch == epoch
      && w.db.journal.epoch == epoch + 2 && w.db.journal.floor < w.db.journal.head
  {
    hide Exec, Next, Refresh;
    var first := Refresh(0, OneTrack(0), epoch + 1);
    var install := [Deploy(0), ReadMaintenance(7)];
    var rebase := Refresh(0, OneTrack(0), epoch + 2);
    var change := Refresh(0, OneTrack(1), epoch + 3);
    ExecConcat(Init(epoch), (first + install) + rebase, change);
    ExecConcat(Init(epoch), first + install, rebase);
    ExecConcat(Init(epoch), first, install);
    FirstRefresh(Init(epoch), epoch);
    var w1 := Exec(Init(epoch), first);
    Installed(w1, epoch);
    var w2 := Exec(w1, install);
    RebasingRefresh(w2, epoch, epoch + 2);
    var w3 := Exec(w2, rebase);
    ChangingRefresh(w3, epoch + 2, epoch + 3);
  }

  lemma {:induction false} Installed(w: World, epoch: Epoch)
    requires Situation(w, 1, epoch, OneRow(0))
    ensures var after := Exec(w, [Deploy(0), ReadMaintenance(7)]);
      && Situation(after, 1, epoch, OneRow(0)) && after.db.schema == 0 && after.history == w.history
      && 7 in after.notes && after.notes[7].epoch == epoch
  {
    assert [Deploy(0), ReadMaintenance(7)] == [Deploy(0)] + [ReadMaintenance(7)];
    ExecConcat(w, [Deploy(0)], [ReadMaintenance(7)]);
    ExecOne(w, Deploy(0));
    ExecOne(Next(w, Deploy(0)), ReadMaintenance(7));
  }

  lemma SoFarOrderly(epoch: Epoch)
    ensures OrderlyRun(epoch, BeforePurge(epoch))
  {
    hide Exec;
  }

  // No row is lost behind the journal's back, every publisher takes its lock, and still a reader of
  // the current epoch, at its floor and behind its head, is told to bootstrap.
  lemma {:induction false} StaleMaintenanceBreaksARun(epoch: Epoch, limit: int)
    ensures var steps := BeforePurge(epoch) + [Maintain(7)];
      var j := Exec(Init(epoch), steps).db.journal;
      && AllLock(steps) && (forall i :: 0 <= i < |steps| ==> !steps[i].LoseJournalRows?)
      && !Dense(j) && j.floor < j.head
      && ReadChangePage(j, j.epoch, j.floor, limit) == BootstrapRequired
  {
    hide Exec, Dense, ReadChangePage;
    var w := Exec(Init(epoch), BeforePurge(epoch));
    BeforePurgeState(epoch);
    SoFarOrderly(epoch);
    OrderlyRunIsDense(epoch, BeforePurge(epoch));
    MaintainKeepsDensity(w, 7);
    ExecConcat(Init(epoch), BeforePurge(epoch), [Maintain(7)]);
    ExecOne(w, Maintain(7));
    var m := MaintenanceCompaction(w.notes[7]);
    PurgedIsUnreadable(w.db.journal, m, limit);
  }

  lemma {:induction false} PurgedIsUnreadable(j: Journal<Event>, c: Compaction, limit: int)
    requires c.purge && c.epoch != j.epoch && j.floor < j.head
    ensures var k := Compacted(j, c);
      && k.epoch == j.epoch && k.floor == j.floor && k.head == j.head
      && ReadChangePage(k, k.epoch, k.floor, limit) == BootstrapRequired
  {
    var k := Compacted(j, c);
    ReadChangePageMeaning(k, k.epoch, k.floor, limit);
    assert Pos(k.epoch, k.floor + 1) !in k.rows;
  }
}
