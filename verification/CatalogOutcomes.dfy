// What publishers, clients and leases are sure to get: refreshes are published, bootstraps end,
// followers arrive, and storage is given up exactly when nothing holds it.

module CatalogOutcomes {
  import opened Prelude
  import opened ChangeJournal
  import opened CatalogTypes
  import opened CatalogDiff
  import opened CatalogBootstrap
  import opened CatalogStore
  import opened CatalogProtocol
  import opened CatalogTheorems

  // ---------------------------------------------------------------- a refresh is published

  function Refresh(p: Name, s: Snapshot, newEpoch: Epoch): seq<Step> {
    [Fetch(p, s), TakeLock(p), Build(p), Commit(p, newEpoch)]
  }

  lemma {:induction false} ExecRefresh(w: World, p: Name, s: Snapshot, newEpoch: Epoch)
    ensures Exec(w, Refresh(p, s, newEpoch))
      == Next(Next(Next(Next(w, Fetch(p, s)), TakeLock(p)), Build(p)), Commit(p, newEpoch))
  {
    hide Next, Exec;
    var a, b, c, d := [Fetch(p, s)], [TakeLock(p)], [Build(p)], [Commit(p, newEpoch)];
    assert Refresh(p, s, newEpoch) == ((a + b) + c) + d;
    ExecConcat(w, (a + b) + c, d);
    ExecConcat(w, a + b, c);
    ExecConcat(w, a, b);
    ExecOne(w, Fetch(p, s));
    ExecOne(Next(w, Fetch(p, s)), TakeLock(p));
    ExecOne(Next(Next(w, Fetch(p, s)), TakeLock(p)), Build(p));
    ExecOne(Next(Next(Next(w, Fetch(p, s)), TakeLock(p)), Build(p)), Commit(p, newEpoch));
  }

  // In every reachable state in which nobody holds the publisher lock, a refresh of a catalogue
  // that can be stored leaves exactly that catalogue published, in every compared field. It takes
  // a new generation exactly when something differs, or the stored one was fingerprinted otherwise.
  lemma {:induction false} RefreshPublishes(w: World, p: Name, s: Snapshot, newEpoch: Epoch)
    requires Reachable(w) && w.lock == None && p !in w.publishers && newEpoch !in w.history
    requires NoEmptyIds(s) && s.tracks != [] && Insertable(s)
    ensures var after := Exec(w, Refresh(p, s, newEpoch));
      var same := w.db.generation > 0 && w.db.schema == CATALOG_FINGERPRINT_SCHEMA_VERSION
                  && SameCatalogue(Published(w.db), SnapshotRows(s));
      && SameCatalogue(Published(after.db), SnapshotRows(s))
      && after.db.schema == CATALOG_FINGERPRINT_SCHEMA_VERSION
      && after.db.generation == w.db.generation + (if same then 0 else 1)
      && after.lock == None && after.publishers == w.publishers
  {
    hide Exec, Next, NoEmptyIds, Insertable, SnapshotRows, ViewOf, PlanRefresh, CommitRefresh, SameCatalogue;
    ExecRefresh(w, p, s, newEpoch);
    RefreshDecides(BaseOf(w.db), Published(w.db), s);
    var prior := ViewOf(Published(w.db));
    var plan := PlanRefresh(BaseOf(w.db), prior, s).value;
    RefreshBuilds(w, p, s);
    var built := w.(lock := Some(p), publishers := w.publishers[p := Built(s, prior, plan, true)]);
    RefreshCommits(built, p, plan, newEpoch);
    assert w.publishers[p := Built(s, prior, plan, true)] - {p} == w.publishers;
    assert w.db.generation + 1 !in w.db.generations by { ReachableKeeps(w); FreshGeneration(w); }
    PlanPublishes(w.db, plan, newEpoch);
    assert SameCatalogue(SnapshotRows(s), SnapshotRows(s)) by { ViewsTell(SnapshotRows(s), SnapshotRows(s)); }
  }

  lemma FreshGeneration(w: World)
    requires Inv(w)
    ensures w.db.generation + 1 !in w.db.generations
  {
  }

  lemma {:induction false} RefreshBuilds(w: World, p: Name, s: Snapshot)
    requires p !in w.publishers && w.lock == None && NoEmptyIds(s)
    requires PlanRefresh(BaseOf(w.db), ViewOf(Published(w.db)), s).Ok?
    ensures var prior := ViewOf(Published(w.db));
      Next(Next(Next(w, Fetch(p, s)), TakeLock(p)), Build(p))
      == w.(lock := Some(p),
            publishers := w.publishers[p := Built(s, prior, PlanRefresh(BaseOf(w.db), prior, s).value, true)])
  {
    hide PlanRefresh, ViewOf, NoEmptyIds, Published;
    var w1 := Next(w, Fetch(p, s));
    assert w1 == w.(publishers := w.publishers[p := Fetched(s)]);
    var w2 := Next(w1, TakeLock(p));
    assert w2 == w.(lock := Some(p), publishers := w.publishers[p := Holding(s)]);
  }

  lemma {:induction false} RefreshCommits(w: World, p: Name, plan: Plan, newEpoch: Epoch)
    requires p in w.publishers && w.publishers[p].Built? && w.publishers[p].plan == plan && newEpoch !in w.history
    requires w.lock == Some(p)
    ensures var after := Next(w, Commit(p, newEpoch));
      var r := CommitRefresh(w.db, plan, newEpoch);
      && after.db == (if r.Ok? then r.value else w.db) && after.lock == None && after.publishers == w.publishers - {p}
      && after.notes == w.notes
      && (r.Ok? && plan.Write? ==> after.history == Recorded(w.history, w.db.journal.epoch, plan, newEpoch))
  {
    hide CommitRefresh, Recorded;
  }

  lemma {:induction false} PlanPublishes(db: Db, plan: Plan, newEpoch: Epoch)
    requires plan.base == BaseOf(db) && db.generation + 1 !in db.generations
    ensures var r := CommitRefresh(db, plan, newEpoch);
      && r.Ok? && r.value.schema == CATALOG_FINGERPRINT_SCHEMA_VERSION
      && (plan.NoChange? ==> Published(r.value) == Published(db) && r.value.generation == db.generation)
      && (plan.Write? ==> Published(r.value) == plan.rows && r.value.generation == db.generation + 1)
  {
  }

  // ---------------------------------------------------------------- a rebase starts anew

  // A publication rebases exactly when what is published was fingerprinted otherwise. It then ends
  // every lease, and every reader of another epoch has to bootstrap.
  lemma {:induction false} RebaseStartsAnew(w: World, p: Name, newEpoch: Epoch)
    requires Reachable(w) && p in w.publishers && w.publishers[p].Built? && w.publishers[p].plan.Write?
    requires CommitRefresh(w.db, w.publishers[p].plan, newEpoch).Ok?
    ensures var after := Committed(w, p, newEpoch).db;
      var rebases := w.db.generation > 0 && w.db.schema != CATALOG_FINGERPRINT_SCHEMA_VERSION;
      && (w.publishers[p].plan.rebase <==> rebases)
      && after.journal.epoch == (if rebases then newEpoch else w.db.journal.epoch)
      && (rebases ==>
            && after.journal.head == after.journal.floor == 0
            && (forall t :: !LiveIn(after, t))
            && (forall epoch: Epoch, cursor: nat, limit :: epoch != newEpoch ==>
                  ReadChangePage(after.journal, epoch, cursor, limit) == BootstrapRequired))
  {
    hide ReadChangePage, ViewOf, SnapshotRows;
    ReachableFollowsBase(w);
    var b := w.publishers[p];
    var after := Committed(w, p, newEpoch).db;
    assert b.plan.base == BaseOf(w.db);
    PlanRebases(b.plan.base, b.prior, b.s, b.plan);
    AppendedRows(w.db.journal, b.plan.events);
    if b.plan.rebase {
      forall epoch: Epoch, cursor: nat, limit | epoch != newEpoch
        ensures ReadChangePage(after.journal, epoch, cursor, limit) == BootstrapRequired
      {
        ReadChangePageMeaning(after.journal, epoch, cursor, limit);
      }
    }
  }

  lemma PlanRebases(base: Base, prior: View, s: Snapshot, plan: Plan)
    requires PlanRefresh(base, prior, s) == Ok(plan) && plan.Write?
    ensures plan.rebase <==> base.generation > 0 && base.schema != CATALOG_FINGERPRINT_SCHEMA_VERSION
  {
    hide DiffEvents, SnapshotRows;
  }

  // ---------------------------------------------------------------- a bootstrap ends

  function Pages(c: Name, limits: seq<int>): seq<Step> {
    seq(|limits|, i requires 0 <= i < |limits| => Page(c, limits[i], true))
  }

  // A client on the pages of a live lease of its own.
  ghost predicate Leased(w: World, c: Name) {
    c in w.clients && w.clients[c].Paging? && LiveIn(w.db, w.clients[c].token)
    && w.db.sessions[w.clients[c].token].principal == w.clients[c].principal
  }

  // One page takes it closer to the end, with the lease still live, or to the end.
  lemma {:induction false} PageStep(w: World, c: Name, limit: int)
    requires Inv(w) && Leased(w, c)
    ensures w.clients[c].pinned in w.published
    ensures var before := w.clients[c];
      var v := Next(w, Page(c, limit, true));
      var rows := w.published[before.pinned];
      && Inv(v) && v.published == w.published && c in v.clients
      && (v.clients[c] == Following(before.epoch, before.head, ViewOf(rows))
          || (Leased(v, c) && v.clients[c] == before.(at := v.clients[c].at, got := v.clients[c].got)
              && Effort(rows, Some(v.clients[c].at)) < Effort(rows, Some(before.at))))
  {
    hide ReadPage, Gather, Effort, ViewOf;
    NextKeeps(w, Page(c, limit, true));
    var before := w.clients[c];
    LiveSessionRows(w, before.token);
    assert ClientOk(before, w.history, w.published, w.tokens, w.db.sessions);
    var rows := w.published[before.pinned];
    assert w.db.generations[before.pinned] == rows && NoEmptyId(rows);
    GatherPage(rows, before.at, limit);
    PageCostsEffort(rows, before.at, limit);
  }

  lemma {:induction false} PagesEnd(w: World, c: Name, limits: seq<int>)
    requires Inv(w) && Leased(w, c)
    requires w.clients[c].pinned in w.published
    requires |limits| >= Effort(w.published[w.clients[c].pinned], Some(w.clients[c].at))
    ensures var before := w.clients[c];
      var after := Exec(w, Pages(c, limits));
      c in after.clients
      && after.clients[c] == Following(before.epoch, before.head, ViewOf(w.published[before.pinned]))
    decreases |limits|
  {
    hide Inv, Next, Exec, Effort, ViewOf;
    var before := w.clients[c];
    var rows := w.published[before.pinned];
    assert Effort(rows, Some(before.at)) > 0 by { EffortIsPositive(rows, before.at); }
    var v := Next(w, Page(c, limits[0], true));
    PageStep(w, c, limits[0]);
    assert Pages(c, limits) == [Page(c, limits[0], true)] + Pages(c, limits[1..]);
    ExecConcat(w, [Page(c, limits[0], true)], Pages(c, limits[1..]));
    ExecOne(w, Page(c, limits[0], true));
    if v.clients[c].Following? {
      FollowingStays(v, c, limits[1..]);
    } else {
      PagesEnd(v, c, limits[1..]);
    }
  }

  lemma EffortIsPositive(rows: Rows, at: Position)
    ensures Effort(rows, Some(at)) > 0
  {
  }

  // Pages mean nothing to a client that follows already.
  lemma {:induction false} FollowingStays(w: World, c: Name, limits: seq<int>)
    requires c in w.clients && w.clients[c].Following?
    ensures Exec(w, Pages(c, limits)) == w
    decreases |limits|
  {
    if limits != [] {
      var n := |limits| - 1;
      assert Pages(c, limits)[..n] == Pages(c, limits[..n]);
      FollowingStays(w, c, limits[..n]);
    }
  }

  // A client that opens a session and asks for as many pages as there are rows and entities, with
  // any limits, follows with the published catalogue at the journal's head.
  lemma {:induction false} BootstrapArrives(w: World, c: Name, token: Token, principal: Principal, minutes: int, limits: seq<int>)
    requires Reachable(w) && w.db.generation > 0 && token !in w.tokens
    requires |ActiveOf(w.db, principal)| < MAX_ACTIVE_SESSIONS
    requires |limits| >= |Published(w.db)| + |ENTITY_ORDER|
    ensures var after := Exec(w, [Open(c, token, principal, minutes)] + Pages(c, limits));
      && c in after.clients
      && after.clients[c] == Following(w.db.journal.epoch, w.db.journal.head, ViewOf(Published(w.db)))
      && Shows(after.clients[c].mirror, Published(w.db))
  {
    hide Exec, Next, Inv, ViewOf, Effort;
    var open := Open(c, token, principal, minutes);
    ReachableKeeps(w);
    OpensLease(w, c, token, principal, minutes);
    var v := Next(w, open);
    NextKeeps(w, open);
    ExecConcat(w, [open], Pages(c, limits));
    ExecOne(w, open);
    var rows := Published(w.db);
    assert Effort(rows, Some(START)) <= |rows| + |ENTITY_ORDER| by { EffortAtStart(rows); }
    PagesEnd(v, c, limits);
    ViewShows(ViewOf(rows), rows);
  }

  lemma EffortAtStart(rows: Rows)
    ensures Effort(rows, Some(START)) <= |rows| + |ENTITY_ORDER|
  {
    SubsetSizeOfKeys(Ahead(rows, START), rows.Keys);
    assert |rows.Keys| == |rows|;
  }

  lemma {:induction false} SubsetSizeOfKeys(a: set<Key>, b: set<Key>)
    requires a <= b
    ensures |a| <= |b|
  {
    assert b == a + (b - a);
  }

  lemma {:induction false} OpensLease(w: World, c: Name, token: Token, principal: Principal, minutes: int)
    requires Inv(w) && w.db.generation > 0 && token !in w.tokens && |ActiveOf(w.db, principal)| < MAX_ACTIVE_SESSIONS
    ensures var v := Next(w, Open(c, token, principal, minutes));
      && Leased(v, c) && v.published == w.published
      && v.clients[c] == Paging(token, principal, w.db.generation, w.db.journal.epoch, w.db.journal.head, START, map[])
      && w.db.generation in w.published && w.published[w.db.generation] == Published(w.db)
  {
    assert token !in OpenSessions(w.db);
  }

  // ---------------------------------------------------------------- followers arrive

  function Follows(c: Name, limits: seq<int>): seq<Step> {
    seq(|limits|, i requires 0 <= i < |limits| => Follow(c, limits[i]))
  }

  // In a dense journal a follower at or after the floor arrives at the published catalogue, one
  // event a page at worst.
  lemma {:induction false} FollowersArrive(w: World, c: Name, limits: seq<int>)
    requires Inv(w) && Dense(w.db.journal) && c in w.clients && w.clients[c].Following?
    requires w.clients[c].epoch == w.db.journal.epoch
    requires w.db.journal.floor <= w.clients[c].cursor <= w.db.journal.head
    requires |limits| >= w.db.journal.head - w.clients[c].cursor
    ensures var after := Exec(w, Follows(c, limits));
      && after == w.(clients := after.clients) && c in after.clients
      && after.clients[c] == Following(w.db.journal.epoch, w.db.journal.head, ViewOf(Published(w.db)))
      && Shows(after.clients[c].mirror, Published(w.db))
    decreases |limits|
  {
    hide Inv, Dense, Next, Exec, ViewOf, Shows, ReadChangePage;
    if limits == [] {
      assert Exec(w, Follows(c, limits)) == w by { NoStep(w, Follows(c, limits)); }
      HeadIsPublished(w, c);
    } else {
      var v := Next(w, Follow(c, limits[0]));
      FollowStep(w, c, limits[0]);
      NextKeeps(w, Follow(c, limits[0]));
      assert Follows(c, limits) == [Follow(c, limits[0])] + Follows(c, limits[1..]);
      ExecConcat(w, [Follow(c, limits[0])], Follows(c, limits[1..]));
      ExecOne(w, Follow(c, limits[0]));
      FollowersArrive(v, c, limits[1..]);
    }
  }

  lemma NoStep(w: World, steps: seq<Step>)
    requires steps == []
    ensures Exec(w, steps) == w
  {
  }

  lemma {:induction false} HeadIsPublished(w: World, c: Name)
    requires Inv(w) && c in w.clients && w.clients[c].Following?
    requires w.clients[c].epoch == w.db.journal.epoch && w.clients[c].cursor == w.db.journal.head
    ensures w.clients[c].mirror == ViewOf(Published(w.db)) && Shows(w.clients[c].mirror, Published(w.db))
  {
    PublishedRows(w.db, w.published);
    assert ClientOk(w.clients[c], w.history, w.published, w.tokens, w.db.sessions);
    ViewShows(ViewOf(Published(w.db)), Published(w.db));
  }

  lemma {:induction false} FollowStep(w: World, c: Name, limit: int)
    requires Dense(w.db.journal) && c in w.clients && w.clients[c].Following?
    requires w.clients[c].epoch == w.db.journal.epoch
    requires w.db.journal.floor <= w.clients[c].cursor <= w.db.journal.head
    ensures var v := Next(w, Follow(c, limit));
      && v == w.(clients := v.clients) && c in v.clients && v.clients[c].Following?
      && v.clients[c].epoch == w.db.journal.epoch
      && w.clients[c].cursor <= v.clients[c].cursor <= w.db.journal.head
      && (w.clients[c].cursor < w.db.journal.head ==> w.clients[c].cursor < v.clients[c].cursor)
  {
    hide ReadChangePage, Replay, Dense;
    DenseJournalServes(w.db.journal, w.clients[c].cursor, limit);
  }

  // A publication leaves every reader served that was at most a thousand events, or twice the
  // published entities, behind the new head.
  lemma {:induction false} RecentReadersSurvive(w: World, p: Name, newEpoch: Epoch, cursor: nat, limit: int)
    requires OrderlyReachable(w) && p in w.publishers && w.publishers[p].Built? && newEpoch !in w.history
    requires var plan := w.publishers[p].plan; plan.Write? && !plan.rebase && CommitRefresh(w.db, plan, newEpoch).Ok?
    requires w.db.journal.floor <= cursor <= w.db.journal.head
    requires w.db.journal.head + |w.publishers[p].plan.events| - cursor <= Max(1000, 2 * w.publishers[p].plan.size)
    ensures var j := Committed(w, p, newEpoch).db.journal;
      && j.epoch == w.db.journal.epoch && j.head == w.db.journal.head + |w.publishers[p].plan.events|
      && j.floor <= cursor && ServesNext(j, cursor, limit)
  {
    hide OrderlyRun, Exec, Dense, ServesNext, Compacted, Appended;
    var epoch, steps :| OrderlyRun(epoch, steps) && w == Exec(Init(epoch), steps);
    OrderlyRunIsDense(epoch, steps);
    var plan := w.publishers[p].plan;
    var grown := Appended(w.db.journal, plan.events);
    AppendKeepsDensity(w.db.journal, plan.events);
    AppendedRows(w.db.journal, plan.events);
    RecentReadersAreServed(grown, PublicationCompaction(grown, plan.size, false), cursor, limit);
    CompactedFixes(grown, PublicationCompaction(grown, plan.size, false));
  }

  // So does maintenance that read the current epoch: what it counts is the published catalogue it saw.
  lemma {:induction false} MaintenanceKeepsReaders(w: World, p: Name, cursor: nat, limit: int)
    requires DenseInv(w) && p in w.notes && w.notes[p].epoch == w.db.journal.epoch
    requires w.db.journal.floor <= cursor <= w.db.journal.head
    requires w.notes[p].head - cursor <= Max(1000, 2 * w.notes[p].entities)
    ensures var j := RunMaintenance(w.db, w.notes[p]).journal;
      && j.epoch == w.db.journal.epoch && j.head == w.db.journal.head
      && j.floor <= cursor && ServesNext(j, cursor, limit)
    ensures var v := Next(w, ReadMaintenance(p));
      v.notes[p] == Maintenance(w.db.generation, w.db.journal.epoch, w.db.journal.head, |Published(w.db)|)
  {
    hide Dense, ServesNext, Compacted, Exec;
    RecentReadersAreServed(w.db.journal, MaintenanceCompaction(w.notes[p]), cursor, limit);
    CompactedFixes(w.db.journal, MaintenanceCompaction(w.notes[p]));
  }

  lemma CompactedFixes(j: Journal<Event>, c: Compaction)
    ensures Compacted(j, c).epoch == j.epoch && Compacted(j, c).head == j.head
  {
  }

  // ---------------------------------------------------------------- what storage gives up

  // After a prune exactly the published generation and those that live leases pin are stored, as
  // they were published, and exactly the live leases are.
  lemma {:induction false} PruneLeaves(w: World)
    requires Reachable(w) && w.db.generation > 0
    ensures var db := Next(w, Prune(w.db.generation)).db;
      && (forall g :: g in db.generations <==>
            g == w.db.generation || exists t :: LiveIn(w.db, t) && w.db.sessions[t].pinned == g)
      && (forall g :: g in db.generations ==> g in w.published && db.generations[g] == w.published[g])
      && (forall t :: t in db.sessions <==> LiveIn(w.db, t))
      && (forall t :: t in db.sessions ==> db.sessions[t] == w.db.sessions[t])
  {
    hide Inv, Pinned;
    ReachableKeeps(w);
    StoredAsPublished(w);
    var db := Next(w, Prune(w.db.generation)).db;
    forall g ensures g in db.generations <==>
      g == w.db.generation || exists t :: LiveIn(w.db, t) && w.db.sessions[t].pinned == g
    {
      PrunedGeneration(w.db, g);
      if t :| LiveIn(w.db, t) && w.db.sessions[t].pinned == g { LiveSessionRows(w, t); }
    }
  }

  lemma PrunedGeneration(db: Db, g: nat)
    requires db.generation > 0 && forall h :: h in db.generations ==> h <= db.generation
    ensures g in PruneGenerations(db, db.generation).generations <==>
      g in db.generations && (g == db.generation || exists t :: LiveIn(db, t) && db.sessions[t].pinned == g)
  {
    if t :| LiveIn(db, t) && db.sessions[t].pinned == g { assert Pinned(db, g); }
    if t :| t in db.sessions && db.sessions[t].pinned == g && Live(db.sessions[t], db.now) { assert LiveIn(db, t); }
  }

  lemma StoredAsPublished(w: World)
    requires Inv(w)
    ensures forall g :: g in w.db.generations ==>
      g <= w.db.generation && g in w.published && w.db.generations[g] == w.published[g]
    ensures w.db.generation > 0 ==> w.db.generation in w.db.generations
  {
  }

  // ---------------------------------------------------------------- leases

  // A session opens exactly when something is published and its principal has fewer than four live
  // ones. It pins the published generation at the journal's head, for 5 to 60 minutes.
  lemma {:induction false} OpensExactlyWhen(w: World, c: Name, token: Token, principal: Principal, minutes: int)
    requires Reachable(w) && token !in w.tokens
    ensures var v := Next(w, Open(c, token, principal, minutes));
      var seconds := 60 * (if minutes < 5 then 5 else if minutes > 60 then 60 else minutes);
      && (LiveIn(v.db, token) <==> w.db.generation > 0 && |ActiveOf(w.db, principal)| < 4)
      && (LiveIn(v.db, token) ==>
            v.db.sessions[token] == Session(principal, w.db.generation, w.db.journal.epoch, w.db.journal.head,
                                            w.db.now + seconds, false))
      && (!LiveIn(v.db, token) ==> v == w)
  {
    hide Inv, ActiveOf, Exec;
    ReachableKeeps(w);
    LeaseFacts(w);
    assert token !in OpenSessions(w.db) && !LiveIn(w.db, token);
    hide Reachable, GenerationInv;
  }

  // A page is served exactly to the principal of a live session, from the generation it pins, as
  // that was published.
  lemma {:induction false} PagesServedExactlyWhen(w: World, token: Token, principal: Principal, at: Position, limit: int)
    requires Reachable(w)
    ensures var r := BootstrapPage(w.db, token, principal, at, limit);
      && (r.Ok? <==> LiveIn(w.db, token) && w.db.sessions[token].principal == principal)
      && (r.Ok? ==> w.db.sessions[token].pinned in w.published
                    && r.value.0 == ReadPage(w.published[w.db.sessions[token].pinned], at, limit))
  {
    hide ReadPage;
    ReachableKeeps(w);
    if LiveIn(w.db, token) { LiveSessionRows(w, token); }
  }

  ghost predicate LeaseLimits(w: World) {
    && (forall principal :: |ActiveOf(w.db, principal)| <= 4)
    && (forall t :: LiveIn(w.db, t) ==> w.db.sessions[t].expires <= w.db.now + 3600)
  }

  predicate StaysLeased(before: Db, after: Db, t: Token) {
    t in before.sessions && t in after.sessions && after.sessions[t] == before.sessions[t] && before.now <= after.now
  }

  // No principal ever has more than four live sessions, and none lives longer than an hour.
  lemma {:induction false} LeasesAreLimited(epoch: Epoch, steps: seq<Step>)
    ensures LeaseLimits(Exec(Init(epoch), steps))
    decreases |steps|
  {
    hide Next, LeaseLimits;
    if steps == [] {
      assert LeaseLimits(Init(epoch)) by { NoLeases(epoch); }
    } else {
      var init := steps[..|steps| - 1];
      LeasesAreLimited(epoch, init);
      EveryRunKeeps(epoch, init);
      NextKeepsLimits(Exec(Init(epoch), init), steps[|steps| - 1]);
    }
  }

  lemma NoLeases(epoch: Epoch)
    ensures LeaseLimits(Init(epoch))
  {
    assert forall principal :: ActiveOf(Init(epoch).db, principal) == {};
  }

  lemma {:induction false} NextKeepsLimits(w: World, step: Step)
    requires Inv(w) && LeaseLimits(w)
    ensures LeaseLimits(Next(w, step))
  {
    hide Inv, Next, LiveIn;
    if step.Open? {
      OpenKeepsLimits(w, step.c, step.token, step.principal, step.minutes);
    } else {
      var v := Next(w, step);
      forall t | LiveIn(v.db, t) ensures LiveIn(w.db, t) && StaysLeased(w.db, v.db, t) {
        NextKeeps(w, step);
        KnownTokens(w, step, t);
        if !LiveIn(w.db, t) { DeadStaysDead(w, step, t); }
        LiveExactlyUntil(w, step, t);
        LiveFacts(w.db, t);
        LiveFacts(v.db, t);
      }
      FewerKeepLimits(w, v);
    }
  }

  lemma {:induction false} KnownTokens(w: World, step: Step, t: Token)
    requires Inv(w) && Inv(Next(w, step)) && !step.Open? && LiveIn(Next(w, step).db, t)
    ensures t in w.tokens
  {
    LeaseFacts(Next(w, step));
    OnlyOpenNames(w, step);
  }

  lemma OnlyOpenNames(w: World, step: Step)
    ensures !step.Open? ==> Next(w, step).tokens == w.tokens
  {
    hide PlanRefresh, CommitRefresh, Recorded, BootstrapPage, Gather, Followed, RunMaintenance, PruneGenerations;
  }

  lemma {:induction false} FewerKeepLimits(w: World, v: World)
    requires LeaseLimits(w)
    requires forall t :: LiveIn(v.db, t) ==> LiveIn(w.db, t) && StaysLeased(w.db, v.db, t)
    ensures LeaseLimits(v)
  {
    forall principal ensures |ActiveOf(v.db, principal)| <= 4 {
      forall t | t in ActiveOf(v.db, principal) ensures t in ActiveOf(w.db, principal) {
        assert LiveIn(v.db, t);
      }
      SubsetSize(ActiveOf(v.db, principal), ActiveOf(w.db, principal));
    }
  }

  lemma {:induction false} OpenKeepsLimits(w: World, c: Name, token: Token, principal: Principal, minutes: int)
    requires LeaseLimits(w)
    ensures LeaseLimits(Next(w, Open(c, token, principal, minutes)))
  {
    hide Next, Live, LeaseLimits;
    var v := Next(w, Open(c, token, principal, minutes));
    if v.db != w.db {
      OpenEffect(w, c, token, principal, minutes);
      OpenedLimits(w, v, token, principal);
    } else {
      SameLimits(w, v);
    }
  }

  lemma SameLimits(w: World, v: World)
    requires LeaseLimits(w) && v.db == w.db
    ensures LeaseLimits(v)
  {
  }

  lemma {:induction false} OpenEffect(w: World, c: Name, token: Token, principal: Principal, minutes: int)
    ensures var v := Next(w, Open(c, token, principal, minutes));
      v.db != w.db ==>
        && |ActiveOf(w.db, principal)| < 4 && token in v.db.sessions
        && v.db.now == w.db.now && v.db.sessions == OpenSessions(w.db)[token := v.db.sessions[token]]
        && v.db.sessions[token].principal == principal && v.db.sessions[token].expires <= w.db.now + 3600
  {
    hide ActiveOf;
  }

  lemma {:induction false} OpenedLimits(w: World, v: World, token: Token, principal: Principal)
    requires LeaseLimits(w) && |ActiveOf(w.db, principal)| < 4
    requires token in v.db.sessions && v.db.now == w.db.now
    requires v.db.sessions == OpenSessions(w.db)[token := v.db.sessions[token]]
    requires v.db.sessions[token].principal == principal && v.db.sessions[token].expires <= w.db.now + 3600
    ensures LeaseLimits(v)
  {
    forall other ensures |ActiveOf(v.db, other)| <= 4 {
      var before, after := ActiveOf(w.db, other), ActiveOf(v.db, other);
      if other == principal {
        SubsetSize(after, before + {token});
      } else {
        SubsetSize(after, before);
      }
    }
    forall t | LiveIn(v.db, t) ensures v.db.sessions[t].expires <= v.db.now + 3600 {
      if t != token { assert LiveIn(w.db, t); }
    }
  }
}
