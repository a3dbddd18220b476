// What every run of the catalogue protocol guarantees.

module CatalogTheorems {
  import opened Prelude
  import opened ChangeJournal
  import opened CatalogTypes
  import opened CatalogDiff
  import opened CatalogBootstrap
  import opened CatalogStore
  import opened CatalogProtocol

  ghost predicate Reachable(w: World) {
    exists epoch, steps :: w == Exec(Init(epoch), steps)
  }

  lemma {:induction false} ReachableKeeps(w: World)
    requires Reachable(w)
    ensures Inv(w)
  {
    var epoch, steps :| w == Exec(Init(epoch), steps);
    EveryRunKeeps(epoch, steps);
  }

  lemma {:induction false} ExecConcat(w: World, a: seq<Step>, b: seq<Step>)
    ensures Exec(w, a + b) == Exec(Exec(w, a), b)
    decreases |b|
  {
    if b == [] {
      assert a + b == a;
    } else {
      assert (a + b)[..|a + b| - 1] == a + b[..|b| - 1];
      ExecConcat(w, a, b[..|b| - 1]);
    }
  }

  lemma {:induction false} ExecOne(w: World, step: Step)
    ensures Exec(w, [step]) == Next(w, step)
  {
    assert [step][..0] == [];
  }

  // ---------------------------------------------------------------- the mirror

  // A client that has caught up with the head of the current epoch mirrors the published generation.
  lemma {:induction false} CaughtUpMirrorIsPublished(w: World, c: Name)
    requires Reachable(w) && c in w.clients && w.clients[c].Following?
    requires w.clients[c].epoch == w.db.journal.epoch && w.clients[c].cursor == w.db.journal.head
    ensures w.clients[c].mirror == ViewOf(Published(w.db)) && Shows(w.clients[c].mirror, Published(w.db))
  {
    ReachableKeeps(w);
    ViewShows(ViewOf(Published(w.db)), Published(w.db));
    PublishedRows(w.db, w.published);
    assert ClientOk(w.clients[c], w.history, w.published, w.tokens, w.db.sessions);
  }

  lemma {:induction false} LastPageReachesPublished(w: World, client: Client, limit: int)
    requires DbInv(w.db, w.history, w.published, w.tokens) && client.Following?
    requires At(w.history, client.epoch, client.cursor, client.mirror)
    ensures match ReadChangePage(w.db.journal, client.epoch, client.cursor, limit)
      case Served(events) =>
        client.cursor + |events| >= w.db.journal.head ==> Replay(client.mirror, events) == ViewOf(Published(w.db))
      case BootstrapRequired => true
      case CursorAhead => false
  {
    PublishedRows(w.db, w.published);
    ServedEvents(w.db.journal, w.history, client.epoch, client.cursor, client.mirror, limit);
  }

  // In every state of every run a following client holds the published generation as soon as
  // has_more is false, each row with the metadata, artwork and media that are stored, or is told to
  // bootstrap again; its cursor is never ahead of the head.
  lemma {:induction false} EndToEndMirror(w: World, c: Name, limit: int)
    requires Reachable(w) && c in w.clients && w.clients[c].Following?
    ensures match ReadChangePage(w.db.journal, w.clients[c].epoch, w.clients[c].cursor, limit)
      case Served(events) =>
        w.clients[c].cursor + |events| >= w.db.journal.head ==>
          var mirror := Replay(w.clients[c].mirror, events);
          mirror == ViewOf(Published(w.db)) && Shows(mirror, Published(w.db))
      case BootstrapRequired => true
      case CursorAhead => false
  {
    ReachableKeeps(w);
    assert ClientOk(w.clients[c], w.history, w.published, w.tokens, w.db.sessions);
    LastPageReachesPublished(w, w.clients[c], limit);
    ViewShows(ViewOf(Published(w.db)), Published(w.db));
  }

  // The page that completes a bootstrap leaves the client with exactly the pinned generation,
  // at the journal position that generation was published at.
  lemma {:induction false} BootstrapEndsAtPinnedGeneration(w: World, c: Name, limit: int)
    requires Reachable(w) && c in w.clients && w.clients[c].Paging?
    requires Paged(w, c, limit, true).clients[c].Following?
    ensures var before, after := w.clients[c], Paged(w, c, limit, true).clients[c];
            && after.epoch == before.epoch && after.cursor == before.head
            && before.pinned in w.published && after.mirror == ViewOf(w.published[before.pinned])
            && Shows(after.mirror, w.published[before.pinned])
  {
    ReachableKeeps(w);
    PagingEnds(w, c, limit);
    var pinned := w.clients[c].pinned;
    ViewShows(ViewOf(w.published[pinned]), w.published[pinned]);
  }

  lemma {:induction false} PagingEnds(w: World, c: Name, limit: int)
    requires DbInv(w.db, w.history, w.published, w.tokens)
    requires c in w.clients && w.clients[c].Paging?
    requires ClientOk(w.clients[c], w.history, w.published, w.tokens, w.db.sessions)
    requires Paged(w, c, limit, true).clients[c].Following?
    ensures var before, after := w.clients[c], Paged(w, c, limit, true).clients[c];
            && after.epoch == before.epoch && after.cursor == before.head
            && before.pinned in w.published && after.mirror == ViewOf(w.published[before.pinned])
  {
    PagedClient(w.db, w.history, w.published, w.tokens, w.clients[c], limit);
  }

  // ---------------------------------------------------------------- leases

  // What a run only ever adds to.
  ghost predicate Later(a: World, b: World) {
    && Contains(a.published, b.published)
    && a.tokens <= b.tokens
    && a.db.now <= b.db.now
    && (forall t :: t in b.db.sessions && t in a.tokens ==>
          t in a.db.sessions && b.db.sessions[t].pinned == a.db.sessions[t].pinned)
  }

  lemma {:induction false} CommitIsLater(w: World, p: Name, newEpoch: Epoch)
    requires GenerationInv(w.db.generation, w.db.generations, w.published)
    requires p in w.publishers && w.publishers[p].Built?
    ensures Later(w, Committed(w, p, newEpoch))
  {
    var plan := w.publishers[p].plan;
    if BaseOf(w.db) == plan.base && plan.Write? && plan.base.generation + 1 !in w.db.generations {
      assert w.db.generation + 1 !in w.published;
    }
  }

  lemma {:induction false} PagedIsLater(w: World, c: Name, limit: int, delivered: bool)
    requires c in w.clients && w.clients[c].Paging?
    ensures Later(w, Paged(w, c, limit, delivered))
  {
  }

  // A step that only drops or completes sessions.
  lemma {:induction false} DbStepIsLater(w: World, db: Db)
    requires db.now == w.db.now
    requires forall t :: t in db.sessions ==> t in w.db.sessions && db.sessions[t].pinned == w.db.sessions[t].pinned
    ensures Later(w, w.(db := db))
  {
  }

  lemma {:induction false} OpenIsLater(w: World, c: Name, token: Token, principal: Principal, minutes: int)
    requires token !in w.tokens
    ensures Later(w, Opened(w, c, token, principal, minutes))
  {
  }

  lemma {:induction false} PublisherStepIsLater(w: World, step: Step)
    requires GenerationInv(w.db.generation, w.db.generations, w.published)
    requires step.Fetch? || step.TakeLock? || step.Build? || step.BuildUnlocked? || step.Commit? || step.Abandon?
    ensures Later(w, Next(w, step))
  {
    hide PlanRefresh, CommitRefresh, ViewOf, Published, GenerationInv;
    match step
    case Commit(p, newEpoch) =>
      if p in w.publishers && w.publishers[p].Built? && newEpoch !in w.history { CommitIsLater(w, p, newEpoch); }
    case _ =>
  }

  lemma {:induction false} StorageStepIsLater(w: World, step: Step)
    requires step.Prune? || step.ReadMaintenance? || step.Maintain? || step.LoseJournalRows? || step.Tick?
    ensures Later(w, Next(w, step))
  {
    match step
    case Prune(active) => DbStepIsLater(w, PruneGenerations(w.db, active));
    case Maintain(p) => if p in w.notes { DbStepIsLater(w, RunMaintenance(w.db, w.notes[p])); }
    case _ =>
  }

  lemma {:induction false} NextIsLater(w: World, step: Step)
    requires GenerationInv(w.db.generation, w.db.generations, w.published)
    ensures Later(w, Next(w, step))
  {
    match step
    case Page(c, limit, delivered) => if c in w.clients && w.clients[c].Paging? { PagedIsLater(w, c, limit, delivered); }
    case PageAgain(token, principal, at, limit) =>
      if BootstrapPage(w.db, token, principal, at, limit).Ok? {
        DbStepIsLater(w, BootstrapPage(w.db, token, principal, at, limit).value.1);
      }
    case Open(c, token, principal, minutes) => if token !in w.tokens { OpenIsLater(w, c, token, principal, minutes); }
    case Release(token, principal) => DbStepIsLater(w, ReleaseSession(w.db, token, principal));
    case Follow(_, _) =>
    case Prune(_) => StorageStepIsLater(w, step);
    case ReadMaintenance(_) => StorageStepIsLater(w, step);
    case Maintain(_) => StorageStepIsLater(w, step);
    case LoseJournalRows(_) => StorageStepIsLater(w, step);
    case Tick(_) => StorageStepIsLater(w, step);
    case Deploy(_) =>
    case _ => PublisherStepIsLater(w, step);
  }

  lemma {:induction false} ExecIsLater(w: World, steps: seq<Step>)
    requires Inv(w)
    ensures Inv(Exec(w, steps)) && Later(w, Exec(w, steps))
    decreases |steps|
  {
    if steps != [] {
      var before := Exec(w, steps[..|steps| - 1]);
      ExecIsLater(w, steps[..|steps| - 1]);
      NextKeeps(before, steps[|steps| - 1]);
      NextIsLater(before, steps[|steps| - 1]);
    }
  }

  lemma {:induction false} LiveSessionRows(w: World, t: Token)
    requires Inv(w) && t in w.db.sessions && Live(w.db.sessions[t], w.db.now)
    ensures w.db.sessions[t].pinned in w.db.generations && w.db.sessions[t].pinned in w.published
    ensures w.db.generations[w.db.sessions[t].pinned] == w.published[w.db.sessions[t].pinned]
  {
    assert SessionOk(w.history, w.published, w.db.generations, w.db.now, w.db.sessions[t]);
  }

  predicate LiveIn(db: Db, t: Token) {
    t in db.sessions && Live(db.sessions[t], db.now)
  }

  predicate LastPage(db: Db, token: Token, principal: Principal, at: Position, limit: int) {
    var r := BootstrapPage(db, token, principal, at, limit);
    r.Ok? && r.value.0.next.None?
  }

  // The steps that complete a session: its own principal releases it, its last page is served,
  // or a rebase is published.
  predicate Completes(w: World, step: Step, t: Token) {
    match step
    case Release(token, principal) => token == t && t in w.db.sessions && w.db.sessions[t].principal == principal
    case Page(c, limit, _) =>
      c in w.clients && w.clients[c].Paging? && w.clients[c].token == t
      && LastPage(w.db, t, w.clients[c].principal, w.clients[c].at, limit)
    case PageAgain(token, principal, at, limit) => token == t && LastPage(w.db, t, principal, at, limit)
    case Commit(p, newEpoch) =>
      p in w.publishers && w.publishers[p].Built? && newEpoch !in w.history
      && w.publishers[p].plan.Write? && w.publishers[p].plan.rebase
      && CommitRefresh(w.db, w.publishers[p].plan, newEpoch).Ok?
    case _ => false
  }

  // What a step leaves of a live session.
  ghost predicate Ends(w: World, db: Db, completes: bool, t: Token)
    requires t in w.db.sessions
  {
    && db.now >= w.db.now
    && (LiveIn(db, t) <==> !completes && db.now < w.db.sessions[t].expires)
    && (LiveIn(db, t) ==> db.sessions[t] == w.db.sessions[t])
  }

  lemma CommitEnds(w: World, p: Name, newEpoch: Epoch, t: Token)
    requires LiveIn(w.db, t) && p in w.publishers && w.publishers[p].Built? && newEpoch !in w.history
    ensures Ends(w, Committed(w, p, newEpoch).db, Completes(w, Commit(p, newEpoch), t), t)
  {
    hide JournalAfter, Recorded;
  }

  lemma PageEnds(w: World, token: Token, principal: Principal, at: Position, limit: int, t: Token)
    requires LiveIn(w.db, t)
    ensures match BootstrapPage(w.db, token, principal, at, limit)
      case Ok((_, db)) => Ends(w, db, token == t && LastPage(w.db, t, principal, at, limit), t)
      case Err(_) => !LastPage(w.db, token, principal, at, limit)
  {
    hide ReadPage;
  }

  lemma {:induction false} ReaderStepEnds(w: World, step: Step, t: Token)
    requires LiveIn(w.db, t) && t in w.tokens
    requires step.Open? || step.Page? || step.PageAgain? || step.Release? || step.Follow?
    ensures Ends(w, Next(w, step).db, Completes(w, step, t), t)
  {
    hide BootstrapPage, Followed, LastPage;
    match step
    case Page(c, limit, _) =>
      if c in w.clients && w.clients[c].Paging? {
        PageEnds(w, w.clients[c].token, w.clients[c].principal, w.clients[c].at, limit, t);
      }
    case PageAgain(token, principal, at, limit) => PageEnds(w, token, principal, at, limit, t);
    case _ =>
  }

  lemma {:induction false} StorageStepEnds(w: World, step: Step, t: Token)
    requires LiveIn(w.db, t)
    requires step.Prune? || step.ReadMaintenance? || step.Maintain? || step.LoseJournalRows? || step.Tick? || step.Deploy?
    ensures Ends(w, Next(w, step).db, false, t)
  {
    hide Compacted;
  }

  // A live session stays in the table as it is until it expires or one of those steps completes it.
  lemma {:induction false} LiveExactlyUntil(w: World, step: Step, t: Token)
    requires LiveIn(w.db, t) && t in w.tokens
    ensures Ends(w, Next(w, step).db, Completes(w, step, t), t)
  {
    hide Ends;
    if step.Open? || step.Page? || step.PageAgain? || step.Release? || step.Follow? {
      ReaderStepEnds(w, step, t);
    } else if step.Prune? || step.ReadMaintenance? || step.Maintain? || step.LoseJournalRows? || step.Tick? || step.Deploy? {
      StorageStepEnds(w, step, t);
    } else if step.Commit? {
      CommitStepEnds(w, step.p, step.newEpoch, t);
    } else {
      assert Ends(w, Next(w, step).db, Completes(w, step, t), t) by { BuildStepEnds(w, step, t); }
    }
  }

  lemma {:induction false} CommitStepEnds(w: World, p: Name, newEpoch: Epoch, t: Token)
    requires LiveIn(w.db, t)
    ensures Ends(w, Next(w, Commit(p, newEpoch)).db, Completes(w, Commit(p, newEpoch), t), t)
  {
    hide CommitRefresh, Committed;
    if p in w.publishers && w.publishers[p].Built? && newEpoch !in w.history { CommitEnds(w, p, newEpoch, t); }
  }

  lemma {:induction false} BuildStepEnds(w: World, step: Step, t: Token)
    requires LiveIn(w.db, t) && ByPublisher(step) && !step.Commit? && !step.Deploy?
    ensures Ends(w, Next(w, step).db, Completes(w, step, t), t)
  {
    OnlyCommitsWrite(w, step);
  }

  // No step of the run completes the session.
  ghost predicate NoneCompletes(w: World, steps: seq<Step>, t: Token) {
    forall n :: 0 <= n < |steps| ==> !Completes(Exec(w, steps[..n]), steps[n], t)
  }

  lemma {:induction false} NoneCompletesNext(w: World, steps: seq<Step>, t: Token)
    requires steps != []
    ensures var init := steps[..|steps| - 1];
      NoneCompletes(w, steps, t) <==> NoneCompletes(w, init, t) && !Completes(Exec(w, init), steps[|steps| - 1], t)
  {
    hide Completes, Exec;
    var init := steps[..|steps| - 1];
    assert forall n :: 0 <= n < |init| ==> init[..n] == steps[..n] && init[n] == steps[n];
    if NoneCompletes(w, steps, t) {
      forall n | 0 <= n < |init| ensures !Completes(Exec(w, init[..n]), init[n], t) {
        assert !Completes(Exec(w, steps[..n]), steps[n], t);
      }
      assert !Completes(Exec(w, steps[..|init|]), steps[|init|], t);
    }
    if NoneCompletes(w, init, t) && !Completes(Exec(w, init), steps[|steps| - 1], t) {
      forall n | 0 <= n < |steps| ensures !Completes(Exec(w, steps[..n]), steps[n], t) {
        if n < |init| { assert !Completes(Exec(w, init[..n]), init[n], t); }
      }
    }
  }

  // A session that is no longer live, or gone, never comes back.
  lemma {:induction false} DeadStaysDead(w: World, step: Step, t: Token)
    requires t in w.tokens && !LiveIn(w.db, t)
    ensures !LiveIn(Next(w, step).db, t)
  {
    hide LiveIn;
    if step.Open? || step.Page? || step.PageAgain? || step.Release? || step.Follow? {
      DeadToReaders(w, step, t);
    } else if step.Prune? || step.ReadMaintenance? || step.Maintain? || step.LoseJournalRows? || step.Tick? || step.Deploy? {
      DeadToStorage(w, step, t);
    } else if step.Commit? {
      DeadToCommits(w, step.p, step.newEpoch, t);
    } else {
      OnlyCommitsWrite(w, step);
    }
  }

  lemma {:induction false} DeadToReaders(w: World, step: Step, t: Token)
    requires t in w.tokens && !LiveIn(w.db, t)
    requires step.Open? || step.Page? || step.PageAgain? || step.Release? || step.Follow?
    ensures !LiveIn(Next(w, step).db, t)
  {
    hide Followed, BootstrapPage;
    match step
    case Page(c, limit, delivered) =>
      if c in w.clients && w.clients[c].Paging? {
        DeadPage(w.db, w.clients[c].token, w.clients[c].principal, w.clients[c].at, limit, t);
      }
    case PageAgain(token, principal, at, limit) => DeadPage(w.db, token, principal, at, limit, t);
    case _ =>
  }

  lemma {:induction false} DeadToStorage(w: World, step: Step, t: Token)
    requires !LiveIn(w.db, t)
    requires step.Prune? || step.ReadMaintenance? || step.Maintain? || step.LoseJournalRows? || step.Tick? || step.Deploy?
    ensures !LiveIn(Next(w, step).db, t)
  {
    hide Compacted;
  }

  lemma {:induction false} DeadToCommits(w: World, p: Name, newEpoch: Epoch, t: Token)
    requires !LiveIn(w.db, t)
    ensures !LiveIn(Next(w, Commit(p, newEpoch)).db, t)
  {
    hide JournalAfter, Recorded;
  }

  lemma DeadPage(db: Db, token: Token, principal: Principal, at: Position, limit: int, t: Token)
    requires !LiveIn(db, t)
    ensures match BootstrapPage(db, token, principal, at, limit)
      case Ok((_, after)) => !LiveIn(after, t)
      case Err(_) => true
  {
    hide ReadPage;
  }

  lemma {:induction false} LeaseLasts(w: World, steps: seq<Step>, t: Token)
    requires Inv(w) && LiveIn(w.db, t) && t in w.tokens
    ensures var after := Exec(w, steps);
      && Inv(after) && t in after.tokens && after.db.now >= w.db.now
      && (LiveIn(after.db, t) <==> NoneCompletes(w, steps, t) && after.db.now < w.db.sessions[t].expires)
      && (LiveIn(after.db, t) ==> after.db.sessions[t] == w.db.sessions[t])
    decreases |steps|
  {
    hide Inv, Next, Completes, NoneCompletes, LiveIn;
    if steps == [] {
      assert NoneCompletes(w, steps, t) by { NothingCompletes(w, steps, t); }
      LiveFacts(w.db, t);
    } else {
      var init, last := steps[..|steps| - 1], steps[|steps| - 1];
      LeaseLasts(w, init, t);
      var before := Exec(w, init);
      LeaseFacts(before);
      NoneCompletesNext(w, steps, t);
      ExecIsLater(w, steps);
      if LiveIn(before.db, t) {
        LiveExactlyUntil(before, last, t);
      } else {
        DeadStaysDead(before, last, t);
        NextIsLater(before, last);
      }
    }
  }

  lemma NothingCompletes(w: World, steps: seq<Step>, t: Token)
    requires steps == []
    ensures NoneCompletes(w, steps, t)
  {
  }

  // A live lease stays live exactly until it expires or a step of the run completes it; and as long
  // as it is, no publication, prune or maintenance touches a row of its generation.
  lemma {:induction false} LeaseKeepsRows(w: World, steps: seq<Step>, t: Token)
    requires Reachable(w) && LiveIn(w.db, t)
    ensures var after := Exec(w, steps);
            var pinned := w.db.sessions[t].pinned;
            && (LiveIn(after.db, t) <==> NoneCompletes(w, steps, t) && after.db.now < w.db.sessions[t].expires)
            && (LiveIn(after.db, t) ==>
                 && after.db.sessions[t] == w.db.sessions[t]
                 && pinned in w.published
                 && pinned in after.db.generations && after.db.generations[pinned] == w.published[pinned])
  {
    hide NoneCompletes, LiveIn, Inv, Exec;
    ReachableKeeps(w);
    LiveFacts(w.db, t);
    LeaseFacts(w);
    LeaseLasts(w, steps, t);
    ExecIsLater(w, steps);
    LiveSessionRows(w, t);
    if LiveIn(Exec(w, steps).db, t) {
      LiveFacts(Exec(w, steps).db, t);
      LiveSessionRows(Exec(w, steps), t);
    }
  }

  lemma LiveFacts(db: Db, t: Token)
    requires LiveIn(db, t)
    ensures t in db.sessions && Live(db.sessions[t], db.now) && db.now < db.sessions[t].expires
  {
  }

  lemma LeaseFacts(w: World)
    requires Inv(w)
    ensures GenerationInv(w.db.generation, w.db.generations, w.published)
    ensures forall t :: t in w.db.sessions ==> t in w.tokens
  {
  }

  // ---------------------------------------------------------------- serial publication

  predicate ByPublisher(step: Step) {
    step.Fetch? || step.TakeLock? || step.Build? || step.BuildUnlocked? || step.Commit? || step.Abandon?
    || step.Deploy?
  }

  // Nobody else changes what publishers work on.
  lemma {:induction false} OthersKeepPublishers(w: World, step: Step)
    requires !ByPublisher(step)
    ensures var after := Next(w, step);
            && after.publishers == w.publishers && after.history == w.history && after.lock == w.lock
            && BaseOf(after.db) == BaseOf(w.db)
  {
    hide Followed, BaseOf, Opened, Paged, BootstrapPage, RunMaintenance, PruneGenerations, ReleaseSession;
    match step
    case Open(c, token, principal, minutes) => if token !in w.tokens { OpenedBase(w, c, token, principal, minutes); }
    case Page(c, limit, delivered) =>
      if c in w.clients && w.clients[c].Paging? { PagedBase(w, c, limit, delivered); }
    case PageAgain(token, principal, at, limit) => PageBase(w.db, token, principal, at, limit);
    case Maintain(p) => if p in w.notes { MaintenanceBase(w.db, w.notes[p]); }
    case _ => StorageBase(w.db, step);
  }

  lemma OpenedBase(w: World, c: Name, token: Token, principal: Principal, minutes: int)
    ensures var after := Opened(w, c, token, principal, minutes);
            && after.publishers == w.publishers && after.history == w.history && after.lock == w.lock
            && BaseOf(after.db) == BaseOf(w.db) && after.db.journal == w.db.journal && after.notes == w.notes
  {
  }

  lemma PagedBase(w: World, c: Name, limit: int, delivered: bool)
    requires c in w.clients && w.clients[c].Paging?
    ensures var after := Paged(w, c, limit, delivered);
            && after.publishers == w.publishers && after.history == w.history && after.lock == w.lock
            && BaseOf(after.db) == BaseOf(w.db) && after.db.journal == w.db.journal && after.notes == w.notes
  {
    hide ReadPage, Gather;
  }

  lemma PageBase(db: Db, token: Token, principal: Principal, at: Position, limit: int)
    ensures match BootstrapPage(db, token, principal, at, limit)
      case Ok((_, after)) => BaseOf(after) == BaseOf(db) && after.journal == db.journal
      case Err(_) => true
  {
    hide ReadPage;
  }

  lemma MaintenanceBase(db: Db, m: Maintenance)
    ensures BaseOf(RunMaintenance(db, m)) == BaseOf(db)
  {
    hide Trimmed, Purged;
  }

  lemma StorageBase(db: Db, step: Step)
    ensures step.Prune? ==> BaseOf(PruneGenerations(db, step.active)) == BaseOf(db)
    ensures step.Release? ==> BaseOf(ReleaseSession(db, step.token, step.principal)) == BaseOf(db)
    ensures step.Tick? ==> BaseOf(db.(now := db.now + step.seconds)) == BaseOf(db)
    ensures step.LoseJournalRows? ==> BaseOf(db.(journal := db.journal.(rows := db.journal.rows - step.lost))) == BaseOf(db)
  {
  }

  // A built plan is exactly what its base and the rows read with it call for.
  ghost predicate PlansFollowBase(w: World) {
    forall p :: p in w.publishers && w.publishers[p].Built? ==>
      PlanRefresh(w.publishers[p].plan.base, w.publishers[p].prior, w.publishers[p].s) == Ok(w.publishers[p].plan)
  }

  lemma PlanKeepsBase(base: Base, prior: View, s: Snapshot)
    ensures PlanRefresh(base, prior, s).Ok? ==> PlanRefresh(base, prior, s).value.base == base
  {
  }

  lemma {:induction false} NextFollowsBase(w: World, step: Step)
    requires PlansFollowBase(w)
    ensures PlansFollowBase(Next(w, step))
  {
    hide PlanRefresh, CommitRefresh, ViewOf, Published;
    if !ByPublisher(step) {
      OthersKeepPublishers(w, step);
    } else {
      match step
      case Build(p) => if p in w.publishers { PlanKeepsBase(BaseOf(w.db), ViewOf(Published(w.db)), w.publishers[p].s); }
      case BuildUnlocked(p) => if p in w.publishers { PlanKeepsBase(BaseOf(w.db), ViewOf(Published(w.db)), w.publishers[p].s); }
      case _ =>
    }
  }

  lemma {:induction false} ExecFollowsBase(epoch: Epoch, steps: seq<Step>)
    ensures PlansFollowBase(Exec(Init(epoch), steps))
    decreases |steps|
  {
    if steps != [] {
      ExecFollowsBase(epoch, steps[..|steps| - 1]);
      NextFollowsBase(Exec(Init(epoch), steps[..|steps| - 1]), steps[|steps| - 1]);
    }
  }

  lemma {:induction false} ReachableFollowsBase(w: World)
    requires Reachable(w)
    ensures PlansFollowBase(w)
  {
    var epoch, steps :| w == Exec(Init(epoch), steps);
    ExecFollowsBase(epoch, steps);
  }

  // What a publishing transaction does to the tables, given what its plan was made from.
  ghost predicate SerialOutcome(db: Db, plan: Plan, s: Snapshot, r: Result<Db, RefreshError>) {
    && (plan.base != BaseOf(db) ==> r == Err(PublicationMoved))
    && (r.Ok? && plan.Write? ==>
         && r.value.generation == db.generation + 1
         && r.value.generation !in db.generations
         && r.value.generations == db.generations[db.generation + 1 := SnapshotRows(s)]
         && (!plan.rebase ==> plan.events == DiffEvents(db.generation + 1, ViewOf(Published(db)), SnapshotRows(s))))
    && (r.Ok? && plan.NoChange? ==>
         && r.value == db.(schema := CATALOG_FINGERPRINT_SCHEMA_VERSION)
         && DiffEvents(db.generation + 1, ViewOf(Published(db)), SnapshotRows(s)) == [])
  }

  lemma {:induction false} CommitIsSerial(db: Db, plan: Plan, prior: View, s: Snapshot, newEpoch: Epoch)
    requires PlanRefresh(plan.base, prior, s) == Ok(plan)
    requires plan.base == BaseOf(db) ==> prior == ViewOf(Published(db))
    ensures SerialOutcome(db, plan, s, CommitRefresh(db, plan, newEpoch))
  {
    hide DiffEvents, SnapshotRows, ViewOf, JournalAfter, Insertable;
  }

  // A commit that succeeds publishes the successor of the current generation, journals the diff
  // against that very generation, and touches no other; one whose base moved changes nothing.
  lemma {:induction false} CommitsAreSerial(w: World, p: Name, newEpoch: Epoch)
    requires Reachable(w) && p in w.publishers && w.publishers[p].Built?
    ensures SerialOutcome(w.db, w.publishers[p].plan, w.publishers[p].s, CommitRefresh(w.db, w.publishers[p].plan, newEpoch))
    ensures CommitRefresh(w.db, w.publishers[p].plan, newEpoch).Err? ==> Committed(w, p, newEpoch).db == w.db
  {
    ReachableKeeps(w);
    ReachableFollowsBase(w);
    PublishedRows(w.db, w.published);
    var b := w.publishers[p];
    assert PublisherOk(b, w.db.generation, w.published);
    CommitIsSerial(w.db, b.plan, b.prior, b.s, newEpoch);
  }

  // Runs in which every publisher takes the publisher lock.
  ghost predicate AllLock(steps: seq<Step>) {
    forall i :: 0 <= i < |steps| ==> !steps[i].BuildUnlocked?
  }

  // Only the lock's holder has a plan, and its base is still the published one.
  ghost predicate LockInv(w: World) {
    forall p :: p in w.publishers && !w.publishers[p].Fetched? ==>
      w.lock == Some(p) && (w.publishers[p].Built? ==> w.publishers[p].plan.base == BaseOf(w.db))
  }

  lemma {:induction false} NextKeepsLock(w: World, step: Step)
    requires LockInv(w) && !step.BuildUnlocked?
    ensures LockInv(Next(w, step))
  {
    hide PlanRefresh, JournalAfter, ViewOf, Published;
    if !ByPublisher(step) {
      OthersKeepPublishers(w, step);
    } else {
      match step
      case Build(p) => if p in w.publishers { PlanKeepsBase(BaseOf(w.db), ViewOf(Published(w.db)), w.publishers[p].s); }
      case _ =>
    }
  }

  lemma {:induction false} ExecKeepsLock(epoch: Epoch, steps: seq<Step>)
    requires AllLock(steps)
    ensures LockInv(Exec(Init(epoch), steps))
    decreases |steps|
  {
    if steps != [] {
      ExecKeepsLock(epoch, steps[..|steps| - 1]);
      NextKeepsLock(Exec(Init(epoch), steps[..|steps| - 1]), steps[|steps| - 1]);
    }
  }

  // With the lock a publisher that waited proceeds from the newer base, and no commit is ever refused.
  lemma {:induction false} LockedPublishersNeverMove(epoch: Epoch, steps: seq<Step>, p: Name, newEpoch: Epoch)
    requires AllLock(steps)
    requires var w := Exec(Init(epoch), steps); p in w.publishers && w.publishers[p].Built?
    ensures var w := Exec(Init(epoch), steps); CommitRefresh(w.db, w.publishers[p].plan, newEpoch).Ok?
  {
    var w := Exec(Init(epoch), steps);
    EveryRunKeeps(epoch, steps);
    ExecKeepsLock(epoch, steps);
    assert w.db.generation + 1 !in w.published;
  }

  // ---------------------------------------------------------------- density

  // A step that keeps the journal dense: it loses no rows behind the journal's back, and maintenance
  // still knows the current epoch (or does not hold rows to lose).
  ghost predicate Orderly(w: World, step: Step) {
    match step
    case LoseJournalRows(_) => false
    case Maintain(p) =>
      p in w.notes ==> w.notes[p].epoch == w.db.journal.epoch || w.db.journal.floor == w.db.journal.head
    case _ => true
  }

  ghost predicate OrderlyRun(epoch: Epoch, steps: seq<Step>) {
    forall i :: 0 <= i < |steps| ==> Orderly(Exec(Init(epoch), steps[..i]), steps[i])
  }

  // A maintenance run that read the current epoch read a head no later than the current one.
  ghost predicate NotesBehind(w: World) {
    && (forall p :: p in w.notes ==> w.notes[p].epoch in w.history)
    && (forall p :: p in w.notes && w.notes[p].epoch == w.db.journal.epoch ==> w.notes[p].head <= w.db.journal.head)
  }

  ghost predicate DenseInv(w: World) {
    Dense(w.db.journal) && NotesBehind(w) && w.db.journal.epoch in w.history
  }

  lemma {:induction false} CommittedJournalIsDense(j: Journal<Event>, plan: Plan, newEpoch: Epoch)
    requires Dense(j) && plan.Write?
    ensures Dense(JournalAfter(j, plan, newEpoch))
    ensures !plan.rebase ==> JournalAfter(j, plan, newEpoch).epoch == j.epoch && j.head <= JournalAfter(j, plan, newEpoch).head
    ensures plan.rebase ==> JournalAfter(j, plan, newEpoch).epoch == newEpoch
  {
    var k := if plan.rebase then Journal(newEpoch, 0, 0, map[]) else Appended(j, plan.events);
    AppendKeepsDensity(j, plan.events);
    AppendedRows(j, plan.events);
    CompactionKeepsDensity(k, PublicationCompaction(k, plan.size, plan.rebase));
  }

  lemma {:induction false} CommitKeepsDensity(w: World, p: Name, newEpoch: Epoch)
    requires DenseInv(w) && p in w.publishers && w.publishers[p].Built? && newEpoch !in w.history
    ensures DenseInv(Committed(w, p, newEpoch))
  {
    if w.publishers[p].plan.Write? {
      CommittedJournalIsDense(w.db.journal, w.publishers[p].plan, newEpoch);
    }
  }

  lemma {:induction false} MaintainKeepsDensity(w: World, p: Name)
    requires DenseInv(w) && p in w.notes
    ensures Dense(RunMaintenance(w.db, w.notes[p]).journal)
        <==> w.notes[p].epoch == w.db.journal.epoch || w.db.journal.floor == w.db.journal.head
  {
    DensityAfterCompaction(w.db.journal, MaintenanceCompaction(w.notes[p]));
  }

  lemma {:induction false} OnlyCommitsWrite(w: World, step: Step)
    requires ByPublisher(step) && !step.Commit? && !step.Deploy?
    ensures var after := Next(w, step); after.db == w.db && after.history == w.history && after.notes == w.notes
  {
    hide PlanRefresh, ViewOf, Published, NoEmptyIds, Committed, Followed, Opened, Paged, RunMaintenance, PruneGenerations,
      BootstrapPage, ReleaseSession, Deployed;
  }

  // Readers and pruning leave the journal alone.
  lemma {:induction false} OthersKeepJournal(w: World, step: Step)
    requires !ByPublisher(step) && !step.Maintain? && !step.LoseJournalRows?
    ensures Next(w, step).db.journal == w.db.journal && Next(w, step).history == w.history
    ensures !step.ReadMaintenance? ==> Next(w, step).notes == w.notes
  {
    hide Followed, Opened, Paged, BootstrapPage;
    match step
    case Open(c, token, principal, minutes) => if token !in w.tokens { OpenedBase(w, c, token, principal, minutes); }
    case Page(c, limit, delivered) =>
      if c in w.clients && w.clients[c].Paging? { PagedBase(w, c, limit, delivered); }
    case PageAgain(token, principal, at, limit) => PageBase(w.db, token, principal, at, limit);
    case _ =>
  }

  lemma {:induction false} NextKeepsDensity(w: World, step: Step)
    requires DenseInv(w) && Orderly(w, step)
    ensures DenseInv(Next(w, step))
  {
    hide Dense, CommitRefresh;
    match step
    case Commit(p, newEpoch) =>
      if p in w.publishers && w.publishers[p].Built? && newEpoch !in w.history { CommitKeepsDensity(w, p, newEpoch); }
    case Maintain(p) => if p in w.notes { MaintainKeepsDensity(w, p); }
    case LoseJournalRows(_) =>
    case Deploy(_) =>
    case _ =>
      if ByPublisher(step) {
        OnlyCommitsWrite(w, step);
      } else {
        OthersKeepJournal(w, step);
      }
  }

  lemma {:induction false} OrderlyRunIsDense(epoch: Epoch, steps: seq<Step>)
    requires OrderlyRun(epoch, steps)
    ensures DenseInv(Exec(Init(epoch), steps))
    decreases |steps|
  {
    if steps != [] {
      var init := steps[..|steps| - 1];
      assert forall i :: 0 <= i < |init| ==> init[..i] == steps[..i];
      OrderlyRunIsDense(epoch, init);
      NextKeepsDensity(Exec(Init(epoch), init), steps[|steps| - 1]);
    }
  }

  ghost predicate OrderlyReachable(w: World) {
    exists epoch, steps :: OrderlyRun(epoch, steps) && w == Exec(Init(epoch), steps)
  }

  // In an orderly run a reader of the current epoch between the floor and the head always gets the
  // next events: cursor+1, cursor+2, ... up to its limit, and at least one when it is behind.
  lemma {:induction false} OrderlyReadersProgress(w: World, cursor: nat, limit: int)
    requires OrderlyReachable(w) && w.db.journal.floor <= cursor <= w.db.journal.head
    ensures ServesNext(w.db.journal, cursor, limit)
  {
    hide OrderlyRun, Exec, Dense, ServesNext;
    var epoch, steps :| OrderlyRun(epoch, steps) && w == Exec(Init(epoch), steps);
    OrderlyRunIsDense(epoch, steps);
    DenseJournalServes(w.db.journal, cursor, limit);
  }

  // ---------------------------------------------------------------- references

  // Every fetched catalogue refers only to its own rows, parents before children.
  ghost predicate ClosedStep(step: Step) {
    step.Fetch? ==> ClosedSnapshot(step.s)
  }

  ghost predicate ClosedRun(steps: seq<Step>) {
    forall i :: 0 <= i < |steps| ==> ClosedStep(steps[i])
  }

  // Every view a client of any epoch can reach is closed.
  ghost predicate ClosedHistory(h: History) {
    forall n :: 0 <= n <= |h.events| ==> Closed(Replay(h.start, h.events[..n]))
  }

  ghost predicate ClosedHistories(history: Histories) {
    forall e :: e in history ==> ClosedHistory(history[e])
  }

  ghost predicate ClosedSnapshot(s: Snapshot) { Closed(ViewOf(SnapshotRows(s))) }

  ghost predicate ClosedFetches(publishers: map<Name, Publisher>) {
    forall p :: p in publishers ==> ClosedSnapshot(publishers[p].s)
  }

  ghost predicate ClosedInv(w: World) {
    ClosedHistories(w.history) && ClosedFetches(w.publishers)
  }

  lemma {:induction false} ClosedGrowth(h: History, generation: nat, rows: Rows)
    requires ClosedHistory(h) && Closed(ViewOf(rows))
    ensures ClosedHistory(h.(events := h.events + DiffEvents(generation, Replay(h.start, h.events), rows)))
  {
    hide Closed, DiffEvents, DiffKeys, ViewOf, Replay;
    var prior := Replay(h.start, h.events);
    var more := DiffEvents(generation, prior, rows);
    DiffLength(generation, prior, rows);
    assert h.events[..|h.events|] == h.events;
    forall n | 0 <= n <= |h.events + more| ensures Closed(Replay(h.start, (h.events + more)[..n])) {
      PrefixOfConcat(h.events, more, n);
      if n > |h.events| {
        ReplayConcat(h.start, h.events, more[..n - |h.events|]);
        EveryPrefixIsClosed(generation, prior, rows, n - |h.events|);
      }
    }
  }

  lemma {:induction false} RecordStaysClosed(history: Histories, epoch: Epoch, plan: Plan, newEpoch: Epoch, generation: nat)
    requires epoch in history && newEpoch !in history && plan.Write?
    requires ClosedHistories(history) && Closed(ViewOf(plan.rows))
    requires !plan.rebase ==>
      plan.events == DiffEvents(generation, Replay(history[epoch].start, history[epoch].events), plan.rows)
    ensures ClosedHistories(Recorded(history, epoch, plan, newEpoch))
  {
    if plan.rebase {
      assert ClosedHistory(History(ViewOf(plan.rows), []));
    } else {
      ClosedGrowth(history[epoch], generation, plan.rows);
    }
  }

  lemma PlanContent(base: Base, prior: View, s: Snapshot, plan: Plan)
    requires PlanRefresh(base, prior, s) == Ok(plan) && plan.Write?
    ensures plan.rows == SnapshotRows(s)
    ensures !plan.rebase ==> plan.events == DiffEvents(base.generation + 1, prior, plan.rows)
  {
  }

  lemma {:induction false} CommitStaysClosed(w: World, p: Name, newEpoch: Epoch)
    requires DbInv(w.db, w.history, w.published, w.tokens) && ClosedHistories(w.history)
    requires p in w.publishers && w.publishers[p].Built? && newEpoch !in w.history
    requires PublisherOk(w.publishers[p], w.db.generation, w.published) && ClosedSnapshot(w.publishers[p].s)
    requires PlanRefresh(w.publishers[p].plan.base, w.publishers[p].prior, w.publishers[p].s) == Ok(w.publishers[p].plan)
    ensures ClosedHistories(Committed(w, p, newEpoch).history)
  {
    hide PlanRefresh, DiffEvents, SnapshotRows, JournalAfter, ClosedHistories, NoEmptyIds, PlanSound;
    var b := w.publishers[p];
    if CommitRefresh(w.db, b.plan, newEpoch).Ok? && b.plan.Write? {
      var h := w.history[w.db.journal.epoch];
      assert h.events[..w.db.journal.head] == h.events;
      PlanContent(b.plan.base, b.prior, b.s, b.plan);
      RecordStaysClosed(w.history, w.db.journal.epoch, b.plan, newEpoch, w.db.generation + 1);
    }
  }

  // Where a publisher's snapshot comes from.
  ghost predicate SnapshotsFrom(a: map<Name, Publisher>, step: Step, b: map<Name, Publisher>) {
    forall p :: p in b ==> (p in a && b[p].s == a[p].s) || (step.Fetch? && b[p].s == step.s)
  }

  lemma {:induction false} PlanKeepsSnapshots(w: World, p: Name, locked: bool, step: Step)
    requires p in w.publishers && !w.publishers[p].Built?
    ensures SnapshotsFrom(w.publishers, step, WithPlan(w, p, locked).publishers)
    ensures WithPlan(w, p, locked).history == w.history
  {
    hide PlanRefresh, ViewOf, Published;
  }

  lemma CommittedPublishers(w: World, p: Name, newEpoch: Epoch)
    requires p in w.publishers && w.publishers[p].Built?
    ensures Committed(w, p, newEpoch).publishers == w.publishers - {p}
  {
    hide CommitRefresh, Recorded;
  }

  lemma {:induction false} SnapshotsKept(w: World, step: Step)
    ensures SnapshotsFrom(w.publishers, step, Next(w, step).publishers)
    ensures !step.Commit? ==> Next(w, step).history == w.history
  {
    hide WithPlan, Committed, NoEmptyIds;
    if !ByPublisher(step) {
      OthersKeepPublishers(w, step);
    } else {
      match step
      case Commit(p, newEpoch) =>
        if p in w.publishers && w.publishers[p].Built? && newEpoch !in w.history { CommittedPublishers(w, p, newEpoch); }
      case Build(p) =>
        if p in w.publishers && w.publishers[p].Holding? { PlanKeepsSnapshots(w, p, true, step); }
      case BuildUnlocked(p) =>
        if p in w.publishers && w.publishers[p].Fetched? { PlanKeepsSnapshots(w, p, false, step); }
      case _ =>
    }
  }

  lemma {:induction false} FetchesStayClosed(a: map<Name, Publisher>, step: Step, b: map<Name, Publisher>)
    requires ClosedFetches(a) && ClosedStep(step) && SnapshotsFrom(a, step, b)
    ensures ClosedFetches(b)
  {
    forall p | p in b ensures ClosedSnapshot(b[p].s) {
      if p in a && b[p].s == a[p].s { assert ClosedSnapshot(a[p].s); }
    }
  }

  lemma {:induction false} CommitStepStaysClosed(w: World, p: Name, newEpoch: Epoch)
    requires Inv(w) && PlansFollowBase(w) && ClosedInv(w)
    ensures ClosedHistories(Next(w, Commit(p, newEpoch)).history)
  {
    hide PlanRefresh, ClosedSnapshot, SnapshotRows, NoEmptyIds, CommitRefresh;
    if p in w.publishers && w.publishers[p].Built? && newEpoch !in w.history {
      assert PublisherOk(w.publishers[p], w.db.generation, w.published);
      CommitStaysClosed(w, p, newEpoch);
    }
  }

  lemma {:induction false} NextStaysClosed(w: World, step: Step)
    requires Inv(w) && PlansFollowBase(w) && ClosedInv(w) && ClosedStep(step)
    ensures ClosedInv(Next(w, step))
  {
    SnapshotsKept(w, step);
    FetchesStayClosed(w.publishers, step, Next(w, step).publishers);
    if step.Commit? {
      CommitStepStaysClosed(w, step.p, step.newEpoch);
    }
  }

  lemma {:induction false} ClosedRunStaysClosed(epoch: Epoch, steps: seq<Step>)
    requires ClosedRun(steps)
    ensures ClosedInv(Exec(Init(epoch), steps))
    decreases |steps|
  {
    if steps != [] {
      var init := steps[..|steps| - 1];
      ClosedRunStaysClosed(epoch, init);
      EveryRunKeeps(epoch, init);
      ExecFollowsBase(epoch, init);
      NextStaysClosed(Exec(Init(epoch), init), steps[|steps| - 1]);
    }
  }

  // If no fetched catalogue has a dangling reference, no following client ever has one, wherever
  // between two pages it stands.
  lemma {:induction false} MirrorsStayClosed(epoch: Epoch, steps: seq<Step>, c: Name)
    requires ClosedRun(steps)
    requires var w := Exec(Init(epoch), steps); c in w.clients && w.clients[c].Following?
    ensures Closed(Exec(Init(epoch), steps).clients[c].mirror)
  {
    var w := Exec(Init(epoch), steps);
    ClosedRunStaysClosed(epoch, steps);
    EveryRunKeeps(epoch, steps);
    assert ClientOk(w.clients[c], w.history, w.published, w.tokens, w.db.sessions);
  }
}
