// Publishers, maintenance, bootstrap sessions and clients of one catalogue source, interleaved
// in any order. Every step is one committed transaction or one reader's snapshot.

module CatalogProtocol {
  import opened Prelude
  import opened ChangeJournal
  import opened CatalogTypes
  import opened CatalogDiff
  import opened CatalogBootstrap
  import opened CatalogStore

  type Name = nat

  // A refresh: fetched its catalogue, holds the publisher lock, or has written its plan. A writer
  // of an older release builds without the lock.
  datatype Publisher =
    | Fetched(s: Snapshot)
    | Holding(s: Snapshot)
    | Built(s: Snapshot, prior: View, plan: Plan, locked: bool)

  datatype Client =
    | Paging(token: Token, principal: Principal, pinned: nat, epoch: Epoch, head: nat, at: Position, got: View)
    | Following(epoch: Epoch, cursor: nat, mirror: View)
    | NeedsBootstrap

  // All events one epoch ever had, and the view they start from.
  datatype History = History(start: View, events: seq<Event>)

  // history, published and tokens only record the run: no step reads them to decide.
  datatype World = World(
    db: Db, lock: Option<Name>, publishers: map<Name, Publisher>, notes: map<Name, Maintenance>,
    clients: map<Name, Client>,
    history: map<Epoch, History>, published: map<nat, Rows>, tokens: set<Token>)

  datatype Step =
    | Fetch(p: Name, s: Snapshot)
    | TakeLock(p: Name)
    | Build(p: Name)
    | BuildUnlocked(p: Name)
    | Commit(p: Name, newEpoch: Epoch)
    | Abandon(p: Name)
    | Deploy(schema: nat)
    | Prune(active: nat)
    | ReadMaintenance(p: Name)
    | Maintain(p: Name)
    | LoseJournalRows(lost: set<Pos>)
    | Open(c: Name, token: Token, principal: Principal, minutes: int)
    | Page(c: Name, limit: int, delivered: bool)
    | PageAgain(token: Token, principal: Principal, at: Position, limit: int)
    | Release(token: Token, principal: Principal)
    | Follow(c: Name, limit: int)
    | Tick(seconds: nat)

  function Init(epoch: Epoch): World {
    World(Db(0, CATALOG_FINGERPRINT_SCHEMA_VERSION, Journal(epoch, 0, 0, map[]), map[], map[], 0),
          None, map[], map[], map[], map[epoch := History(map[], [])], map[], {})
  }

  // What the normalizer guarantees: no row has an empty ID.
  predicate NoEmptyIds(s: Snapshot) {
    NoEmptyId(SnapshotRows(s))
  }

  function Next(w: World, step: Step): World {
    match step
    case Fetch(p, s) =>
      if p in w.publishers || !NoEmptyIds(s) then w else w.(publishers := w.publishers[p := Fetched(s)])
    case TakeLock(p) =>
      if p in w.publishers && w.publishers[p].Fetched? && w.lock == None
      then w.(lock := Some(p), publishers := w.publishers[p := Holding(w.publishers[p].s)])
      else w
    case Build(p) =>
      if p in w.publishers && w.publishers[p].Holding? then WithPlan(w, p, true) else w
    case BuildUnlocked(p) =>
      if p in w.publishers && w.publishers[p].Fetched? then WithPlan(w, p, false) else w
    case Commit(p, newEpoch) =>
      if p in w.publishers && w.publishers[p].Built? && newEpoch !in w.history
      then Committed(w, p, newEpoch)
      else w
    case Abandon(p) => Finished(w, p)
    case Deploy(schema) => Deployed(w, schema)
    case Prune(active) =>
      if active <= w.db.generation then w.(db := PruneGenerations(w.db, active)) else w
    case ReadMaintenance(p) =>
      w.(notes := w.notes[p := Maintenance(w.db.generation, w.db.journal.epoch, w.db.journal.head, |Published(w.db)|)])
    case Maintain(p) =>
      if p in w.notes then w.(db := RunMaintenance(w.db, w.notes[p]), notes := w.notes - {p}) else w
    case LoseJournalRows(lost) =>
      w.(db := w.db.(journal := w.db.journal.(rows := w.db.journal.rows - lost)))
    case Open(c, token, principal, minutes) =>
      if token in w.tokens then w else Opened(w, c, token, principal, minutes)
    case Page(c, limit, delivered) =>
      if c in w.clients && w.clients[c].Paging? then Paged(w, c, limit, delivered) else w
    case PageAgain(token, principal, at, limit) =>
      (match BootstrapPage(w.db, token, principal, at, limit)
       case Ok((page, db)) => w.(db := db)
       case Err(_) => w)
    case Release(token, principal) => w.(db := ReleaseSession(w.db, token, principal))
    case Follow(c, limit) =>
      if c in w.clients && w.clients[c].Following? then w.(clients := w.clients[c := Followed(w, c, limit)]) else w
    case Tick(seconds) => w.(db := w.db.(now := w.db.now + seconds))
  }

  function Exec(w: World, steps: seq<Step>): World
    decreases |steps|
  {
    if steps == [] then w else Next(Exec(w, steps[..|steps| - 1]), steps[|steps| - 1])
  }

  // The publisher reads its base and the published fingerprints, then decides.
  function WithPlan(w: World, p: Name, locked: bool): World
    requires p in w.publishers && !w.publishers[p].Built?
  {
    var s := w.publishers[p].s;
    var prior := ViewOf(Published(w.db));
    match PlanRefresh(BaseOf(w.db), prior, s)
    case Ok(plan) => w.(publishers := w.publishers[p := Built(s, prior, plan, locked)])
    case Err(_) => Finished(w, p)
  }

  // The transaction ends, which releases the publisher lock.
  function Finished(w: World, p: Name): World {
    w.(publishers := w.publishers - {p}, lock := if w.lock == Some(p) then None else w.lock)
  }

  // A release that fingerprints by another schema is installed: its processes start anew, and what
  // is published counts as fingerprinted by the given schema.
  function Deployed(w: World, schema: nat): World {
    w.(db := w.db.(schema := schema), publishers := map[], lock := None, notes := map[])
  }

  function Committed(w: World, p: Name, newEpoch: Epoch): World
    requires p in w.publishers && w.publishers[p].Built?
  {
    var plan := w.publishers[p].plan;
    match CommitRefresh(w.db, plan, newEpoch)
    case Err(_) => Finished(w, p)
    case Ok(db) =>
      var done := Finished(w, p).(db := db);
      if plan.NoChange? then done
      else done.(published := w.published[db.generation := plan.rows],
                 history := Recorded(w.history, w.db.journal.epoch, plan, newEpoch))
  }

  function Recorded(history: map<Epoch, History>, epoch: Epoch, plan: Plan, newEpoch: Epoch): map<Epoch, History>
    requires plan.Write?
  {
    if plan.rebase then history[newEpoch := History(ViewOf(plan.rows), [])]
    else if epoch in history then history[epoch := history[epoch].(events := history[epoch].events + plan.events)]
    else history
  }

  function Opened(w: World, c: Name, token: Token, principal: Principal, minutes: int): World {
    match OpenSession(w.db, token, principal, minutes)
    case Err(_) => w
    case Ok(db) =>
      w.(db := db, tokens := w.tokens + {token},
         clients := w.clients[c := Paging(token, principal, w.db.generation, w.db.journal.epoch, w.db.journal.head,
                                          START, map[])])
  }

  // What a client keeps of a page.
  function Gather(got: View, rows: Rows, keys: seq<Key>): View {
    got + map k | k in keys && k in rows :: RowFingerprints(k.entity, rows[k])
  }

  function Paged(w: World, c: Name, limit: int, delivered: bool): World
    requires c in w.clients && w.clients[c].Paging?
  {
    var client := w.clients[c];
    match BootstrapPage(w.db, client.token, client.principal, client.at, limit)
    case Err(_) => if delivered then w.(clients := w.clients[c := NeedsBootstrap]) else w
    case Ok((page, db)) =>
      var after := w.(db := db);
      if !delivered then after
      else
        var pinned := w.db.sessions[client.token].pinned;
        var rows := if pinned in w.db.generations then w.db.generations[pinned] else map[];
        var got := Gather(client.got, rows, page.keys);
        after.(clients := w.clients[c :=
          if page.next.Some? then client.(at := page.next.value, got := got)
          else Following(client.epoch, client.head, got)])
  }

  // A client asks for the page after its cursor and replays it.
  function Followed(w: World, c: Name, limit: int): Client
    requires c in w.clients && w.clients[c].Following?
  {
    var client := w.clients[c];
    match ReadChangePage(w.db.journal, client.epoch, client.cursor, limit)
    case Served(events) => Following(client.epoch, client.cursor + |events|, Replay(client.mirror, events))
    case BootstrapRequired => NeedsBootstrap
    case CursorAhead => client
  }

  // ---------------------------------------------------------------- the invariant

  type Histories = map<Epoch, History>
  type Generations = map<nat, Rows>

  // v is the view of one epoch after its first cursor events.
  ghost predicate At(history: Histories, epoch: Epoch, cursor: nat, v: View) {
    && epoch in history && cursor <= |history[epoch].events|
    && v == Replay(history[epoch].start, history[epoch].events[..cursor])
  }

  // Every journal row is the event its epoch had at that number. Rows may be missing.
  ghost predicate JournalInv(j: Journal<Event>, history: Histories) {
    && j.epoch in history && |history[j.epoch].events| == j.head
    && forall p :: p in j.rows ==>
         p.epoch in history && 1 <= p.num <= |history[p.epoch].events| && j.rows[p] == history[p.epoch].events[p.num - 1]
  }

  // Generations are never rewritten, and the published one is the journal's view at its head.
  ghost predicate GenerationInv(generation: nat, generations: Generations, published: Generations) {
    && (forall g :: g in published <==> 1 <= g <= generation)
    && (forall g :: g in published ==> NoEmptyId(published[g]))
    && (forall g :: g in generations ==> g in published && generations[g] == published[g])
    && (generation > 0 ==> generation in generations)
  }

  ghost function PublishedAt(published: Generations, generation: nat): Rows {
    if generation in published then published[generation] else map[]
  }

  ghost predicate PinnedAt(history: Histories, published: Generations, pinned: nat, epoch: Epoch, head: nat) {
    pinned in published && At(history, epoch, head, ViewOf(published[pinned]))
  }

  ghost predicate SessionOk(history: Histories, published: Generations, generations: Generations, now: nat, s: Session) {
    PinnedAt(history, published, s.pinned, s.epoch, s.head) && (Live(s, now) ==> s.pinned in generations)
  }

  ghost predicate SessionInv(sessions: map<Token, Session>, tokens: set<Token>, history: Histories,
                             published: Generations, generations: Generations, now: nat) {
    forall t :: t in sessions ==> t in tokens && SessionOk(history, published, generations, now, sessions[t])
  }

  ghost predicate PlanSound(plan: Plan, prior: View) {
    plan.Write? ==> NoEmptyId(plan.rows) && (!plan.rebase ==> Replay(prior, plan.events) == ViewOf(plan.rows))
  }

  ghost predicate PublisherOk(p: Publisher, generation: nat, published: Generations) {
    && NoEmptyIds(p.s)
    && (p.Built? ==>
         && p.plan.base.generation <= generation
         && p.prior == ViewOf(PublishedAt(published, p.plan.base.generation))
         && PlanSound(p.plan, p.prior))
  }

  ghost predicate PublisherInv(publishers: map<Name, Publisher>, generation: nat, published: Generations) {
    forall p :: p in publishers ==> PublisherOk(publishers[p], generation, published)
  }

  // What a paging client has so far: the pinned rows up to its position.
  ghost function Received(rows: Rows, at: Position): View {
    map k | k in rows && k !in Ahead(rows, at) :: RowFingerprints(k.entity, rows[k])
  }

  ghost function ReceivedOf(rows: Rows, at: Option<Position>): View {
    match at case Some(p) => Received(rows, p) case None => ViewOf(rows)
  }

  ghost predicate ClientOk(client: Client, history: Histories, published: Generations, tokens: set<Token>,
                           sessions: map<Token, Session>) {
    match client
    case NeedsBootstrap => true
    case Following(epoch, cursor, mirror) => At(history, epoch, cursor, mirror)
    case Paging(token, principal, pinned, epoch, head, at, got) =>
      && token in tokens
      && PinnedAt(history, published, pinned, epoch, head)
      && got == Received(published[pinned], at)
      && (token in sessions ==> sessions[token].pinned == pinned)
  }

  ghost predicate ClientInv(clients: map<Name, Client>, history: Histories, published: Generations, tokens: set<Token>,
                            sessions: map<Token, Session>) {
    forall c :: c in clients ==> ClientOk(clients[c], history, published, tokens, sessions)
  }

  ghost predicate NotesInv(notes: map<Name, Maintenance>, generation: nat) {
    forall p :: p in notes ==> notes[p].generation <= generation
  }

  ghost predicate DbInv(db: Db, history: Histories, published: Generations, tokens: set<Token>) {
    && JournalInv(db.journal, history)
    && GenerationInv(db.generation, db.generations, published)
    && At(history, db.journal.epoch, db.journal.head, ViewOf(PublishedAt(published, db.generation)))
    && SessionInv(db.sessions, tokens, history, published, db.generations, db.now)
  }

  ghost predicate Inv(w: World) {
    && DbInv(w.db, w.history, w.published, w.tokens)
    && PublisherInv(w.publishers, w.db.generation, w.published)
    && ClientInv(w.clients, w.history, w.published, w.tokens, w.db.sessions)
    && NotesInv(w.notes, w.db.generation)
  }

  lemma PublishedRows(db: Db, published: Generations)
    requires GenerationInv(db.generation, db.generations, published)
    ensures Published(db) == PublishedAt(published, db.generation)
  {
  }

  // ---------------------------------------------------------------- maintenance and sessions

  lemma {:induction false} PruneKeeps(db: Db, history: Histories, published: Generations, tokens: set<Token>, active: nat)
    requires DbInv(db, history, published, tokens) && active <= db.generation
    ensures DbInv(PruneGenerations(db, active), history, published, tokens)
  {
    var after := PruneGenerations(db, active);
    forall t | t in after.sessions && Live(after.sessions[t], after.now)
      ensures after.sessions[t].pinned in after.generations
    {
      assert t in db.sessions && SessionOk(history, published, db.generations, db.now, db.sessions[t]);
      assert Pinned(db, db.sessions[t].pinned);
    }
  }

  // Losing journal rows, for whatever reason, breaks nothing the mirror relies on.
  lemma {:induction false} FewerRowsKeep(a: Journal<Event>, b: Journal<Event>, history: Histories)
    requires JournalInv(a, history) && b.epoch == a.epoch && b.head == a.head
    requires forall p :: p in b.rows ==> p in a.rows && b.rows[p] == a.rows[p]
    ensures JournalInv(b, history)
  {
  }

  lemma {:induction false} MaintainKeeps(db: Db, history: Histories, published: Generations, tokens: set<Token>, m: Maintenance)
    requires DbInv(db, history, published, tokens) && m.generation <= db.generation
    ensures DbInv(RunMaintenance(db, m), history, published, tokens)
  {
    PruneKeeps(db, history, published, tokens, m.generation);
    var pruned := PruneGenerations(db, m.generation);
    FewerRowsKeep(pruned.journal, Compacted(pruned.journal, MaintenanceCompaction(m)), history);
  }

  // Completing, dropping or expiring sessions keeps the rest sound.
  lemma {:induction false} FewerSessionsKeep(a: map<Token, Session>, b: map<Token, Session>, tokens: set<Token>,
      history: Histories, published: Generations, generations: Generations, now: nat, later: nat)
    requires SessionInv(a, tokens, history, published, generations, now) && now <= later
    requires forall t :: t in b ==> t in a && (b[t] == a[t] || b[t] == a[t].(completed := true))
    ensures SessionInv(b, tokens, history, published, generations, later)
  {
    forall t | t in b ensures SessionOk(history, published, generations, later, b[t]) {
      assert SessionOk(history, published, generations, now, a[t]);
    }
  }

  lemma {:induction false} ClientsKeep(clients: map<Name, Client>, history: Histories, published: Generations,
      tokens: set<Token>, a: map<Token, Session>, b: map<Token, Session>)
    requires ClientInv(clients, history, published, tokens, a)
    requires forall t :: t in b && t in tokens ==> t in a && b[t].pinned == a[t].pinned
    ensures ClientInv(clients, history, published, tokens, b)
  {
    forall c | c in clients ensures ClientOk(clients[c], history, published, tokens, b) {
      assert ClientOk(clients[c], history, published, tokens, a);
    }
  }

  lemma {:induction false} ClientsGrow(clients: map<Name, Client>, history: Histories, published: Generations,
      tokens: set<Token>, more: set<Token>, sessions: map<Token, Session>)
    requires ClientInv(clients, history, published, tokens, sessions) && tokens <= more
    ensures ClientInv(clients, history, published, more, sessions)
  {
    forall c | c in clients ensures ClientOk(clients[c], history, published, more, sessions) {
      assert ClientOk(clients[c], history, published, tokens, sessions);
    }
  }

  lemma {:induction false} OpenKeeps(w: World, c: Name, token: Token, principal: Principal, minutes: int)
    requires Inv(w) && token !in w.tokens
    ensures Inv(Next(w, Open(c, token, principal, minutes)))
  {
    match OpenSession(w.db, token, principal, minutes) {
      case Err(_) =>
      case Ok(db) =>
        var g := w.db.generation;
        AllAheadOfStart(w.published[g]);
        assert Received(w.published[g], START) == map[];
        assert PinnedAt(w.history, w.published, g, w.db.journal.epoch, w.db.journal.head);
        var open := OpenSessions(w.db);
        FewerSessionsKeep(w.db.sessions, open, w.tokens, w.history, w.published, w.db.generations, w.db.now, w.db.now);
        ClientsKeep(w.clients, w.history, w.published, w.tokens, w.db.sessions, db.sessions);
        ClientsGrow(w.clients, w.history, w.published, w.tokens, w.tokens + {token}, db.sessions);
    }
  }

  // ---------------------------------------------------------------- paging

  // A page and what comes after it split what was ahead: no row of a page comes again.
  lemma {:induction false} PageSplitsAhead(rows: Rows, at: Position, limit: int)
    requires NoEmptyId(rows)
    ensures Ahead(rows, at) == KeysOf(ReadPage(rows, at, limit).keys) + AheadOf(rows, ReadPage(rows, at, limit).next)
    ensures KeysOf(ReadPage(rows, at, limit).keys) !! AheadOf(rows, ReadPage(rows, at, limit).next)
  {
    var page := ReadPage(rows, at, limit);
    var rest := Listing(false, AheadOf(rows, page.next));
    PageAdvances(rows, at, limit);
    ListingSorted(false, Ahead(rows, at));
    SortedApart(false, page.keys, rest);
    forall k ensures k in Ahead(rows, at) <==> k in KeysOf(page.keys) + AheadOf(rows, page.next) {
      assert k in Listing(false, Ahead(rows, at)) <==> k in page.keys + rest;
    }
  }

  // A delivered page extends what the client has by exactly the rows between the two positions.
  lemma {:induction false} GatherPage(rows: Rows, at: Position, limit: int)
    requires NoEmptyId(rows)
    ensures Gather(Received(rows, at), rows, ReadPage(rows, at, limit).keys)
         == ReceivedOf(rows, ReadPage(rows, at, limit).next)
  {
    PageSplitsAhead(rows, at, limit);
    GatherKeys(rows, at, ReadPage(rows, at, limit).next, ReadPage(rows, at, limit).keys);
  }

  lemma {:induction false} GatherKeys(rows: Rows, at: Position, next: Option<Position>, keys: seq<Key>)
    requires Ahead(rows, at) == KeysOf(keys) + AheadOf(rows, next)
    requires KeysOf(keys) !! AheadOf(rows, next)
    ensures Gather(Received(rows, at), rows, keys) == ReceivedOf(rows, next)
  {
    assert forall k :: k in keys <==> k in KeysOf(keys);
  }

  // What a page does to the sessions and, when delivered, to its client.
  lemma {:induction false} PageKeepsDb(w: World, token: Token, principal: Principal, at: Position, limit: int)
    requires Inv(w)
    ensures match BootstrapPage(w.db, token, principal, at, limit)
      case Err(_) => true
      case Ok((page, db)) => Inv(w.(db := db))
  {
    match BootstrapPage(w.db, token, principal, at, limit) {
      case Err(_) =>
      case Ok((page, db)) =>
        FewerSessionsKeep(w.db.sessions, db.sessions, w.tokens, w.history, w.published, w.db.generations, w.db.now, w.db.now);
        ClientsKeep(w.clients, w.history, w.published, w.tokens, w.db.sessions, db.sessions);
    }
  }

  lemma {:induction false} ReleaseKeeps(w: World, token: Token, principal: Principal)
    requires Inv(w)
    ensures Inv(Next(w, Release(token, principal)))
  {
    var db := ReleaseSession(w.db, token, principal);
    FewerSessionsKeep(w.db.sessions, db.sessions, w.tokens, w.history, w.published, w.db.generations, w.db.now, w.db.now);
    ClientsKeep(w.clients, w.history, w.published, w.tokens, w.db.sessions, db.sessions);
  }

  lemma {:induction false} ReplaceClient(w: World, c: Name, client: Client)
    requires Inv(w) && ClientOk(client, w.history, w.published, w.tokens, w.db.sessions)
    ensures Inv(w.(clients := w.clients[c := client]))
  {
  }

  lemma {:induction false} PagedClient(db: Db, history: Histories, published: Generations, tokens: set<Token>,
      client: Client, limit: int)
    requires DbInv(db, history, published, tokens)
    requires client.Paging? && ClientOk(client, history, published, tokens, db.sessions)
    requires BootstrapPage(db, client.token, client.principal, client.at, limit).Ok?
    ensures var (page, after) := BootstrapPage(db, client.token, client.principal, client.at, limit).value;
            var rows := published[client.pinned];
            && client.pinned in db.generations && db.generations[client.pinned] == rows
            && db.sessions[client.token].pinned == client.pinned
            && Gather(client.got, rows, page.keys) == ReceivedOf(rows, page.next)
  {
    assert SessionOk(history, published, db.generations, db.now, db.sessions[client.token]);
    GatherPage(published[client.pinned], client.at, limit);
  }

  lemma {:induction false} PagedKeeps(w: World, c: Name, limit: int, delivered: bool)
    requires Inv(w) && c in w.clients && w.clients[c].Paging?
    ensures Inv(Paged(w, c, limit, delivered))
  {
    var client := w.clients[c];
    assert ClientOk(client, w.history, w.published, w.tokens, w.db.sessions);
    PageKeepsDb(w, client.token, client.principal, client.at, limit);
    match BootstrapPage(w.db, client.token, client.principal, client.at, limit) {
      case Err(_) => ReplaceClient(w, c, NeedsBootstrap);
      case Ok((page, db)) =>
        PagedClient(w.db, w.history, w.published, w.tokens, client, limit);
        var got := Gather(client.got, w.published[client.pinned], page.keys);
        var after := if page.next.Some? then client.(at := page.next.value, got := got)
                     else Following(client.epoch, client.head, got);
        ReplaceClient(w.(db := db), c, after);
    }
  }

  // ---------------------------------------------------------------- following

  lemma {:induction false} EventsOfHistory(j: Journal<Event>, history: Histories, cursor: nat, count: nat)
    requires JournalInv(j, history) && cursor + count <= j.head && Continues(j, cursor, count)
    ensures history[j.epoch].events[..cursor + count] == history[j.epoch].events[..cursor] + EventsAfter(j, cursor, count)
  {
    var events := history[j.epoch].events;
    forall i | 0 <= i < count ensures EventsAfter(j, cursor, count)[i] == events[cursor + i] {
      assert Pos(j.epoch, cursor + 1 + i) in j.rows;
    }
  }

  lemma {:induction false} ReplayOfHistory(j: Journal<Event>, history: Histories, cursor: nat, count: nat, mirror: View)
    requires JournalInv(j, history) && cursor + count <= j.head && Continues(j, cursor, count)
    requires At(history, j.epoch, cursor, mirror)
    ensures At(history, j.epoch, cursor + count, Replay(mirror, EventsAfter(j, cursor, count)))
  {
    EventsOfHistory(j, history, cursor, count);
    var h := history[j.epoch];
    ReplayConcat(h.start, h.events[..cursor], EventsAfter(j, cursor, count));
  }

  // Served events are the next ones of the cursor's epoch, and the cursor is never ahead.
  lemma {:induction false} ServedEvents(j: Journal<Event>, history: Histories, epoch: Epoch, cursor: nat, mirror: View, limit: int)
    requires JournalInv(j, history) && At(history, epoch, cursor, mirror)
    ensures match ReadChangePage(j, epoch, cursor, limit)
      case Served(events) =>
        && epoch == j.epoch && cursor + |events| <= j.head
        && |events| == Min(Clamp(1, limit, MAX_PAGE_EVENTS), j.head - cursor)
        && At(history, epoch, cursor + |events|, Replay(mirror, events))
      case CursorAhead => false
      case BootstrapRequired => true
  {
    ReadChangePageMeaning(j, epoch, cursor, limit);
    var count := Min(Clamp(1, limit, MAX_PAGE_EVENTS), j.head - cursor);
    if epoch == j.epoch && j.floor <= cursor && Continues(j, cursor, count) {
      ReplayOfHistory(j, history, cursor, count, mirror);
    }
  }

  lemma {:induction false} FollowedIsOk(w: World, c: Name, limit: int)
    requires JournalInv(w.db.journal, w.history) && c in w.clients && w.clients[c].Following?
    requires ClientOk(w.clients[c], w.history, w.published, w.tokens, w.db.sessions)
    ensures ClientOk(Followed(w, c, limit), w.history, w.published, w.tokens, w.db.sessions)
  {
    var client := w.clients[c];
    ServedEvents(w.db.journal, w.history, client.epoch, client.cursor, client.mirror, limit);
  }

  lemma {:induction false} FollowKeeps(w: World, c: Name, limit: int)
    requires Inv(w) && c in w.clients && w.clients[c].Following?
    ensures Inv(w.(clients := w.clients[c := Followed(w, c, limit)]))
  {
    FollowedIsOk(w, c, limit);
    ReplaceClient(w, c, Followed(w, c, limit));
  }

  // ---------------------------------------------------------------- publishing

  ghost predicate Extends(a: Histories, b: Histories) {
    forall e :: e in a ==> e in b && a[e].start == b[e].start && a[e].events <= b[e].events
  }

  ghost predicate Contains(a: Generations, b: Generations) {
    forall g :: g in a ==> g in b && b[g] == a[g]
  }

  lemma {:induction false} AtExtends(a: Histories, b: Histories, e: Epoch, cursor: nat, v: View)
    requires Extends(a, b) && At(a, e, cursor, v)
    ensures At(b, e, cursor, v)
  {
    assert a[e].events[..cursor] == b[e].events[..cursor];
  }

  // What a run has recorded only grows, and readers only depend on what it keeps.
  lemma {:induction false} ClientsKeepHistory(clients: map<Name, Client>, a: Histories, b: Histories,
      p: Generations, q: Generations, tokens: set<Token>, sessions: map<Token, Session>)
    requires ClientInv(clients, a, p, tokens, sessions) && Extends(a, b) && Contains(p, q)
    ensures ClientInv(clients, b, q, tokens, sessions)
  {
    forall c | c in clients ensures ClientOk(clients[c], b, q, tokens, sessions) {
      assert ClientOk(clients[c], a, p, tokens, sessions);
      match clients[c]
      case NeedsBootstrap =>
      case Following(epoch, cursor, mirror) => AtExtends(a, b, epoch, cursor, mirror);
      case Paging(_, _, pinned, epoch, head, _, _) => AtExtends(a, b, epoch, head, ViewOf(p[pinned]));
    }
  }

  lemma {:induction false} SessionsKeepHistory(sessions: map<Token, Session>, tokens: set<Token>, a: Histories, b: Histories,
      p: Generations, q: Generations, g: Generations, h: Generations, now: nat)
    requires SessionInv(sessions, tokens, a, p, g, now) && Extends(a, b) && Contains(p, q) && g.Keys <= h.Keys
    ensures SessionInv(sessions, tokens, b, q, h, now)
  {
    forall t | t in sessions ensures SessionOk(b, q, h, now, sessions[t]) {
      assert SessionOk(a, p, g, now, sessions[t]);
      AtExtends(a, b, sessions[t].epoch, sessions[t].head, ViewOf(p[sessions[t].pinned]));
    }
  }

  lemma {:induction false} PublishersKeep(publishers: map<Name, Publisher>, generation: nat, published: Generations, rows: Rows)
    requires PublisherInv(publishers, generation, published)
    requires forall g :: g in published ==> g <= generation
    ensures PublisherInv(publishers, generation + 1, published[generation + 1 := rows])
  {
    forall p | p in publishers ensures PublisherOk(publishers[p], generation + 1, published[generation + 1 := rows]) {
      assert PublisherOk(publishers[p], generation, published);
    }
  }

  lemma {:induction false} ReplacePublisher(w: World, p: Name, b: Publisher)
    requires Inv(w) && PublisherOk(b, w.db.generation, w.published)
    ensures Inv(w.(publishers := w.publishers[p := b]))
  {
  }

  lemma {:induction false} FinishedKeeps(w: World, p: Name)
    requires Inv(w)
    ensures Inv(Finished(w, p))
  {
  }

  lemma {:induction false} PlansAreSound(base: Base, prior: View, s: Snapshot, plan: Plan)
    requires PlanRefresh(base, prior, s) == Ok(plan) && NoEmptyIds(s)
    ensures plan.base == base && PlanSound(plan, prior)
  {
    hide DiffEvents, Replay, ViewOf, Insertable, SnapshotSize;
    DiffReplays(base.generation + 1, prior, SnapshotRows(s));
  }

  lemma {:induction false} WithPlanKeeps(w: World, p: Name, locked: bool)
    requires Inv(w) && p in w.publishers && !w.publishers[p].Built?
    ensures Inv(WithPlan(w, p, locked))
  {
    PublishedRows(w.db, w.published);
    assert PublisherOk(w.publishers[p], w.db.generation, w.published);
    var s, prior := w.publishers[p].s, ViewOf(Published(w.db));
    match PlanRefresh(BaseOf(w.db), prior, s) {
      case Ok(plan) =>
        PlansAreSound(BaseOf(w.db), prior, s, plan);
        ReplacePublisher(w, p, Built(s, prior, plan, locked));
      case Err(_) => FinishedKeeps(w, p);
    }
  }

  ghost function Grown(history: Histories, epoch: Epoch, events: seq<Event>): Histories
    requires epoch in history
  {
    history[epoch := history[epoch].(events := history[epoch].events + events)]
  }

  lemma {:induction false} GrownReplays(history: Histories, epoch: Epoch, events: seq<Event>, prior: View)
    requires epoch in history && At(history, epoch, |history[epoch].events|, prior)
    ensures At(Grown(history, epoch, events), epoch, |history[epoch].events| + |events|, Replay(prior, events))
    ensures Extends(history, Grown(history, epoch, events))
  {
    var h := history[epoch];
    assert h.events[..|h.events|] == h.events;
    ReplayConcat(h.start, h.events, events);
    assert (h.events + events)[..|h.events| + |events|] == h.events + events;
  }

  lemma {:induction false} AppendKeepsJournal(j: Journal<Event>, history: Histories, events: seq<Event>)
    requires JournalInv(j, history)
    ensures JournalInv(Appended(j, events), Grown(history, j.epoch, events))
  {
    AppendedRows(j, events);
  }

  lemma {:induction false} RebaseJournal(j: Journal<Event>, history: Histories, plan: Plan, newEpoch: Epoch)
    requires plan.Write? && plan.rebase && newEpoch !in history
    ensures var after := JournalAfter(j, plan, newEpoch);
            var record := Recorded(history, j.epoch, plan, newEpoch);
            && JournalInv(after, record) && At(record, after.epoch, after.head, ViewOf(plan.rows)) && Extends(history, record)
  {
    var record := history[newEpoch := History(ViewOf(plan.rows), [])];
    assert record[newEpoch].events[..0] == [];
  }

  lemma {:induction false} AppendJournal(j: Journal<Event>, history: Histories, plan: Plan, newEpoch: Epoch,
                                         prior: View)
    requires plan.Write? && !plan.rebase && Replay(prior, plan.events) == ViewOf(plan.rows)
    requires JournalInv(j, history) && At(history, j.epoch, j.head, prior)
    ensures var after := JournalAfter(j, plan, newEpoch);
            var record := Recorded(history, j.epoch, plan, newEpoch);
            && JournalInv(after, record) && At(record, after.epoch, after.head, ViewOf(plan.rows)) && Extends(history, record)
  {
    AppendKeepsJournal(j, history, plan.events);
    AppendedRows(j, plan.events);
    GrownReplays(history, j.epoch, plan.events, prior);
    FewerRowsKeep(Appended(j, plan.events), JournalAfter(j, plan, newEpoch), Grown(history, j.epoch, plan.events));
  }

  lemma {:induction false} GenerationsGrow(generation: nat, generations: Generations, published: Generations, rows: Rows)
    requires GenerationInv(generation, generations, published) && NoEmptyId(rows)
    ensures GenerationInv(generation + 1, generations[generation + 1 := rows], published[generation + 1 := rows])
    ensures Contains(published, published[generation + 1 := rows])
  {
  }

  lemma {:induction false} CommitSessions(w: World, sessions: map<Token, Session>, b: Histories, q: Generations, h: Generations)
    requires DbInv(w.db, w.history, w.published, w.tokens)
    requires Extends(w.history, b) && Contains(w.published, q) && w.db.generations.Keys <= h.Keys
    requires sessions == w.db.sessions || sessions == CompletedAll(w.db.sessions)
    ensures SessionInv(sessions, w.tokens, b, q, h, w.db.now)
  {
    SessionsKeepHistory(w.db.sessions, w.tokens, w.history, b, w.published, q, w.db.generations, h, w.db.now);
    FewerSessionsKeep(w.db.sessions, sessions, w.tokens, b, q, h, w.db.now, w.db.now);
  }

  // The stored catalogue after a commit.
  lemma {:induction false} CommitKeepsDb(w: World, p: Name, newEpoch: Epoch)
    requires Inv(w) && p in w.publishers && w.publishers[p].Built? && newEpoch !in w.history
    requires CommitRefresh(w.db, w.publishers[p].plan, newEpoch).Ok? && w.publishers[p].plan.Write?
    ensures var after := Committed(w, p, newEpoch);
            && DbInv(after.db, after.history, after.published, after.tokens)
            && Extends(w.history, after.history) && Contains(w.published, after.published)
  {
    hide JournalInv, SessionInv, Replay, At, Extends, Contains, JournalAfter, ViewOf, NoEmptyId, NoEmptyIds;
    var b := w.publishers[p];
    var after := Committed(w, p, newEpoch);
    assert PublisherOk(b, w.db.generation, w.published);
    if b.plan.rebase {
      RebaseJournal(w.db.journal, w.history, b.plan, newEpoch);
    } else {
      AppendJournal(w.db.journal, w.history, b.plan, newEpoch, b.prior);
    }
    GenerationsGrow(w.db.generation, w.db.generations, w.published, b.plan.rows);
    CommitSessions(w, after.db.sessions, after.history, after.published, after.db.generations);
  }

  lemma {:induction false} CommitKeeps(w: World, p: Name, newEpoch: Epoch)
    requires Inv(w) && p in w.publishers && w.publishers[p].Built? && newEpoch !in w.history
    ensures Inv(Committed(w, p, newEpoch))
  {
    hide PublisherInv, ClientInv, SessionInv, JournalInv, Extends, Contains, JournalAfter, Recorded;
    var plan := w.publishers[p].plan;
    var after := Committed(w, p, newEpoch);
    FinishedKeeps(w, p);
    if CommitRefresh(w.db, plan, newEpoch).Ok? && plan.Write? {
      CommitKeepsDb(w, p, newEpoch);
      ClientsKeepHistory(w.clients, w.history, after.history, w.published, after.published, w.tokens, w.db.sessions);
      ClientsKeep(w.clients, after.history, after.published, w.tokens, w.db.sessions, after.db.sessions);
      PublishersKeep(Finished(w, p).publishers, w.db.generation, w.published, plan.rows);
    }
  }

  // ---------------------------------------------------------------- every run

  lemma {:induction false} WaitingKeeps(w: World, step: Step)
    requires Inv(w) && (step.Fetch? || step.TakeLock? || step.Abandon?)
    ensures Inv(Next(w, step))
  {
    hide DbInv, ClientInv;
    if step.TakeLock? && step.p in w.publishers {
      assert PublisherOk(w.publishers[step.p], w.db.generation, w.published);
    }
  }

  lemma {:induction false} PublisherStepKeeps(w: World, step: Step)
    requires Inv(w)
    requires step.Fetch? || step.TakeLock? || step.Build? || step.BuildUnlocked? || step.Commit? || step.Abandon?
    ensures Inv(Next(w, step))
  {
    hide Inv, Committed, CommitRefresh, PlanRefresh;
    match step
    case Build(p) => if p in w.publishers && w.publishers[p].Holding? { WithPlanKeeps(w, p, true); }
    case BuildUnlocked(p) => if p in w.publishers && w.publishers[p].Fetched? { WithPlanKeeps(w, p, false); }
    case Commit(p, newEpoch) =>
      if p in w.publishers && w.publishers[p].Built? && newEpoch !in w.history { CommitKeeps(w, p, newEpoch); }
    case _ => WaitingKeeps(w, step);
  }

  lemma {:induction false} PruneStepKeeps(w: World, active: nat)
    requires Inv(w) && active <= w.db.generation
    ensures Inv(w.(db := PruneGenerations(w.db, active)))
  {
    PruneKeeps(w.db, w.history, w.published, w.tokens, active);
    ClientsKeep(w.clients, w.history, w.published, w.tokens, w.db.sessions, PruneGenerations(w.db, active).sessions);
  }

  lemma {:induction false} MaintainStepKeeps(w: World, p: Name)
    requires Inv(w) && p in w.notes
    ensures Inv(Next(w, Maintain(p)))
  {
    MaintainKeeps(w.db, w.history, w.published, w.tokens, w.notes[p]);
    ClientsKeep(w.clients, w.history, w.published, w.tokens, w.db.sessions, RunMaintenance(w.db, w.notes[p]).sessions);
  }

  lemma {:induction false} LossStepKeeps(w: World, lost: set<Pos>)
    requires Inv(w)
    ensures Inv(Next(w, LoseJournalRows(lost)))
  {
    FewerRowsKeep(w.db.journal, w.db.journal.(rows := w.db.journal.rows - lost), w.history);
  }

  lemma {:induction false} TickStepKeeps(w: World, seconds: nat)
    requires Inv(w)
    ensures Inv(Next(w, Tick(seconds)))
  {
    FewerSessionsKeep(w.db.sessions, w.db.sessions, w.tokens, w.history, w.published, w.db.generations,
                      w.db.now, w.db.now + seconds);
  }

  lemma {:induction false} DeployKeeps(w: World, schema: nat)
    requires Inv(w)
    ensures Inv(Deployed(w, schema))
  {
  }

  lemma {:induction false} NextKeeps(w: World, step: Step)
    requires Inv(w)
    ensures Inv(Next(w, step))
  {
    match step
    case Open(c, token, principal, minutes) => if token !in w.tokens { OpenKeeps(w, c, token, principal, minutes); }
    case Page(c, limit, delivered) => if c in w.clients && w.clients[c].Paging? { PagedKeeps(w, c, limit, delivered); }
    case PageAgain(token, principal, at, limit) => PageKeepsDb(w, token, principal, at, limit);
    case Release(token, principal) => ReleaseKeeps(w, token, principal);
    case Follow(c, limit) => if c in w.clients && w.clients[c].Following? { FollowKeeps(w, c, limit); }
    case Prune(active) => if active <= w.db.generation { PruneStepKeeps(w, active); }
    case ReadMaintenance(p) =>
    case Maintain(p) => if p in w.notes { MaintainStepKeeps(w, p); }
    case LoseJournalRows(lost) => LossStepKeeps(w, lost);
    case Tick(seconds) => TickStepKeeps(w, seconds);
    case Deploy(schema) => DeployKeeps(w, schema);
    case _ => PublisherStepKeeps(w, step);
  }

  lemma {:induction false} InitHolds(epoch: Epoch)
    ensures Inv(Init(epoch))
  {
  }

  // The invariant holds in every state of every run.
  lemma {:induction false} EveryRunKeeps(epoch: Epoch, steps: seq<Step>)
    ensures Inv(Exec(Init(epoch), steps))
    decreases |steps|
  {
    if steps == [] {
      InitHolds(epoch);
    } else {
      EveryRunKeeps(epoch, steps[..|steps| - 1]);
      NextKeeps(Exec(Init(epoch), steps[..|steps| - 1]), steps[|steps| - 1]);
    }
  }
}
