// The catalogue tables and the transactions that change them.

module CatalogStore {
  import opened Prelude
  import opened ChangeJournal
  import opened CatalogTypes
  import opened CatalogDiff
  import opened CatalogBootstrap

  const CATALOG_FINGERPRINT_SCHEMA_VERSION := 2
  const MAX_ACTIVE_SESSIONS := 4

  type Token = nat
  type Principal = nat

  datatype Session = Session(principal: Principal, pinned: nat, epoch: Epoch, head: nat, expires: nat, completed: bool)

  // One source's catalogue: its state row, generation rows, journal, bootstrap sessions and clock.
  datatype Db = Db(generation: nat, schema: nat, journal: Journal<Event>,
                   generations: map<nat, Rows>, sessions: map<Token, Session>, now: nat)

  predicate Live(s: Session, now: nat) {
    s.expires > now && !s.completed
  }

  function Published(db: Db): Rows {
    if db.generation in db.generations then db.generations[db.generation] else map[]
  }

  // ---------------------------------------------------------------- publication

  // One normalized provider catalogue.
  datatype Snapshot = Snapshot(libraries: seq<Row>, artists: seq<Row>, albums: seq<Row>, tracks: seq<Row>)

  function RowsFor(s: Snapshot, e: Entity): seq<Row> {
    match e
    case Library => s.libraries
    case Artist => s.artists
    case Album => s.albums
    case Track => s.tracks
  }

  predicate UniqueIds(rows: seq<Row>) {
    forall i, j :: 0 <= i < j < |rows| ==> rows[i].id != rows[j].id
  }

  // No insert meets a primary key twice.
  predicate Insertable(s: Snapshot) {
    forall e :: UniqueIds(RowsFor(s, e))
  }

  lemma InsertableByTable(s: Snapshot)
    ensures Insertable(s)
        <==> UniqueIds(s.libraries) && UniqueIds(s.artists) && UniqueIds(s.albums) && UniqueIds(s.tracks)
  {
    assert RowsFor(s, Library) == s.libraries && RowsFor(s, Artist) == s.artists;
    assert RowsFor(s, Album) == s.albums && RowsFor(s, Track) == s.tracks;
  }

  // One entity's rows by primary key; a repeated ID keeps the last row, as a dict does.
  function TableOf(e: Entity, rows: seq<Row>): Rows {
    if rows == [] then map[]
    else TableOf(e, rows[..|rows| - 1])[Key(e, rows[|rows| - 1].id) := rows[|rows| - 1]]
  }

  function SnapshotRows(s: Snapshot): Rows {
    TableOf(Library, s.libraries) + TableOf(Artist, s.artists) + TableOf(Album, s.albums) + TableOf(Track, s.tracks)
  }

  function SnapshotSize(s: Snapshot): nat {
    |s.libraries| + |s.artists| + |s.albums| + |s.tracks|
  }

  lemma {:induction false} TableKeys(e: Entity, rows: seq<Row>)
    ensures forall k :: k in TableOf(e, rows) ==> k.entity == e && exists i :: 0 <= i < |rows| && rows[i].id == k.id
    ensures forall i :: 0 <= i < |rows| ==> Key(e, rows[i].id) in TableOf(e, rows)
    decreases |rows|
  {
    if rows != [] {
      var init := rows[..|rows| - 1];
      TableKeys(e, init);
      forall k | k in TableOf(e, rows) ensures exists i :: 0 <= i < |rows| && rows[i].id == k.id {
        if k in TableOf(e, init) {
          var i :| 0 <= i < |init| && init[i].id == k.id;
          assert rows[i].id == k.id;
        } else {
          assert rows[|rows| - 1].id == k.id;
        }
      }
      forall i | 0 <= i < |rows| ensures Key(e, rows[i].id) in TableOf(e, rows) {
        if i < |init| { assert init[i] == rows[i]; }
      }
    }
  }

  lemma UniquePrefix(rows: seq<Row>, n: nat)
    requires n <= |rows|
    ensures UniqueIds(rows) ==> UniqueIds(rows[..n])
  {
  }

  lemma {:induction false} UniqueSnoc(e: Entity, rows: seq<Row>, i: nat)
    requires i < |rows|
    ensures UniqueIds(rows[..i + 1]) <==> UniqueIds(rows[..i]) && Key(e, rows[i].id) !in TableOf(e, rows[..i])
    ensures TableOf(e, rows[..i + 1]) == TableOf(e, rows[..i])[Key(e, rows[i].id) := rows[i]]
  {
    TableKeys(e, rows[..i]);
    assert rows[..i + 1][..i] == rows[..i];
    assert forall j :: 0 <= j < i ==> rows[..i][j] == rows[j] == rows[..i + 1][j];
  }

  // Without repeated IDs every row of the snapshot is stored.
  lemma {:induction false} TableKeepsRows(e: Entity, rows: seq<Row>, i: nat)
    requires UniqueIds(rows) && i < |rows|
    ensures Key(e, rows[i].id) in TableOf(e, rows) && TableOf(e, rows)[Key(e, rows[i].id)] == rows[i]
    decreases |rows|
  {
    var init := rows[..|rows| - 1];
    if i < |init| {
      assert UniqueIds(init);
      TableKeepsRows(e, init, i);
      assert init[i] == rows[i];
    }
  }

  lemma {:induction false} TableEntity(e: Entity, rows: seq<Row>)
    ensures forall k :: k in TableOf(e, rows) ==> k.entity == e
  {
    TableKeys(e, rows);
  }

  // An entity's part of the snapshot is that entity's own rows.
  lemma {:induction false} SnapshotEntity(s: Snapshot, e: Entity)
    ensures forall k: Key :: k.entity == e ==>
      (k in SnapshotRows(s) <==> k in TableOf(e, RowsFor(s, e))) &&
      (k in SnapshotRows(s) ==> SnapshotRows(s)[k] == TableOf(e, RowsFor(s, e))[k])
    ensures forall k :: k in TableOf(e, RowsFor(s, e)) ==> k.entity == e
  {
    TableEntity(Library, s.libraries);
    TableEntity(Artist, s.artists);
    TableEntity(Album, s.albums);
    TableEntity(Track, s.tracks);
  }

  // The keys of the first entities.
  ghost function UpTo(ks: set<Key>, count: nat): set<Key> {
    set k | k in ks && Rank(k.entity) < count
  }

  lemma UpToNext(ks: set<Key>, i: nat)
    requires i < |ENTITY_ORDER|
    ensures UpTo(ks, i + 1) == UpTo(ks, i) + set k | k in ks && k.entity == ENTITY_ORDER[i]
    ensures i + 1 == |ENTITY_ORDER| ==> UpTo(ks, i + 1) == ks
  {
    assert Rank(ENTITY_ORDER[i]) == i;
  }

  // Diffing entity by entity finds what one diff of the whole snapshot finds.
  lemma {:induction false} DiffOfEntity(prior: View, s: Snapshot, e: Entity)
    ensures Changed(prior, TableOf(e, RowsFor(s, e))) == set k | k in Changed(prior, SnapshotRows(s)) && k.entity == e
    ensures (set k | k in prior.Keys && k.entity == e && k !in TableOf(e, RowsFor(s, e)))
         == set k | k in Removed(prior, SnapshotRows(s)) && k.entity == e
  {
    SnapshotEntity(s, e);
  }

  // The publication base a publisher reads once it holds the publisher lock.
  datatype Base = Base(generation: nat, epoch: Epoch, head: nat, schema: nat)

  function BaseOf(db: Db): Base {
    Base(db.generation, db.journal.epoch, db.journal.head, db.schema)
  }

  datatype RefreshError = EmptyCatalogue | DuplicateRow | PublicationMoved

  // What a publisher has decided, written but not committed.
  datatype Plan =
    | NoChange(base: Base)
    | Write(base: Base, rows: Rows, size: nat, events: seq<Event>, rebase: bool)

  function PlanRefresh(base: Base, prior: View, s: Snapshot): Result<Plan, RefreshError> {
    var rebase := base.generation > 0 && base.schema != CATALOG_FINGERPRINT_SCHEMA_VERSION;
    var events := if rebase then [] else DiffEvents(base.generation + 1, prior, SnapshotRows(s));
    if s.tracks == [] then Err(EmptyCatalogue)
    else if !rebase && events == [] && base.generation > 0 then Ok(NoChange(base))
    else if !Insertable(s) then Err(DuplicateRow)
    else Ok(Write(base, SnapshotRows(s), SnapshotSize(s), events, rebase))
  }

  // The row a snapshot gives a key: the last of its entity with that ID.
  ghost predicate GivenBy(rows: seq<Row>, i: nat, id: nat) {
    i < |rows| && rows[i].id == id && forall j :: i < j < |rows| ==> rows[j].id != id
  }

  lemma {:induction false} TableExactly(e: Entity, rows: seq<Row>, k: Key)
    ensures k in TableOf(e, rows) <==> k.entity == e && exists i: nat :: GivenBy(rows, i, k.id)
    ensures forall i: nat :: GivenBy(rows, i, k.id) && k.entity == e ==> k in TableOf(e, rows) && TableOf(e, rows)[k] == rows[i]
    decreases |rows|
  {
    if rows != [] {
      var n := |rows| - 1;
      var init := rows[..n];
      TableExactly(e, init, k);
      assert forall i :: 0 <= i < n ==> init[i] == rows[i];
      if rows[n].id == k.id {
        assert GivenBy(rows, n, k.id);
      } else {
        forall i: nat ensures GivenBy(rows, i, k.id) <==> GivenBy(init, i, k.id) {
        }
      }
    }
  }

  lemma {:induction false} SnapshotExactly(s: Snapshot, k: Key)
    ensures k in SnapshotRows(s) <==> exists i: nat :: GivenBy(RowsFor(s, k.entity), i, k.id)
    ensures forall i: nat :: GivenBy(RowsFor(s, k.entity), i, k.id) ==>
      k in SnapshotRows(s) && SnapshotRows(s)[k] == RowsFor(s, k.entity)[i]
  {
    SnapshotEntity(s, k.entity);
    TableExactly(k.entity, RowsFor(s, k.entity), k);
  }

  // Every event carries the generation it is published with, and the row as it is stored there.
  predicate Carries(e: Event, generation: nat, rows: Rows) {
    e.generation == generation && e.operation == if e.key in rows then Upsert(rows[e.key]) else Delete
  }

  lemma DiffCarries(generation: nat, prior: View, rows: Rows)
    ensures forall e :: e in DiffEvents(generation, prior, rows) ==> Carries(e, generation, rows)
  {
    hide DiffKeys;
  }

  // What a refresh decides, on the fields of the rows: it refuses an empty catalogue; it rebases
  // what another schema fingerprinted; otherwise it finds nothing to do exactly when no row was
  // added or removed or differs from the stored one; and it cannot write an ID twice.
  lemma {:induction false} RefreshDecides(base: Base, stored: Rows, s: Snapshot)
    ensures var r := PlanRefresh(base, ViewOf(stored), s);
      var rebases := base.generation > 0 && base.schema != CATALOG_FINGERPRINT_SCHEMA_VERSION;
      var same := base.generation > 0 && !rebases && SameCatalogue(stored, SnapshotRows(s));
      && (r == Err(EmptyCatalogue) <==> s.tracks == [])
      && (r == Ok(NoChange(base)) <==> s.tracks != [] && same)
      && (r == Err(DuplicateRow) <==> s.tracks != [] && !same && !Insertable(s))
      && (r.Ok? && r.value.Write? <==> s.tracks != [] && !same && Insertable(s))
      && (r.Ok? && r.value.Write? ==>
            r.value.base == base && r.value.rows == SnapshotRows(s) && (r.value.rebase <==> rebases)
            && r.value.size == |s.libraries| + |s.artists| + |s.albums| + |s.tracks|
            && (rebases ==> r.value.events == []))
      && (r.Ok? && r.value.Write? ==>
            forall e :: e in r.value.events ==> Carries(e, base.generation + 1, SnapshotRows(s)))
  {
    DiffCarries(base.generation + 1, ViewOf(stored), SnapshotRows(s));
    hide DiffEvents, SnapshotRows, Insertable, ViewOf, SameCatalogue;
    DiffEmptyWhenUnchanged(base.generation + 1, ViewOf(stored), SnapshotRows(s));
    ViewsTell(stored, SnapshotRows(s));
  }

  function CompletedAll(sessions: map<Token, Session>): map<Token, Session> {
    map t | t in sessions :: sessions[t].(completed := true)
  }

  function PublicationCompaction(j: Journal<Event>, size: nat, rebase: bool): Compaction {
    Compaction(j.epoch, j.head, RetentionLimit(size), rebase, None, None, None)
  }

  // A rebase starts an empty journal; any publication compacts what it leaves.
  function JournalAfter(j: Journal<Event>, plan: Plan, newEpoch: Epoch): Journal<Event>
    requires plan.Write?
  {
    var k := if plan.rebase then Journal(newEpoch, 0, 0, map[]) else Appended(j, plan.events);
    Compacted(k, PublicationCompaction(k, plan.size, plan.rebase))
  }

  // The transaction that publishes a plan. newEpoch names the epoch a rebase starts.
  function CommitRefresh(db: Db, plan: Plan, newEpoch: Epoch): Result<Db, RefreshError> {
    if BaseOf(db) != plan.base then Err(PublicationMoved)
    else
      match plan
      case NoChange(_) => Ok(db.(schema := CATALOG_FINGERPRINT_SCHEMA_VERSION))
      case Write(base, rows, size, events, rebase) =>
        if base.generation + 1 in db.generations then Err(DuplicateRow)
        else
          Ok(Db(
            base.generation + 1, CATALOG_FINGERPRINT_SCHEMA_VERSION,
            JournalAfter(db.journal, plan, newEpoch),
            db.generations[base.generation + 1 := rows],
            if rebase then CompletedAll(db.sessions) else db.sessions,
            db.now))
  }

  // ---------------------------------------------------------------- pruning and leases

  predicate Pinned(db: Db, generation: nat) {
    exists t :: t in db.sessions && db.sessions[t].pinned == generation && Live(db.sessions[t], db.now)
  }

  function OpenSessions(db: Db): map<Token, Session> {
    map t | t in db.sessions && Live(db.sessions[t], db.now) :: db.sessions[t]
  }

  function PruneGenerations(db: Db, active: nat): Db {
    if active == 0 then db
    else db.(
      sessions := OpenSessions(db),
      generations := map g | g in db.generations && (g >= active || Pinned(db, g)) :: db.generations[g])
  }

  lemma PinnedByOpenSession(db: Db, g: nat)
    ensures Pinned(db, g) <==> exists t :: t in OpenSessions(db) && OpenSessions(db)[t].pinned == g
  {
    if Pinned(db, g) {
      var t :| t in db.sessions && db.sessions[t].pinned == g && Live(db.sessions[t], db.now);
      assert t in OpenSessions(db);
    }
  }

  datatype SessionError = NotReady | TooManySessions | SessionRequired | TokenTaken

  function ActiveOf(db: Db, principal: Principal): set<Token> {
    set t | t in db.sessions && Live(db.sessions[t], db.now) && db.sessions[t].principal == principal
  }

  function Lifetime(minutes: int): nat {
    Clamp(5, minutes, 60) * 60
  }

  // Creates a lease on the published generation, under the state row lock.
  function OpenSession(db: Db, token: Token, principal: Principal, minutes: int): Result<Db, SessionError> {
    if db.generation == 0 then Err(NotReady)
    else if |ActiveOf(db, principal)| >= MAX_ACTIVE_SESSIONS then Err(TooManySessions)
    else if token in OpenSessions(db) then Err(TokenTaken)
    else Ok(db.(sessions := OpenSessions(db)[token :=
      Session(principal, db.generation, db.journal.epoch, db.journal.head, db.now + Lifetime(minutes), false)]))
  }

  // One bootstrap page; the last page completes the session.
  function BootstrapPage(db: Db, token: Token, principal: Principal, at: Position, limit: int)
    : Result<(PageOf, Db), SessionError>
  {
    if token !in db.sessions || db.sessions[token].principal != principal || !Live(db.sessions[token], db.now)
    then Err(SessionRequired)
    else
      var session := db.sessions[token];
      var rows := if session.pinned in db.generations then db.generations[session.pinned] else map[];
      var page := ReadPage(rows, at, limit);
      Ok((page,
          if page.next.Some? then db else db.(sessions := db.sessions[token := session.(completed := true)])))
  }

  function ReleaseSession(db: Db, token: Token, principal: Principal): Db {
    if token in db.sessions && db.sessions[token].principal == principal && !db.sessions[token].completed
    then db.(sessions := db.sessions[token := db.sessions[token].(completed := true)])
    else db
  }

  // Install-time maintenance, with the state it read before (without a lock).
  datatype Maintenance = Maintenance(generation: nat, epoch: Epoch, head: nat, entities: nat)

  function MaintenanceCompaction(m: Maintenance): Compaction {
    Compaction(m.epoch, m.head, RetentionLimit(m.entities), true, None, None, None)
  }

  function RunMaintenance(db: Db, m: Maintenance): Db {
    var pruned := PruneGenerations(db, m.generation);
    pruned.(journal := Compacted(pruned.journal, MaintenanceCompaction(m)))
  }

  // ---------------------------------------------------------------- the tables in place

  class Catalog {
    var generation: nat
    var schema: nat
    const journal: JournalStore<Event>
    var generations: map<nat, Rows>
    var sessions: map<Token, Session>
    var now: nat

    ghost function State(): (db: Db)
      reads this, journal
      ensures db == Db(generation, schema, journal.State(), generations, sessions, now)
    {
      Db(generation, schema, journal.State(), generations, sessions, now)
    }

    constructor (epoch: Epoch)
      ensures State() == Db(0, CATALOG_FINGERPRINT_SCHEMA_VERSION, Journal(epoch, 0, 0, map[]), map[], map[], 0)
      ensures fresh(journal)
    {
      var store := new JournalStore<Event>(epoch);
      journal := store;
      generation, schema, now := 0, CATALOG_FINGERPRINT_SCHEMA_VERSION, 0;
      generations, sessions := map[], map[];
    }

    // The rows of one entity by their key; of rows with one ID the last is kept.
    static method IndexRows(e: Entity, rows: seq<Row>) returns (current: Rows)
      ensures current == TableOf(e, rows)
    {
      current := map[];
      for i := 0 to |rows|
        invariant current == TableOf(e, rows[..i])
      {
        current := current[Key(e, rows[i].id) := rows[i]];
        assert rows[..i + 1][..i] == rows[..i];
      }
      assert rows[..|rows|] == rows;
    }

    // One entity's changed rows, compared by fingerprint with the published ones.
    static method ChangedRows(prior: View, current: Rows) returns (changed: set<Key>)
      ensures changed == Changed(prior, current)
    {
      changed := {};
      var todo := current.Keys;
      while todo != {}
        invariant todo <= current.Keys
        invariant changed == Changed(prior, current) - todo
        decreases |todo|
      {
        var k :| k in todo;
        if k !in prior || prior[k] != RowFingerprints(k.entity, current[k]) {
          changed := changed + {k};
        }
        todo := todo - {k};
      }
    }

    // Inserts one entity's rows into a generation; false when a primary key is taken.
    static method InsertRows(e: Entity, rows: seq<Row>, into: Rows) returns (ok: bool, table: Rows)
      requires forall k :: k in into ==> k.entity != e
      ensures ok <==> UniqueIds(rows)
      ensures ok ==> table == into + TableOf(e, rows)
      ensures ok ==> forall i :: 0 <= i < |rows| ==> Key(e, rows[i].id) in table && table[Key(e, rows[i].id)] == rows[i]
    {
      table := into;
      ok := true;
      for i := 0 to |rows|
        invariant ok && UniqueIds(rows[..i])
        invariant table == into + TableOf(e, rows[..i])
      {
        UniqueSnoc(e, rows, i);
        if Key(e, rows[i].id) in table {
          UniquePrefix(rows, i + 1);
          return false, table;
        }
        table := table[Key(e, rows[i].id) := rows[i]];
      }
      assert rows[..|rows|] == rows;
      forall i | 0 <= i < |rows| ensures Key(e, rows[i].id) in table && table[Key(e, rows[i].id)] == rows[i] {
        TableKeepsRows(e, rows, i);
      }
    }

    // The publisher's work before it locks the state row: the diff and the new rows.
    static method Build(base: Base, prior: View, s: Snapshot) returns (r: Result<Plan, RefreshError>)
      ensures r == PlanRefresh(base, prior, s)
    {
      hide Changed, Removed, Listing, TableOf, SnapshotRows, EventsFor, Insertable;
      if s.tracks == [] {
        return Err(EmptyCatalogue);
      }
      var rebase := base.generation > 0 && base.schema != CATALOG_FINGERPRINT_SCHEMA_VERSION;
      var rows := SnapshotRows(s);
      var events: seq<Event> := [];
      if !rebase {
        var upserts, deletes := DiffEntities(prior, s);
        events := EventsFor(base.generation + 1, rows, Listing(false, upserts) + Listing(true, deletes));
      }
      if !rebase && events == [] && base.generation > 0 {
        return Ok(NoChange(base));
      }
      var ok, table := InsertGeneration(s);
      if !ok {
        return Err(DuplicateRow);
      }
      return Ok(Write(base, table, SnapshotSize(s), events, rebase));
    }

    // The diff, entity by entity.
    static method DiffEntities(prior: View, s: Snapshot) returns (upserts: set<Key>, deletes: set<Key>)
      ensures upserts == Changed(prior, SnapshotRows(s))
      ensures deletes == Removed(prior, SnapshotRows(s))
    {
      upserts, deletes := {}, {};
      ghost var rows := SnapshotRows(s);
      for i := 0 to |ENTITY_ORDER|
        invariant upserts == UpTo(Changed(prior, rows), i)
        invariant deletes == UpTo(Removed(prior, rows), i)
      {
        var e := ENTITY_ORDER[i];
        var current := IndexRows(e, RowsFor(s, e));
        var changed := ChangedRows(prior, current);
        var gone := set k | k in prior.Keys && k.entity == e && k !in current;
        DiffOfEntity(prior, s, e);
        UpToNext(Changed(prior, rows), i);
        UpToNext(Removed(prior, rows), i);
        upserts, deletes := upserts + changed, deletes + gone;
      }
    }

    static method InsertGeneration(s: Snapshot) returns (ok: bool, table: Rows)
      ensures ok <==> Insertable(s)
      ensures ok ==> table == SnapshotRows(s)
    {
      TableEntity(Library, s.libraries);
      TableEntity(Artist, s.artists);
      TableEntity(Album, s.albums);
      InsertableByTable(s);
      ok, table := InsertRows(Library, s.libraries, map[]);
      if !ok { return; }
      assert table == TableOf(Library, s.libraries);
      ok, table := InsertRows(Artist, s.artists, table);
      if !ok { return; }
      ok, table := InsertRows(Album, s.albums, table);
      if !ok { return; }
      ok, table := InsertRows(Track, s.tracks, table);
    }

    // The publishing transaction: re-checks the base under the row lock, then writes.
    method Commit(plan: Plan, newEpoch: Epoch) returns (r: Result<(), RefreshError>)
      modifies this, journal
      ensures match CommitRefresh(old(State()), plan, newEpoch)
              case Ok(db) => r == Ok(()) && State() == db
              case Err(e) => r == Err(e) && State() == old(State())
    {
      if Base(generation, journal.epoch, journal.head, schema) != plan.base {
        return Err(PublicationMoved);
      }
      if plan.NoChange? {
        schema := CATALOG_FINGERPRINT_SCHEMA_VERSION;
        return Ok(());
      }
      if generation + 1 in generations {
        return Err(DuplicateRow);
      }
      generations := generations[generation + 1 := plan.rows];
      if plan.rebase {
        journal.Rotate(newEpoch);
        sessions := CompletedAll(sessions);
      } else {
        journal.Append(plan.events);
      }
      generation, schema := generation + 1, CATALOG_FINGERPRINT_SCHEMA_VERSION;
      var target := journal.Compact(
        Compaction(journal.epoch, journal.head, RetentionLimit(plan.size), plan.rebase, None, None, None));
      return Ok(());
    }

    // Storage work after a publication: drops generations no live session pins.
    method Prune(active: nat)
      modifies this`generations, this`sessions
      ensures State() == PruneGenerations(old(State()), active)
    {
      if active > 0 {
        ghost var before := State();
        sessions := map t | t in sessions && Live(sessions[t], now) :: sessions[t];
        var kept: map<nat, Rows> := map[];
        var todo := generations.Keys;
        while todo != {}
          invariant todo <= generations.Keys && generations == before.generations
          invariant sessions == OpenSessions(before)
          invariant kept == map g | g in before.generations && g !in todo && (g >= active || Pinned(before, g))
                            :: before.generations[g]
          decreases |todo|
        {
          var g :| g in todo;
          PinnedByOpenSession(before, g);
          if g >= active || exists t :: t in sessions && sessions[t].pinned == g {
            kept := kept[g := generations[g]];
          }
          todo := todo - {g};
        }
        generations := kept;
        assert kept == PruneGenerations(before, active).generations;
      }
    }

    method Open(token: Token, principal: Principal, minutes: int) returns (r: Result<(), SessionError>)
      modifies this`sessions
      ensures match OpenSession(old(State()), token, principal, minutes)
              case Ok(db) => r == Ok(()) && State() == db
              case Err(e) => r == Err(e) && State() == old(State())
    {
      if generation == 0 {
        return Err(NotReady);
      }
      var open := map t | t in sessions && Live(sessions[t], now) :: sessions[t];
      var mine := set t | t in open && open[t].principal == principal;
      assert mine == ActiveOf(State(), principal);
      if |mine| >= MAX_ACTIVE_SESSIONS {
        return Err(TooManySessions);
      }
      if token in open {
        return Err(TokenTaken);
      }
      sessions := open[token := Session(principal, generation, journal.epoch, journal.head, now + Lifetime(minutes), false)];
      return Ok(());
    }

    method Page(token: Token, principal: Principal, at: Position, limit: int) returns (r: Result<PageOf, SessionError>)
      modifies this`sessions
      ensures match BootstrapPage(old(State()), token, principal, at, limit)
              case Ok((page, db)) => r == Ok(page) && State() == db
              case Err(e) => r == Err(e) && State() == old(State())
    {
      if token !in sessions || sessions[token].principal != principal || !Live(sessions[token], now) {
        return Err(SessionRequired);
      }
      var session := sessions[token];
      var rows := if session.pinned in generations then generations[session.pinned] else map[];
      var page := ReadPage(rows, at, limit);
      if page.next.None? {
        sessions := sessions[token := session.(completed := true)];
      }
      return Ok(page);
    }

    method Release(token: Token, principal: Principal)
      modifies this`sessions
      ensures State() == ReleaseSession(old(State()), token, principal)
    {
      if token in sessions && sessions[token].principal == principal && !sessions[token].completed {
        sessions := sessions[token := sessions[token].(completed := true)];
      }
    }

    method Maintain(m: Maintenance)
      modifies this, journal
      ensures State() == RunMaintenance(old(State()), m)
    {
      Prune(m.generation);
      var target := journal.Compact(MaintenanceCompaction(m));
    }
  }
}
