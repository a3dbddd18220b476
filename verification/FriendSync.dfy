// Durable synchronization with a friend's server: the connection row, the worker that claims it,
// and the token that fences what the worker may still write.

module FriendSync {
  import opened Prelude

  type Id = nat
  type Owner = nat
  type Url = nat
  type Access = nat
  type Token = nat
  type Name = nat

  const MAX_ATTEMPTS := 5
  const MAX_CANDIDATES := 32
  const RETRY_SECONDS: nat := 300

  datatype Status = Idle | Pending | Running | Failed | Complete

  datatype Conn = Conn(owner: Owner, url: Url, access: Access, token: Option<Token>, status: Status,
                       retry: Option<nat>, attempts: nat)

  // The rows cached for one connection: what was fetched, and with which access token.
  datatype Cached = Cached(albums: seq<nat>, access: Access)

  // The two tables. Tokens are random; next stands for the first one never drawn.
  datatype Db = Db(conns: map<Id, Conn>, cached: map<Id, Cached>, next: Token, nextId: Id)

  predicate Holds(db: Db, id: Id, owner: Owner, token: Token) {
    id in db.conns && db.conns[id].owner == owner && db.conns[id].token == Some(token)
  }

  // ---------------------------------------------------------------- the statements

  function RequestSync(db: Db, id: Id, owner: Owner): Db {
    if id in db.conns && db.conns[id].owner == owner && db.conns[id].status != Pending && db.conns[id].status != Running
    then db.(conns := db.conns[id := db.conns[id].(status := Pending, token := Some(db.next), retry := None, attempts := 0)],
             next := db.next + 1)
    else db.(next := db.next + 1)
  }

  predicate Claimable(c: Conn, now: nat) {
    c.status == Pending || c.status == Running
    || (c.status == Failed && c.retry.Some? && c.retry.value <= now && c.attempts < MAX_ATTEMPTS)
  }

  function Claim(db: Db, id: Id, now: nat): Db {
    if id in db.conns && Claimable(db.conns[id], now)
    then
      var c := db.conns[id];
      db.(conns := db.conns[id := c.(token := Some(db.next), status := Running, attempts := c.attempts + 1)],
          next := db.next + 1)
    else db.(next := db.next + 1)
  }

  predicate IsRunning(db: Db, id: Id, owner: Owner, token: Token) {
    Holds(db, id, owner, token) && db.conns[id].status == Running
  }

  // The publication: recheck under the row lock, replace the rows, complete the connection.
  function Publish(db: Db, id: Id, owner: Owner, token: Token, fetched: Cached): Db {
    if IsRunning(db, id, owner, token)
    then db.(cached := db.cached[id := fetched],
             conns := db.conns[id := db.conns[id].(status := Complete, retry := None)])
    else db
  }

  function RecordFailure(db: Db, id: Id, owner: Owner, token: Token, now: nat): Db {
    if Holds(db, id, owner, token)
    then db.(conns := db.conns[id := db.conns[id].(status := Failed, retry := Some(now + RETRY_SECONDS))])
    else db
  }

  predicate IsAt(c: Conn, owner: Owner, url: Url) { c.owner == owner && c.url == url }

  // Connecting again to the same address replaces the access token and forgets any claim.
  function Connect(db: Db, owner: Owner, url: Url, access: Access): Db {
    db.(conns := (map id | id in db.conns :: if IsAt(db.conns[id], owner, url)
          then db.conns[id].(access := access, status := Idle, token := None) else db.conns[id])
          + (if exists id :: id in db.conns && IsAt(db.conns[id], owner, url) then map[]
             else map[db.nextId := Conn(owner, url, access, None, Idle, None, 0)]),
        nextId := db.nextId + 1)
  }

  function Delete(db: Db, id: Id, owner: Owner): Db {
    if id in db.conns && db.conns[id].owner == owner
    then db.(conns := db.conns - {id}, cached := db.cached - {id})
    else db
  }

  // ---------------------------------------------------------------- workers

  datatype Stage =
    | Locked(id: Id)
    | Claimed(id: Id, owner: Owner, token: Token)
    | Fetching(id: Id, owner: Owner, token: Token, access: Access)
    | Failing(id: Id, owner: Owner, token: Token)

  // locks maps a connection to the worker whose session holds its advisory lock.
  datatype World = World(db: Db, workers: map<Name, Stage>, locks: map<Id, Name>, now: nat)

  datatype Step =
    | Wait(seconds: nat)
    | UserConnect(owner: Owner, url: Url, access: Access)
    | UserRequest(id: Id, owner: Owner)
    | UserDelete(id: Id, owner: Owner)
    | TryLock(w: Name, id: Id)
    | TakeClaim(w: Name)
    | BeginFetch(w: Name)
    | FetchFails(w: Name)
    | FinishFetch(w: Name, albums: seq<nat>)
    | StoreFailure(w: Name)
    | LoseLock(id: Id)
    | Crash(w: Name)

  function Init(): World { World(Db(map[], map[], 0, 0), map[], map[], 0) }

  function Unlocked(locks: map<Id, Name>, w: Name): map<Id, Name> {
    map id | id in locks && locks[id] != w :: locks[id]
  }

  function Gone(w: World, name: Name): World {
    w.(workers := w.workers - {name}, locks := Unlocked(w.locks, name))
  }

  function Next(w: World, step: Step): World {
    match step
    case Wait(seconds) => w.(now := w.now + seconds)
    case UserConnect(owner, url, access) => w.(db := Connect(w.db, owner, url, access))
    case UserRequest(id, owner) => w.(db := RequestSync(w.db, id, owner))
    case UserDelete(id, owner) => w.(db := Delete(w.db, id, owner))
    case TryLock(n, id) =>
      if n in w.workers || id in w.locks then w
      else w.(workers := w.workers[n := Locked(id)], locks := w.locks[id := n])
    case TakeClaim(n) =>
      if n !in w.workers || !w.workers[n].Locked? then w
      else
        var id := w.workers[n].id;
        var db := Claim(w.db, id, w.now);
        if id in w.db.conns && Claimable(w.db.conns[id], w.now)
        then w.(db := db, workers := w.workers[n := Claimed(id, w.db.conns[id].owner, w.db.next)])
        else Gone(w.(db := db), n)
    case BeginFetch(n) =>
      if n !in w.workers || !w.workers[n].Claimed? then w
      else
        var s := w.workers[n];
        if IsRunning(w.db, s.id, s.owner, s.token)
        then w.(workers := w.workers[n := Fetching(s.id, s.owner, s.token, w.db.conns[s.id].access)])
        else w.(workers := w.workers[n := Failing(s.id, s.owner, s.token)])
    case FetchFails(n) =>
      if n !in w.workers || !w.workers[n].Fetching? then w
      else
        var s := w.workers[n];
        w.(workers := w.workers[n := Failing(s.id, s.owner, s.token)])
    case FinishFetch(n, albums) =>
      if n !in w.workers || !w.workers[n].Fetching? then w
      else
        var s := w.workers[n];
        if IsRunning(w.db, s.id, s.owner, s.token)
        then Gone(w.(db := Publish(w.db, s.id, s.owner, s.token, Cached(albums, s.access))), n)
        else w.(workers := w.workers[n := Failing(s.id, s.owner, s.token)])
    case StoreFailure(n) =>
      if n !in w.workers || !w.workers[n].Failing? then w
      else
        var s := w.workers[n];
        Gone(w.(db := RecordFailure(w.db, s.id, s.owner, s.token, w.now)), n)
    case LoseLock(id) => w.(locks := w.locks - {id})
    case Crash(n) => Gone(w, n)
  }

  function Exec(steps: seq<Step>): World {
    if steps == [] then Init() else Next(Exec(steps[..|steps| - 1]), steps[|steps| - 1])
  }

  // ---------------------------------------------------------------- invariants

  predicate HasToken(s: Stage) { !s.Locked? }

  // A worker whose token is still on the row finds the row as it claimed it.
  ghost predicate StageOk(db: Db, s: Stage) {
    HasToken(s) ==>
      && s.token < db.next
      && (Holds(db, s.id, s.owner, s.token) && !s.Failing? ==> db.conns[s.id].status == Running)
      && (s.Fetching? && Holds(db, s.id, s.owner, s.token) ==> db.conns[s.id].access == s.access)
  }

  ghost predicate Inv(w: World) {
    && (forall id :: id in w.db.conns ==>
          id < w.db.nextId && (w.db.conns[id].token.Some? ==> w.db.conns[id].token.value < w.db.next))
    && (forall n :: n in w.workers ==> StageOk(w.db, w.workers[n]))
    && (forall m, n :: m in w.workers && n in w.workers && m != n && HasToken(w.workers[m]) && HasToken(w.workers[n]) ==>
          w.workers[m].token != w.workers[n].token)
  }

  // A token that is not on the row now, and was drawn before, never gets there again.
  ghost predicate Fenced(db: Db, id: Id, token: Token) {
    token < db.next && (id in db.conns ==> db.conns[id].token != Some(token)) && id < db.nextId
  }

  lemma {:induction false} StageSame(before: Db, after: Db, s: Stage)
    requires StageOk(before, s) && before.next <= after.next
    requires HasToken(s) && Holds(after, s.id, s.owner, s.token) ==>
      s.id in before.conns && after.conns[s.id] == before.conns[s.id]
    ensures StageOk(after, s)
  {
  }

  // A step of the user or of a claim that replaces rows' tokens keeps what workers rely on.
  lemma {:induction false} DbChange(w: World, db: Db)
    requires Inv(w) && w.db.next <= db.next && w.db.nextId <= db.nextId
    requires forall id :: id in db.conns ==> id < db.nextId && (db.conns[id].token.Some? ==> db.conns[id].token.value < db.next)
    requires forall id :: id in db.conns && db.conns[id].token.Some? && db.conns[id].token.value < w.db.next ==>
      id in w.db.conns && db.conns[id] == w.db.conns[id]
    ensures Inv(w.(db := db))
  {
    forall n | n in w.workers ensures StageOk(db, w.workers[n]) {
      StageSame(w.db, db, w.workers[n]);
    }
  }

  lemma {:induction false} GoneKeeps(w: World, n: Name)
    requires Inv(w)
    ensures Inv(Gone(w, n))
  {
  }

  // A worker that still holds the row writes to it, and leaves.
  lemma {:induction false} OwnWrite(w: World, n: Name, conns: map<Id, Conn>, cached: map<Id, Cached>, c: Conn)
    requires Inv(w) && n in w.workers && HasToken(w.workers[n])
    requires var s := w.workers[n];
      Holds(w.db, s.id, s.owner, s.token) && c.token == Some(s.token) && conns == w.db.conns[s.id := c]
    ensures Inv(Gone(w.(db := w.db.(conns := conns, cached := cached)), n))
  {
    var s := w.workers[n];
    var db := w.db.(conns := conns, cached := cached);
    forall m | m in w.workers && m != n ensures StageOk(db, w.workers[m]) {
      assert StageOk(w.db, w.workers[m]);
      if HasToken(w.workers[m]) { assert w.workers[m].token != s.token; }
    }
  }

  lemma {:induction false} StageChange(w: World, n: Name, s: Stage)
    requires Inv(w) && n in w.workers && HasToken(w.workers[n]) && HasToken(s) && s.token == w.workers[n].token
    requires StageOk(w.db, s)
    ensures Inv(w.(workers := w.workers[n := s]))
  {
  }

  lemma {:induction false} ClaimKeeps(w: World, n: Name)
    requires Inv(w) && n in w.workers && w.workers[n].Locked?
    ensures Inv(Next(w, TakeClaim(n)))
  {
    var id := w.workers[n].id;
    var db := Claim(w.db, id, w.now);
    DbChange(w, db);
    if id in w.db.conns && Claimable(w.db.conns[id], w.now) {
      var s := Claimed(id, w.db.conns[id].owner, w.db.next);
      forall m | m in w.workers && HasToken(w.workers[m]) ensures w.workers[m].token < w.db.next {
        assert StageOk(w.db, w.workers[m]);
      }
    } else {
      GoneKeeps(w.(db := db), n);
    }
  }

  lemma {:induction false} NextKeeps(w: World, step: Step)
    requires Inv(w)
    ensures Inv(Next(w, step))
  {
    hide Inv;
    match step
    case Wait(seconds) => ClockIsFree(w, seconds);
    case UserConnect(owner, url, access) => ConnectKeeps(w, owner, url, access);
    case UserRequest(id, owner) => RequestKeeps(w, id, owner);
    case UserDelete(id, owner) => DeleteKeeps(w, id, owner);
    case TryLock(n, id) => if n !in w.workers && id !in w.locks { LockKeeps(w, n, id); }
    case TakeClaim(n) => if n in w.workers && w.workers[n].Locked? { ClaimKeeps(w, n); }
    case BeginFetch(n) => if n in w.workers && w.workers[n].Claimed? { BeginKeeps(w, n); }
    case FetchFails(n) => if n in w.workers && w.workers[n].Fetching? { FailKeeps(w, n); }
    case FinishFetch(n, albums) => if n in w.workers && w.workers[n].Fetching? { FinishKeeps(w, n, albums); }
    case StoreFailure(n) => if n in w.workers && w.workers[n].Failing? { FailureKeeps(w, n); }
    case LoseLock(id) => LocksAreFree(w, w.locks - {id});
    case Crash(n) => GoneKeeps(w, n);
  }

  lemma ClockIsFree(w: World, seconds: nat)
    requires Inv(w)
    ensures Inv(w.(now := w.now + seconds))
  {
  }

  lemma LocksAreFree(w: World, locks: map<Id, Name>)
    requires Inv(w)
    ensures Inv(w.(locks := locks))
  {
  }

  lemma {:induction false} ConnectKeeps(w: World, owner: Owner, url: Url, access: Access)
    requires Inv(w)
    ensures Inv(w.(db := Connect(w.db, owner, url, access)))
  {
    DbChange(w, Connect(w.db, owner, url, access));
  }

  lemma {:induction false} RequestKeeps(w: World, id: Id, owner: Owner)
    requires Inv(w)
    ensures Inv(w.(db := RequestSync(w.db, id, owner)))
  {
    DbChange(w, RequestSync(w.db, id, owner));
  }

  lemma {:induction false} DeleteKeeps(w: World, id: Id, owner: Owner)
    requires Inv(w)
    ensures Inv(w.(db := Delete(w.db, id, owner)))
  {
    DbChange(w, Delete(w.db, id, owner));
  }

  lemma {:induction false} LockKeeps(w: World, n: Name, id: Id)
    requires Inv(w) && n !in w.workers
    ensures Inv(w.(workers := w.workers[n := Locked(id)], locks := w.locks[id := n]))
  {
  }

  lemma {:induction false} BeginKeeps(w: World, n: Name)
    requires Inv(w) && n in w.workers && w.workers[n].Claimed?
    ensures Inv(Next(w, BeginFetch(n)))
  {
    var s := w.workers[n];
    StageChange(w, n, Next(w, BeginFetch(n)).workers[n]);
  }

  lemma {:induction false} FailKeeps(w: World, n: Name)
    requires Inv(w) && n in w.workers && w.workers[n].Fetching?
    ensures Inv(Next(w, FetchFails(n)))
  {
    StageChange(w, n, Next(w, FetchFails(n)).workers[n]);
  }

  lemma {:induction false} FinishKeeps(w: World, n: Name, albums: seq<nat>)
    requires Inv(w) && n in w.workers && w.workers[n].Fetching?
    ensures Inv(Next(w, FinishFetch(n, albums)))
  {
    var s := w.workers[n];
    if IsRunning(w.db, s.id, s.owner, s.token) {
      var db := Publish(w.db, s.id, s.owner, s.token, Cached(albums, s.access));
      OwnWrite(w, n, db.conns, db.cached, db.conns[s.id]);
    } else {
      StageChange(w, n, Failing(s.id, s.owner, s.token));
    }
  }

  lemma {:induction false} FailureKeeps(w: World, n: Name)
    requires Inv(w) && n in w.workers && w.workers[n].Failing?
    ensures Inv(Next(w, StoreFailure(n)))
  {
    var s := w.workers[n];
    if Holds(w.db, s.id, s.owner, s.token) {
      var db := RecordFailure(w.db, s.id, s.owner, s.token, w.now);
      OwnWrite(w, n, db.conns, db.cached, db.conns[s.id]);
    } else {
      GoneKeeps(w, n);
    }
  }

  lemma {:induction false} EveryRunKeeps(steps: seq<Step>)
    ensures Inv(Exec(steps))
    decreases |steps|
  {
    hide Next;
    if steps != [] {
      EveryRunKeeps(steps[..|steps| - 1]);
      NextKeeps(Exec(steps[..|steps| - 1]), steps[|steps| - 1]);
    }
  }

  // ---------------------------------------------------------------- what is published

  predicate SameRows(a: Db, b: Db, id: Id) {
    (id in a.cached <==> id in b.cached) && (id in a.cached ==> a.cached[id] == b.cached[id])
  }

  predicate Deleted(b: Db, step: Step, id: Id) {
    step.UserDelete? && step.id == id && id !in b.cached && id !in b.conns
  }

  predicate PublishedBy(w: World, v: World, step: Step, id: Id) {
    step.FinishFetch? && step.w in w.workers && w.workers[step.w].Fetching? && w.workers[step.w].id == id
    && var s := w.workers[step.w];
       IsRunning(w.db, id, s.owner, s.token)
       && v.db.cached == w.db.cached[id := Cached(step.albums, w.db.conns[id].access)]
       && v.db.conns == w.db.conns[id := w.db.conns[id].(status := Complete, retry := None)]
  }

  // Cached rows change in one step only when a worker publishes or the owner deletes. A worker
  // publishes only while its token is the one on the running row, and then stores, all at once,
  // what it fetched with the access token that is still on the row.
  lemma {:induction false} OnlyHoldersPublish(steps: seq<Step>, step: Step, id: Id)
    ensures var w := Exec(steps);
      var v := Next(w, step);
      SameRows(w.db, v.db, id) || Deleted(v.db, step, id) || PublishedBy(w, v, step, id)
  {
    EveryRunKeeps(steps);
    var w := Exec(steps);
    if step.FinishFetch? && step.w in w.workers && w.workers[step.w].Fetching? {
      assert StageOk(w.db, w.workers[step.w]);
    }
  }

  lemma {:induction false} NoOrphanedRows(steps: seq<Step>)
    ensures Exec(steps).db.cached.Keys <= Exec(steps).db.conns.Keys
    decreases |steps|
  {
    if steps != [] { NoOrphanedRows(steps[..|steps| - 1]); }
  }

  // ---------------------------------------------------------------- fencing

  lemma {:induction false} FencedStays(w: World, step: Step, id: Id, token: Token)
    requires Inv(w) && Fenced(w.db, id, token)
    ensures Fenced(Next(w, step).db, id, token)
  {
    hide Inv;
    match step
    case UserConnect(owner, url, access) => assert Fenced(Connect(w.db, owner, url, access), id, token);
    case _ =>
  }

  lemma {:induction false} FencedForever(steps: seq<Step>, more: seq<Step>, id: Id, token: Token)
    requires Fenced(Exec(steps).db, id, token)
    ensures Fenced(Exec(steps + more).db, id, token)
    decreases |more|
  {
    if more == [] {
      assert steps + more == steps;
    } else {
      var init := more[..|more| - 1];
      FencedForever(steps, init, id, token);
      assert (steps + more)[..|steps + more| - 1] == steps + init;
      EveryRunKeeps(steps + init);
      FencedStays(Exec(steps + init), more[|more| - 1], id, token);
    }
  }

  // What replaces a worker's claim: connecting again, deleting, or another claim.
  predicate Replaces(w: World, step: Step, n: Name) {
    n in w.workers && HasToken(w.workers[n]) && w.workers[n].id < w.db.nextId
    && var id := w.workers[n].id;
       match step
       case UserConnect(owner, url, _) => id in w.db.conns && IsAt(w.db.conns[id], owner, url)
       case UserDelete(gone, owner) => gone == id && (id in w.db.conns ==> w.db.conns[id].owner == owner)
       case TakeClaim(m) => m != n && m in w.workers && w.workers[m].Locked? && w.workers[m].id == id
                            && id in w.db.conns && Claimable(w.db.conns[id], w.now)
       case _ => false
  }

  lemma {:induction false} ReplacingFences(w: World, step: Step, n: Name)
    requires Inv(w) && Replaces(w, step, n)
    ensures Fenced(Next(w, step).db, w.workers[n].id, w.workers[n].token)
  {
    assert StageOk(w.db, w.workers[n]);
  }

  // Once a connection has been reconnected, deleted or claimed again, the old worker publishes
  // nothing and never overwrites the newer status, whatever happens in between.
  lemma {:induction false} ReplacedWorkerWritesNothing(steps: seq<Step>, step: Step, more: seq<Step>, n: Name, last: Step)
    requires Replaces(Exec(steps), step, n)
    requires var w := Exec(steps + [step] + more);
      n in w.workers && HasToken(w.workers[n])
      && w.workers[n].id == Exec(steps).workers[n].id && w.workers[n].token == Exec(steps).workers[n].token
    requires last == FetchFails(n) || last == StoreFailure(n) || last == BeginFetch(n) || (last.FinishFetch? && last.w == n)
    ensures Next(Exec(steps + [step] + more), last).db == Exec(steps + [step] + more).db
  {
    hide Inv;
    EveryRunKeeps(steps);
    assert (steps + [step])[..|steps|] == steps;
    ReplacingFences(Exec(steps), step, n);
    FencedForever(steps + [step], more, Exec(steps).workers[n].id, Exec(steps).workers[n].token);
  }

  // ---------------------------------------------------------------- what users and workers get

  // Connecting stores the access token: on the connection the owner has at that address, which
  // forgets its worker, or on a new one. Every other connection stays as it is.
  lemma {:induction false} ConnectStores(db: Db, owner: Owner, url: Url, access: Access, id: Id)
    requires db.nextId !in db.conns
    ensures var v := Connect(db, owner, url, access);
      var known := exists i :: i in db.conns && db.conns[i].owner == owner && db.conns[i].url == url;
      && v.cached == db.cached && v.next == db.next
      && (id in v.conns <==> id in db.conns || (!known && id == db.nextId))
      && (id in db.conns && db.conns[id].owner == owner && db.conns[id].url == url ==>
            && v.conns[id].access == access && v.conns[id].status == Idle && v.conns[id].token == None
            && v.conns[id].owner == owner && v.conns[id].url == url && v.conns[id].attempts == db.conns[id].attempts)
      && (id in db.conns && !(db.conns[id].owner == owner && db.conns[id].url == url) ==> v.conns[id] == db.conns[id])
      && (!known && id == db.nextId ==> v.conns[id] == Conn(owner, url, access, None, Idle, None, 0))
  {
    assert (exists i :: i in db.conns && db.conns[i].owner == owner && db.conns[i].url == url)
      <==> (exists i :: i in db.conns && IsAt(db.conns[i], owner, url));
  }

  ghost predicate OnePerAddress(conns: map<Id, Conn>) {
    forall i, j :: i in conns && j in conns && i != j ==> conns[i].owner != conns[j].owner || conns[i].url != conns[j].url
  }

  // However often an owner connects, there is one connection to each address.
  lemma {:induction false} OneConnectionPerAddress(steps: seq<Step>)
    ensures OnePerAddress(Exec(steps).db.conns)
    decreases |steps|
  {
    hide Exec, OnePerAddress;
    if steps == [] {
      assert OnePerAddress(map[]) by { NoConnection(); }
      assert Exec(steps) == Init() by { NothingRun(steps); }
    } else {
      var less := steps[..|steps| - 1];
      OneConnectionPerAddress(less);
      EveryRunKeeps(less);
      ExecLast(steps);
      StaysOnePerAddress(Exec(less), steps[|steps| - 1]);
    }
  }

  lemma NoConnection()
    ensures OnePerAddress(map[])
  {
  }

  lemma NothingRun(steps: seq<Step>)
    requires steps == []
    ensures Exec(steps) == Init()
  {
  }

  lemma ExecLast(steps: seq<Step>)
    requires steps != []
    ensures Exec(steps) == Next(Exec(steps[..|steps| - 1]), steps[|steps| - 1])
  {
  }

  lemma {:induction false} StaysOnePerAddress(w: World, step: Step)
    requires OnePerAddress(w.db.conns) && Inv(w)
    ensures OnePerAddress(Next(w, step).db.conns)
  {
    hide Inv;
    if step.UserConnect? {
      ConnectsOne(w.db, step.owner, step.url, step.access);
    } else {
      AddressesStay(w, step);
    }
  }

  lemma AddressesStay(w: World, step: Step)
    requires !step.UserConnect?
    ensures forall id :: id in Next(w, step).db.conns ==>
      id in w.db.conns && Next(w, step).db.conns[id].owner == w.db.conns[id].owner
      && Next(w, step).db.conns[id].url == w.db.conns[id].url
  {
  }

  lemma {:induction false} ConnectsOne(db: Db, owner: Owner, url: Url, access: Access)
    requires OnePerAddress(db.conns)
    ensures OnePerAddress(Connect(db, owner, url, access).conns)
  {
    var v := Connect(db, owner, url, access);
    forall i, j | i in v.conns && j in v.conns && i != j
      ensures v.conns[i].owner != v.conns[j].owner || v.conns[i].url != v.conns[j].url
    {
      if i in db.conns && j in db.conns {
        assert db.conns[i].owner != db.conns[j].owner || db.conns[i].url != db.conns[j].url;
      }
    }
  }

  // A request is served by one worker that nothing disturbs: the friend's albums are cached with the
  // access token of the connection, which is then complete.
  lemma {:induction false} RequestsAreServed(w: World, n: Name, id: Id, owner: Owner, albums: seq<nat>)
    requires id in w.db.conns && w.db.conns[id].owner == owner && n !in w.workers && id !in w.locks
    ensures var claimed := Next(Next(Next(w, UserRequest(id, owner)), TryLock(n, id)), TakeClaim(n));
      var v := Next(Next(claimed, BeginFetch(n)), FinishFetch(n, albums));
      && id in v.db.conns && v.db.conns[id] == w.db.conns[id].(status := Complete, retry := None,
                                                                token := v.db.conns[id].token, attempts := v.db.conns[id].attempts)
      && v.db.cached == w.db.cached[id := Cached(albums, w.db.conns[id].access)]
      && n !in v.workers && id !in v.locks
  {
    var requested := Next(w, UserRequest(id, owner));
    var locked := Next(requested, TryLock(n, id));
    assert locked.workers[n] == Locked(id) && Claimable(locked.db.conns[id], locked.now);
    var claimed := Next(locked, TakeClaim(n));
    assert claimed.workers[n] == Claimed(id, owner, locked.db.next);
    assert IsRunning(claimed.db, id, owner, locked.db.next);
    var fetching := Next(claimed, BeginFetch(n));
    assert fetching.workers[n] == Fetching(id, owner, locked.db.next, w.db.conns[id].access);
  }

  // A worker whose fetch fails leaves the connection for another try in five minutes, unless it was
  // the fifth: no sooner, and until a user asks again no later attempt either.
  lemma {:induction false} FailuresAreRetried(w: World, n: Name, later: nat)
    requires n in w.workers && w.workers[n].Fetching?
    requires var s := w.workers[n]; Holds(w.db, s.id, s.owner, s.token)
    ensures var id := w.workers[n].id;
      var v := Next(Next(w, FetchFails(n)), StoreFailure(n));
      && id in v.db.conns && v.db.conns[id].status == Failed && v.db.conns[id].attempts == w.db.conns[id].attempts
      && v.db.cached == w.db.cached && n !in v.workers
      && (Claimable(v.db.conns[id], later) <==> later >= w.now + 300 && w.db.conns[id].attempts < 5)
  {
  }

  // A connection that waits for a worker or has lost one is always claimed; an idle or complete one
  // never is.
  lemma {:induction false} ClaimedExactlyWhen(w: World, n: Name)
    requires n in w.workers && w.workers[n].Locked?
    ensures var id := w.workers[n].id;
      var v := Next(w, TakeClaim(n));
      var claims := id in w.db.conns &&
        (w.db.conns[id].status in {Pending, Running}
         || (w.db.conns[id].status == Failed && w.db.conns[id].attempts < 5
             && w.db.conns[id].retry.Some? && w.db.conns[id].retry.value <= w.now));
      && (claims ==> n in v.workers && v.workers[n] == Claimed(id, w.db.conns[id].owner, w.db.next)
                     && v.db.conns == w.db.conns[id := w.db.conns[id].(token := Some(w.db.next), status := Running,
                                                                        attempts := w.db.conns[id].attempts + 1)])
      && (!claims ==> n !in v.workers && v.db.conns == w.db.conns && v.db.cached == w.db.cached)
  {
  }

  // ---------------------------------------------------------------- one run of the job

  datatype SyncError = NotFound | FetchFailed

  // What becomes of a claimed connection: the fetched albums, or a failure.
  type Fetch = (Id, Access) -> Option<seq<nat>>

  function Due(conns: map<Id, Conn>, now: nat): set<Id> {
    set id | id in conns && Claimable(conns[id], now)
  }

  function Candidates(conns: map<Id, Conn>, now: nat): seq<Id> {
    var all := Ascending(Due(conns, now));
    if |all| <= MAX_CANDIDATES then all else all[..MAX_CANDIDATES]
  }

  // The connection one run works on: the first candidate whose advisory lock is free.
  ghost predicate Chosen(db: Db, now: nat, busy: set<Id>, id: Id) {
    var ids := Candidates(db.conns, now);
    exists i :: 0 <= i < |ids| && ids[i] == id && id !in busy && forall k :: 0 <= k < i ==> ids[k] in busy
  }

  // One run considers a connection exactly when it can be claimed and fewer than 32 such come before it.
  lemma {:induction false} CandidateExactlyWhen(conns: map<Id, Conn>, now: nat, id: Id)
    ensures id in Candidates(conns, now) <==>
      id in Due(conns, now) && |set i | i in Due(conns, now) && i < id| < 32
  {
    hide Due, Ascending;
    var due := Due(conns, now);
    var all := Ascending(due);
    var first := if |all| <= 32 then all else all[..32];
    assert Candidates(conns, now) == first;
    if id in due {
      var low := set i | i in due && i < id;
      PlaceOf(due, low, id);
      if |low| < 32 {
        assert first[|low|] == id;
      } else {
        forall i | 0 <= i < |first| ensures first[i] != id { assert first[i] == all[i]; }
      }
    } else {
      forall i | 0 <= i < |first| ensures first[i] != id { assert first[i] == all[i] && all[i] in all; }
    }
  }

  // An element stands behind exactly the smaller ones.
  lemma {:induction false} PlaceOf(s: set<nat>, low: set<nat>, x: nat)
    requires x in s && low == set i | i in s && i < x
    ensures |low| < |Ascending(s)| && Ascending(s)[|low|] == x
    ensures forall i :: 0 <= i < |low| ==> Ascending(s)[i] != x
  {
    hide Ascending;
    var high := set i | i in s && i >= x;
    assert s == low + high;
    AscendingSplit(s, low, high);
    AscendingIncreases(high);
    FirstOfIncreasing(Ascending(high), x);
    forall i | 0 <= i < |low| ensures Ascending(s)[i] != x {
      assert Ascending(s)[i] == Ascending(low)[i] && Ascending(low)[i] in Ascending(low);
    }
  }

  lemma FirstOfIncreasing(s: seq<nat>, x: nat)
    requires Increasing(s) && x in s && forall y :: y in s ==> x <= y
    ensures s[0] == x
  {
    var i :| 0 <= i < |s| && s[i] == x;
    assert s[0] in s;
  }

  function AfterFetch(db: Db, id: Id, now: nat, fetched: Option<seq<nat>>): Db
    requires id in db.conns
  {
    var claimed := Claim(db, id, now);
    var c := db.conns[id];
    if fetched.Some? then Publish(claimed, id, c.owner, db.next, Cached(fetched.value, c.access))
    else RecordFailure(claimed, id, c.owner, db.next, now)
  }

  class ConnectionStore {
    var conns: map<Id, Conn>
    var cached: map<Id, Cached>
    var next: Token
    var nextId: Id

    ghost function State(): Db
      reads this
    {
      Db(conns, cached, next, nextId)
    }

    constructor ()
      ensures State() == Db(map[], map[], 0, 0)
    {
      conns, cached, next, nextId := map[], map[], 0, 0;
    }

    // False when the owner has no such connection.
    method Request(id: Id, owner: Owner) returns (found: bool)
      modifies this`conns, this`next
      ensures State() == RequestSync(old(State()), id, owner)
      ensures found <==> id in old(conns) && old(conns)[id].owner == owner
    {
      found := id in conns && conns[id].owner == owner;
      if found && conns[id].status != Pending && conns[id].status != Running {
        conns := conns[id := conns[id].(status := Pending, token := Some(next), retry := None, attempts := 0)];
      }
      next := next + 1;
    }

    // Fetches and publishes, unless the token is no longer the running row's.
    method SyncConnection(id: Id, owner: Owner, token: Token, fetch: Fetch) returns (r: Result<nat, SyncError>)
      modifies this`conns, this`cached
      ensures !IsRunning(old(State()), id, owner, token) ==> r == Err(NotFound) && State() == old(State())
      ensures IsRunning(old(State()), id, owner, token) ==>
        match fetch(id, old(conns)[id].access)
        case None => r == Err(FetchFailed) && State() == old(State())
        case Some(albums) =>
          r == Ok(|albums|)
          && State() == Publish(old(State()), id, owner, token, Cached(albums, old(conns)[id].access))
    {
      if !(id in conns && conns[id].owner == owner && conns[id].token == Some(token) && conns[id].status == Running) {
        return Err(NotFound);
      }
      var access := conns[id].access;
      var fetched := fetch(id, access);
      if fetched.None? {
        return Err(FetchFailed);
      }
      cached := cached[id := Cached(fetched.value, access)];
      conns := conns[id := conns[id].(status := Complete, retry := None)];
      r := Ok(|fetched.value|);
    }

    // Claims one connection under a fresh token, and records a failure under the same token.
    method WorkOn(id: Id, fetch: Fetch, now: nat)
      requires id in conns && Claimable(conns[id], now)
      modifies this
      ensures State() == AfterFetch(old(State()), id, now, fetch(id, old(conns)[id].access))
    {
      var token := next;
      conns := conns[id := conns[id].(token := Some(token), status := Running, attempts := conns[id].attempts + 1)];
      next := next + 1;
      var owner := conns[id].owner;
      var synced := SyncConnection(id, owner, token, fetch);
      if synced.Err? {
        conns := conns[id := conns[id].(status := Failed, retry := Some(now + RETRY_SECONDS))];
      }
    }

    // Works on at most one connection: nothing else is touched.
    method RunOne(busy: set<Id>, fetch: Fetch, now: nat) returns (worked: Option<Id>)
      modifies this
      ensures worked.None? <==> forall i :: 0 <= i < |Candidates(old(conns), now)| ==> Candidates(old(conns), now)[i] in busy
      ensures worked.None? ==> State() == old(State())
      ensures worked.Some? ==>
        Chosen(old(State()), now, busy, worked.value) && worked.value in old(conns)
        && State() == AfterFetch(old(State()), worked.value, now, fetch(worked.value, old(conns)[worked.value].access))
    {
      var ids := Candidates(conns, now);
      assert forall i :: 0 <= i < |ids| ==> ids[i] in Ascending(Due(conns, now));
      for i := 0 to |ids|
        invariant State() == old(State())
        invariant forall k :: 0 <= k < i ==> ids[k] in busy
      {
        var id := ids[i];
        if id !in busy {
          assert id in Due(conns, now);
          WorkOn(id, fetch, now);
          assert ids[i] == id;
          return Some(id);
        }
      }
      worked := None;
    }
  }
}
