// Concurrent cover writers, uploads, purges and readers: every step of every transaction.

module CoverProtocol {
  import opened Prelude
  import opened Covers

  type Name = nat

  datatype Kind =
    | Writing(scope: Scope, mutation: Mutation)
    | Uploading(scope: Scope, image: Id)
    | PurgingImages(candidates: set<Target>)
    | PurgingReceipts(candidates: set<Target>)

  // A number drawn and a record written, but not committed.
  datatype Pending = Pending(record: Record, num: nat)

  // A transaction takes its scope locks in order, then works, then commits or rolls back.
  datatype Txn = Txn(kind: Kind, started: nat, want: seq<Scope>, held: set<Scope>, pending: Option<Pending>)

  // log is the history of every cover: the mutations that were applied to it, in order.
  datatype World = World(tables: Tables, txns: map<Name, Txn>, readers: map<Name, Reader>,
                         log: map<Target, seq<Mutation>>, now: nat)

  datatype Step =
    | Wait(seconds: nat)
    | Begin(t: Name, kind: Kind)
    | Lock(t: Name)
    | Draw(t: Name)
    | Commit(t: Name)
    | Rollback(t: Name)
    | Join(r: Name, scope: Scope)
    | Read(r: Name, limit: int)

  function ScopesOf(kind: Kind): set<Scope> {
    match kind
    case Writing(s, _) => {s}
    case Uploading(s, _) => {s}
    case PurgingImages(candidates) => set k | k in candidates :: k.scope
    case PurgingReceipts(candidates) => set k | k in candidates :: k.scope
  }

  predicate IsHeld(txns: map<Name, Txn>, s: Scope) {
    exists t :: t in txns && s in txns[t].held
  }

  function Logged(log: map<Target, seq<Mutation>>, k: Target): seq<Mutation> {
    if k in log then log[k] else []
  }

  function Init(): World { World(Tables(map[], map[], map[], 0), map[], map[], map[], 0) }

  // The next number and the record it goes with, when the mutation is accepted.
  function Drawn(w: World, t: Name): World
    requires t in w.txns
  {
    var x := w.txns[t];
    if x.want != [] || x.pending.Some? || !x.kind.Writing? then w
    else
      match Decide(w.tables, x.kind.scope, x.kind.mutation)
      case Accept(record) =>
        var num := w.tables.sequence + 1;
        w.(tables := w.tables.(sequence := num), txns := w.txns[t := x.(pending := Some(Pending(record, num)))])
      case _ => w
  }

  ghost function Committed(w: World, t: Name): World
    requires t in w.txns
  {
    var x := w.txns[t];
    var done := w.(txns := w.txns - {t});
    if x.want != [] then w
    else
      match x.kind
      case Writing(s, m) =>
        if x.pending.None? then (if Decide(w.tables, s, m).Accept? then w else done)
        else
          done.(tables := Install(w.tables, s, m, x.pending.value.record, x.pending.value.num, x.started),
                log := w.log[Target(s, m.cover) := Logged(w.log, Target(s, m.cover)) + [m]])
      case Uploading(s, image) =>
        var r := StoreImage(w.tables, s, image, x.started);
        if r.Ok? then done.(tables := r.value) else done
      case PurgingImages(candidates) => done.(tables := WithoutUnused(w.tables, candidates, x.started))
      case PurgingReceipts(candidates) => done.(tables := WithoutExpired(w.tables, candidates, x.started))
  }

  ghost function Next(w: World, step: Step): World {
    match step
    case Wait(seconds) => w.(now := w.now + seconds)
    case Begin(t, kind) =>
      if t in w.txns then w
      else w.(txns := w.txns[t := Txn(kind, w.now, Ascending(ScopesOf(kind)), {}, None)])
    case Lock(t) =>
      if t !in w.txns || w.txns[t].want == [] || IsHeld(w.txns, w.txns[t].want[0]) then w
      else
        var x := w.txns[t];
        w.(txns := w.txns[t := x.(want := x.want[1..], held := x.held + {x.want[0]})])
    case Draw(t) => if t in w.txns then Drawn(w, t) else w
    case Commit(t) => if t in w.txns then Committed(w, t) else w
    case Rollback(t) => w.(txns := w.txns - {t})
    case Join(r, scope) => if r in w.readers then w else w.(readers := w.readers[r := Reader(scope, 0, map[], false)])
    case Read(r, limit) =>
      if r in w.readers then w.(readers := w.readers[r := ReadPage(w.tables.records, w.readers[r], limit)]) else w
  }

  ghost function Exec(steps: seq<Step>): World {
    if steps == [] then Init() else Next(Exec(steps[..|steps| - 1]), steps[|steps| - 1])
  }

  // ---------------------------------------------------------------- invariants

  ghost predicate TxnOk(x: Txn) {
    && Increasing(x.want)
    && (forall h, s :: h in x.held && s in x.want ==> h < s)
    && (forall s :: s in ScopesOf(x.kind) <==> s in x.held || s in x.want)
    && (x.pending.Some? ==> x.kind.Writing? && x.want == [])
  }

  ghost predicate LocksInv(txns: map<Name, Txn>) {
    && (forall t :: t in txns ==> TxnOk(txns[t]))
    && (forall t, u :: t in txns && u in txns && t != u ==> txns[t].held !! txns[u].held)
  }

  ghost predicate NumbersInv(records: map<Target, Stored>, sequence: nat) {
    && NumbersDistinct(records)
    && (forall k :: k in records ==> 0 < records[k].num <= sequence)
  }

  // A pending write is what the scope, still locked, decided it to be.
  ghost predicate PendingOk(t: Tables, s: Scope, m: Mutation, p: Pending) {
    && p.record == Record(m.base + 1, ValueOf(m.operation))
    && Revision(t.records, Target(s, m.cover)) == m.base
    && Target(s, m.id) !in t.receipts
    && 0 < p.num <= t.sequence
    && (forall k :: k in t.records ==> t.records[k].num != p.num && (k.scope == s ==> t.records[k].num < p.num))
    && (forall image :: Names(p.record.value, image) ==> Target(s, image) in t.images)
  }

  ghost predicate PendingInv(tables: Tables, txns: map<Name, Txn>) {
    && (forall t :: t in txns && txns[t].pending.Some? ==>
          txns[t].kind.Writing? && PendingOk(tables, txns[t].kind.scope, txns[t].kind.mutation, txns[t].pending.value))
    && (forall t, u :: t in txns && u in txns && t != u && txns[t].pending.Some? && txns[u].pending.Some? ==>
          txns[t].pending.value.num != txns[u].pending.value.num)
  }

  ghost predicate ReaderOk(tables: Tables, txns: map<Name, Txn>, r: Reader) {
    && Follows(tables.records, r)
    && r.cursor <= tables.sequence
    && forall t :: t in txns && txns[t].pending.Some? && txns[t].kind.Writing? && txns[t].kind.scope == r.scope ==>
         txns[t].pending.value.num > r.cursor
  }

  ghost predicate ReadersInv(tables: Tables, txns: map<Name, Txn>, readers: map<Name, Reader>) {
    forall r :: r in readers ==> ReaderOk(tables, txns, readers[r])
  }

  // The n-th mutation applied to a cover was based on revision n.
  ghost predicate HistoryOk(stored: Stored, k: Target, ms: seq<Mutation>) {
    && |ms| > 0
    && |ms| == stored.record.revision
    && (forall i :: 0 <= i < |ms| ==> ms[i].base == i && ms[i].cover == k.id)
    && stored.record.value == ValueOf(ms[|ms| - 1].operation)
  }

  ghost predicate LogInv(records: map<Target, Stored>, log: map<Target, seq<Mutation>>) {
    && (forall k :: k in records <==> k in log)
    && (forall k :: k in records && k in log ==> HistoryOk(records[k], k, log[k]))
  }

  ghost predicate ReceiptOk(log: map<Target, seq<Mutation>>, k: Target, r: Receipt) {
    var c := Target(k.scope, r.mutation.cover);
    && r.mutation.id == k.id
    && c in log && r.mutation.base < |log[c]| && log[c][r.mutation.base] == r.mutation
    && r.response == Record(r.mutation.base + 1, ValueOf(r.mutation.operation))
  }

  ghost predicate ReceiptsInv(receipts: map<Target, Receipt>, log: map<Target, seq<Mutation>>) {
    forall k :: k in receipts ==> ReceiptOk(log, k, receipts[k])
  }

  ghost predicate PhotosInv(records: map<Target, Stored>, images: map<Target, nat>) {
    forall k, image :: k in records && Names(records[k].record.value, image) ==> Target(k.scope, image) in images
  }

  ghost predicate QuotaInv(images: map<Target, nat>) {
    forall s :: |ImagesOf(images, s)| <= MAX_IMAGES_PER_SCOPE
  }

  ghost predicate Inv(w: World) {
    && LocksInv(w.txns)
    && NumbersInv(w.tables.records, w.tables.sequence)
    && PendingInv(w.tables, w.txns)
    && ReadersInv(w.tables, w.txns, w.readers)
    && LogInv(w.tables.records, w.log)
    && ReceiptsInv(w.tables.receipts, w.log)
    && PhotosInv(w.tables.records, w.tables.images)
    && QuotaInv(w.tables.images)
    && (forall t :: t in w.txns ==> w.txns[t].started <= w.now)
  }

  // ---------------------------------------------------------------- each step keeps them

  lemma BeginKeepsLocks(txns: map<Name, Txn>, t: Name, x: Txn)
    requires LocksInv(txns) && t !in txns && TxnOk(x) && x.held == {}
    ensures LocksInv(txns[t := x])
  {
  }

  lemma {:induction false} BegunIsOk(kind: Kind, started: nat)
    ensures TxnOk(Txn(kind, started, Ascending(ScopesOf(kind)), {}, None))
  {
    AscendingIncreases(ScopesOf(kind));
  }

  lemma {:induction false} LockKeepsLocks(txns: map<Name, Txn>, t: Name)
    requires LocksInv(txns) && t in txns && txns[t].want != [] && !IsHeld(txns, txns[t].want[0])
    ensures var x := txns[t];
      LocksInv(txns[t := x.(want := x.want[1..], held := x.held + {x.want[0]})])
  {
    var x := txns[t];
    var y := x.(want := x.want[1..], held := x.held + {x.want[0]});
    assert TxnOk(x);
    forall s ensures s in x.want <==> s == x.want[0] || s in x.want[1..] {
    }
    assert TxnOk(y);
    forall u | u in txns && u != t ensures y.held !! txns[u].held {
      assert x.want[0] !in txns[u].held;
    }
  }

  lemma RemoveKeepsLocks(txns: map<Name, Txn>, t: Name)
    requires LocksInv(txns)
    ensures LocksInv(txns - {t})
  {
  }

  lemma DrawnIsPending(w: World, t: Name)
    requires Inv(w) && t in w.txns && Drawn(w, t) != w
    ensures var x := w.txns[t]; var v := Drawn(w, t);
      && x.kind.Writing? && x.want == [] && x.pending.None?
      && v.tables == w.tables.(sequence := w.tables.sequence + 1)
      && v.txns == w.txns[t := x.(pending := v.txns[t].pending)] && v.txns[t].pending.Some?
      && v == w.(tables := v.tables, txns := v.txns)
      && v.txns[t].pending.value.num == v.tables.sequence
      && PendingOk(v.tables, x.kind.scope, x.kind.mutation, v.txns[t].pending.value)
  {
  }

  lemma {:induction false} DrawKeeps(w: World, t: Name)
    requires Inv(w) && t in w.txns
    ensures Inv(Drawn(w, t))
  {
    var x := w.txns[t];
    var v := Drawn(w, t);
    if v != w {
      DrawnIsPending(w, t);
      hide Drawn;
      assert TxnOk(x);
      forall u | u in w.txns && w.txns[u].pending.Some?
        ensures PendingOk(v.tables, w.txns[u].kind.scope, w.txns[u].kind.mutation, w.txns[u].pending.value)
             && w.txns[u].pending.value.num <= w.tables.sequence
      {
        assert PendingOk(w.tables, w.txns[u].kind.scope, w.txns[u].kind.mutation, w.txns[u].pending.value);
      }
      hide PendingOk;
      forall r | r in v.readers ensures ReaderOk(v.tables, v.txns, v.readers[r]) {
        assert ReaderOk(w.tables, w.txns, w.readers[r]);
      }
    }
  }

  lemma {:induction false} ReaderChanges(w: World, r: Name, reader: Reader)
    requires Inv(w) && ReaderOk(w.tables, w.txns, reader)
    ensures Inv(w.(readers := w.readers[r := reader]))
  {
    hide ReaderOk;
  }

  // A page ends at a committed number, and every number still pending in its scope is later.
  lemma {:induction false} PageBelowPending(w: World, before: Reader, after: Reader)
    requires Inv(w) && ReaderOk(w.tables, w.txns, before)
    requires Follows(w.tables.records, after) && after.scope == before.scope
    requires after.cursor == before.cursor
          || exists k :: k in w.tables.records && k.scope == before.scope && w.tables.records[k].num == after.cursor
    ensures ReaderOk(w.tables, w.txns, after)
  {
    hide Follows;
    forall t | t in w.txns && w.txns[t].pending.Some? && w.txns[t].kind.Writing? && w.txns[t].kind.scope == after.scope
      ensures w.txns[t].pending.value.num > after.cursor
    {
      assert PendingOk(w.tables, w.txns[t].kind.scope, w.txns[t].kind.mutation, w.txns[t].pending.value);
    }
  }

  lemma {:induction false} ReadKeeps(w: World, r: Name, limit: int)
    requires Inv(w) && r in w.readers
    ensures Inv(w.(readers := w.readers[r := ReadPage(w.tables.records, w.readers[r], limit)]))
  {
    var reader := w.readers[r];
    assert ReaderOk(w.tables, w.txns, reader);
    ReadKeepsFollowing(w.tables.records, reader, limit);
    hide ReadPage, Inv, ReaderOk, Follows;
    assert Follows(w.tables.records, reader);
    PageBelowPending(w, reader, ReadPage(w.tables.records, reader, limit));
    ReaderChanges(w, r, ReadPage(w.tables.records, reader, limit));
  }

  // The lock a pending write holds keeps every other pending write of its scope away.
  lemma OnePendingPerScope(txns: map<Name, Txn>, t: Name, u: Name)
    requires LocksInv(txns) && t in txns && u in txns && t != u
    requires txns[t].kind.Writing? && txns[t].want == []
    requires txns[u].kind.Writing? && txns[u].want == []
    ensures txns[t].kind.scope != txns[u].kind.scope
  {
    assert TxnOk(txns[t]) && TxnOk(txns[u]);
    assert txns[t].kind.scope in ScopesOf(txns[t].kind) && txns[u].kind.scope in ScopesOf(txns[u].kind);
  }

  // A number above the cursor keeps a reader following; any other is missed, unless it
  // brings what the reader already holds.
  lemma InstallKeepsFollowing(records: map<Target, Stored>, r: Reader, k: Target, stored: Stored)
    requires Follows(records, r)
    ensures Follows(records[k := stored], r)
      <==> k.scope != r.scope || stored.num > r.cursor || (k.id in r.mirror && r.mirror[k.id] == stored.record)
  {
    if k.scope == r.scope && stored.num <= r.cursor && Follows(records[k := stored], r) {
      assert k in records[k := stored];
    }
  }

  lemma {:induction false} InstallKeepsPending(tables: Tables, txns: map<Name, Txn>, t: Name, created: nat)
    requires LocksInv(txns) && PendingInv(tables, txns) && t in txns
    requires txns[t].kind.Writing? && txns[t].want == [] && txns[t].pending.Some?
    ensures var x := txns[t];
      PendingInv(Install(tables, x.kind.scope, x.kind.mutation, x.pending.value.record, x.pending.value.num, created), txns - {t})
  {
    var x := txns[t];
    var after := Install(tables, x.kind.scope, x.kind.mutation, x.pending.value.record, x.pending.value.num, created);
    forall u | u in txns && u != t && txns[u].pending.Some?
      ensures PendingOk(after, txns[u].kind.scope, txns[u].kind.mutation, txns[u].pending.value)
    {
      assert TxnOk(txns[u]);
      OnePendingPerScope(txns, t, u);
    }
  }

  lemma {:induction false} InstallKeepsLog(tables: Tables, log: map<Target, seq<Mutation>>, s: Scope, m: Mutation, p: Pending,
                                           created: nat)
    requires LogInv(tables.records, log) && ReceiptsInv(tables.receipts, log) && PendingOk(tables, s, m, p)
    ensures var k := Target(s, m.cover);
      var longer := log[k := Logged(log, k) + [m]];
      var after := Install(tables, s, m, p.record, p.num, created);
      LogInv(after.records, longer) && ReceiptsInv(after.receipts, longer)
  {
    var k := Target(s, m.cover);
    var longer := log[k := Logged(log, k) + [m]];
    var after := Install(tables, s, m, p.record, p.num, created);
    assert |Logged(log, k)| == m.base;
    assert HistoryOk(after.records[k], k, longer[k]);
    forall key | key in after.receipts ensures ReceiptOk(longer, key, after.receipts[key]) {
      if key != Target(s, m.id) {
        assert ReceiptOk(log, key, tables.receipts[key]);
      }
    }
  }

  lemma {:induction false} WriteKeeps(w: World, t: Name)
    requires Inv(w) && t in w.txns
    requires w.txns[t].kind.Writing? && w.txns[t].want == [] && w.txns[t].pending.Some?
    ensures Inv(Committed(w, t))
  {
    var x := w.txns[t];
    var s, m, p := x.kind.scope, x.kind.mutation, x.pending.value;
    var after := Install(w.tables, s, m, p.record, p.num, x.started);
    assert PendingOk(w.tables, s, m, p);
    RemoveKeepsLocks(w.txns, t);
    InstallKeepsPending(w.tables, w.txns, t, x.started);
    InstallKeepsLog(w.tables, w.log, s, m, p, x.started);
    assert NumbersInv(after.records, after.sequence);
    forall r | r in w.readers ensures ReaderOk(after, w.txns - {t}, w.readers[r]) {
      assert ReaderOk(w.tables, w.txns, w.readers[r]);
      InstallKeepsFollowing(w.tables.records, w.readers[r], Target(s, m.cover), Stored(p.record, p.num));
    }
    assert PhotosInv(after.records, after.images);
  }

  lemma {:induction false} UploadKeepsQuota(images: map<Target, nat>, k: Target, created: nat)
    requires QuotaInv(images)
    requires k in images || |ImagesOf(images, k.scope)| < MAX_IMAGES_PER_SCOPE
    ensures QuotaInv(images[k := created])
  {
    var more := images[k := created];
    forall s ensures |ImagesOf(more, s)| <= MAX_IMAGES_PER_SCOPE {
      if s == k.scope {
        assert ImagesOf(more, s) == ImagesOf(images, s) + {k};
      } else {
        assert ImagesOf(more, s) == ImagesOf(images, s);
      }
    }
  }

  lemma {:induction false} PurgeKeepsQuota(images: map<Target, nat>, fewer: map<Target, nat>)
    requires QuotaInv(images) && fewer.Keys <= images.Keys
    ensures QuotaInv(fewer)
  {
    forall s ensures |ImagesOf(fewer, s)| <= MAX_IMAGES_PER_SCOPE {
      SubsetSize(ImagesOf(fewer, s), ImagesOf(images, s));
    }
  }

  // Everything but the images stays; what pending writes and committed covers name is still there.
  lemma {:induction false} ImagesChange(w: World, t: Name, images: map<Target, nat>)
    requires Inv(w) && t in w.txns && QuotaInv(images)
    requires PhotosInv(w.tables.records, images)
    requires forall u :: u in w.txns && u != t && w.txns[u].pending.Some? && w.txns[u].kind.Writing? ==>
      forall image :: Names(w.txns[u].pending.value.record.value, image) ==>
        Target(w.txns[u].kind.scope, image) in images
    ensures Inv(w.(txns := w.txns - {t}, tables := w.tables.(images := images)))
  {
    var v := w.(txns := w.txns - {t}, tables := w.tables.(images := images));
    RemoveKeepsLocks(w.txns, t);
    forall u | u in v.txns && v.txns[u].pending.Some?
      ensures PendingOk(v.tables, v.txns[u].kind.scope, v.txns[u].kind.mutation, v.txns[u].pending.value)
    {
      assert PendingOk(w.tables, w.txns[u].kind.scope, w.txns[u].kind.mutation, w.txns[u].pending.value);
    }
    forall r | r in v.readers ensures ReaderOk(v.tables, v.txns, v.readers[r]) {
      assert ReaderOk(w.tables, w.txns, w.readers[r]);
    }
  }

  lemma {:induction false} UploadKeeps(w: World, t: Name)
    requires Inv(w) && t in w.txns && w.txns[t].kind.Uploading? && w.txns[t].want == []
    ensures Inv(Committed(w, t))
  {
    var x := w.txns[t];
    var k := Target(x.kind.scope, x.kind.image);
    var images := w.tables.images[k := x.started];
    if StoreImage(w.tables, x.kind.scope, x.kind.image, x.started).Ok? {
      UploadKeepsQuota(w.tables.images, k, x.started);
      forall u | u in w.txns && u != t && w.txns[u].pending.Some? && w.txns[u].kind.Writing?
        ensures forall image :: Names(w.txns[u].pending.value.record.value, image) ==>
          Target(w.txns[u].kind.scope, image) in images
      {
        assert PendingOk(w.tables, w.txns[u].kind.scope, w.txns[u].kind.mutation, w.txns[u].pending.value);
      }
      ImagesChange(w, t, images);
    } else {
      DropKeeps(w, t);
    }
  }

  lemma {:induction false} DropKeeps(w: World, t: Name)
    requires Inv(w)
    ensures Inv(w.(txns := w.txns - {t}))
  {
    var v := w.(txns := w.txns - {t});
    RemoveKeepsLocks(w.txns, t);
    forall r | r in v.readers ensures ReaderOk(v.tables, v.txns, v.readers[r]) {
      assert ReaderOk(w.tables, w.txns, w.readers[r]);
    }
  }

  // The purge holds the lock of every scope it deletes from, so no write is pending there.
  lemma {:induction false} PurgeImagesKeeps(w: World, t: Name)
    requires Inv(w) && t in w.txns && w.txns[t].kind.PurgingImages? && w.txns[t].want == []
    ensures Inv(Committed(w, t))
  {
    var x := w.txns[t];
    var images := WithoutUnused(w.tables, x.kind.candidates, x.started).images;
    assert TxnOk(x);
    forall u, image | u in w.txns && u != t && w.txns[u].pending.Some? && w.txns[u].kind.Writing?
                   && Names(w.txns[u].pending.value.record.value, image)
      ensures Target(w.txns[u].kind.scope, image) in images
    {
      var s := w.txns[u].kind.scope;
      assert PendingOk(w.tables, s, w.txns[u].kind.mutation, w.txns[u].pending.value);
      assert TxnOk(w.txns[u]) && s in ScopesOf(w.txns[u].kind) && s in w.txns[u].held && s !in x.held;
      assert Target(s, image) in x.kind.candidates ==> Target(s, image).scope in ScopesOf(x.kind);
    }
    PurgeKeepsQuota(w.tables.images, images);
    forall k, image | k in w.tables.records && Names(w.tables.records[k].record.value, image)
      ensures Target(k.scope, image) in images
    {
      assert Used(w.tables.records, Target(k.scope, image));
    }
    ImagesChange(w, t, images);
  }

  lemma {:induction false} PurgeReceiptsKeeps(w: World, t: Name)
    requires Inv(w) && t in w.txns && w.txns[t].kind.PurgingReceipts? && w.txns[t].want == []
    ensures Inv(Committed(w, t))
  {
    DropKeeps(w, t);
    var v := w.(txns := w.txns - {t});
    var after := Committed(w, t);
    forall u | u in v.txns && v.txns[u].pending.Some?
      ensures PendingOk(after.tables, v.txns[u].kind.scope, v.txns[u].kind.mutation, v.txns[u].pending.value)
    {
      assert PendingOk(v.tables, v.txns[u].kind.scope, v.txns[u].kind.mutation, v.txns[u].pending.value);
    }
    forall r | r in after.readers ensures ReaderOk(after.tables, after.txns, after.readers[r]) {
      assert ReaderOk(v.tables, v.txns, v.readers[r]);
    }
  }

  lemma {:induction false} TxnsChange(w: World, t: Name, x: Txn)
    requires Inv(w) && LocksInv(w.txns[t := x])
    requires t in w.txns ==> x.pending == w.txns[t].pending && x.kind == w.txns[t].kind
    requires t !in w.txns ==> x.pending.None?
    requires x.started <= w.now
    ensures Inv(w.(txns := w.txns[t := x]))
  {
    var v := w.(txns := w.txns[t := x]);
    forall r | r in v.readers ensures ReaderOk(v.tables, v.txns, v.readers[r]) {
      assert ReaderOk(w.tables, w.txns, w.readers[r]);
    }
  }

  lemma {:induction false} CommitKeeps(w: World, t: Name)
    requires Inv(w) && t in w.txns
    ensures Inv(Committed(w, t))
  {
    var x := w.txns[t];
    if x.want == [] {
      match x.kind
      case Writing(s, m) => if x.pending.Some? { WriteKeeps(w, t); } else { DropKeeps(w, t); }
      case Uploading(_, _) => UploadKeeps(w, t);
      case PurgingImages(_) => PurgeImagesKeeps(w, t);
      case PurgingReceipts(_) => PurgeReceiptsKeeps(w, t);
    }
  }

  lemma {:induction false} NextKeeps(w: World, step: Step)
    requires Inv(w)
    ensures Inv(Next(w, step))
  {
    hide Inv, Drawn, Committed, ReadPage, LocksInv;
    match step
    case Wait(seconds) => NowIsFree(w, seconds);
    case Begin(t, kind) =>
      if t !in w.txns {
        var x := Txn(kind, w.now, Ascending(ScopesOf(kind)), {}, None);
        BegunIsOk(kind, w.now);
        LocksOf(w);
        BeginKeepsLocks(w.txns, t, x);
        TxnsChange(w, t, x);
      }
    case Lock(t) =>
      if t in w.txns && w.txns[t].want != [] && !IsHeld(w.txns, w.txns[t].want[0]) {
        LocksOf(w);
        LockKeepsLocks(w.txns, t);
        var x := w.txns[t];
        TxnsChange(w, t, x.(want := x.want[1..], held := x.held + {x.want[0]}));
      }
    case Draw(t) => if t in w.txns { DrawKeeps(w, t); }
    case Commit(t) => if t in w.txns { CommitKeeps(w, t); }
    case Rollback(t) => DropKeeps(w, t);
    case Join(r, scope) => if r !in w.readers { JoinKeeps(w, r, scope); }
    case Read(r, limit) => if r in w.readers { ReadKeeps(w, r, limit); }
  }

  lemma LocksOf(w: World)
    requires Inv(w)
    ensures LocksInv(w.txns) && forall t :: t in w.txns ==> w.txns[t].started <= w.now
  {
  }

  lemma NowIsFree(w: World, seconds: nat)
    requires Inv(w)
    ensures Inv(w.(now := w.now + seconds))
  {
  }

  lemma {:induction false} JoinKeeps(w: World, r: Name, scope: Scope)
    requires Inv(w) && r !in w.readers
    ensures Inv(w.(readers := w.readers[r := Reader(scope, 0, map[], false)]))
  {
    var reader := Reader(scope, 0, map[], false);
    forall t | t in w.txns && w.txns[t].pending.Some? && w.txns[t].kind.Writing?
      ensures w.txns[t].pending.value.num > 0
    {
      assert PendingOk(w.tables, w.txns[t].kind.scope, w.txns[t].kind.mutation, w.txns[t].pending.value);
    }
    ReaderChanges(w, r, reader);
  }

  lemma {:induction false} EveryRunKeeps(steps: seq<Step>)
    ensures Inv(Exec(steps))
    decreases |steps|
  {
    hide Inv, Next;
    if steps == [] {
      assert Inv(Init()) by { InitIsOk(); }
    } else {
      EveryRunKeeps(steps[..|steps| - 1]);
      NextKeeps(Exec(steps[..|steps| - 1]), steps[|steps| - 1]);
    }
  }

  lemma InitIsOk()
    ensures Inv(Init())
  {
    forall s ensures |ImagesOf(map[], s)| <= MAX_IMAGES_PER_SCOPE {
      assert ImagesOf(map[], s) == {};
    }
  }
}
