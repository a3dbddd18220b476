// Custom covers: one versioned record per cover target, receipts of accepted mutations, and the
// content-addressed photos that covers name.

module Covers {
  import opened Prelude

  // A (principal, catalogue) pair, as its rank in lock order.
  type Scope = nat
  type Id = nat

  const MAX_IMAGES_PER_SCOPE := 2_000
  const MAX_PAGE_RECORDS := 500
  const RECEIPT_RETENTION: nat := 30 * 86_400
  const UNUSED_IMAGE_GRACE: nat := 2 * 86_400

  // A cover of unknown type is stored as sent.
  datatype Cover = Album(item: Id) | Color(rgb: nat) | Photo(image: Id) | Other(sent: nat)

  datatype Operation = Put(cover: Cover) | Delete(at: nat)

  datatype Mutation = Mutation(id: Id, cover: Id, base: nat, operation: Operation)

  // A tombstone means "back to the automatic cover".
  datatype Value = Value(deletedAt: Option<nat>, cover: Option<Cover>)

  datatype Record = Record(revision: nat, value: Value)

  // A row of a table keyed by scope and ID.
  datatype Target = Target(scope: Scope, id: Id)

  datatype Stored = Stored(record: Record, num: nat)

  // The fingerprint of a mutation is collision-free, so it stands for the mutation.
  datatype Receipt = Receipt(response: Record, mutation: Mutation, created: nat)

  // The committed tables; sequence is the last number drawn, by any scope.
  datatype Tables = Tables(records: map<Target, Stored>, receipts: map<Target, Receipt>,
                           images: map<Target, nat>, sequence: nat)

  datatype Decision =
    | Replay(response: Record)
    | KeyReused
    | Conflict(current: Option<Record>)
    | ImageMissing(image: Id)
    | Accept(record: Record)

  function ValueOf(op: Operation): Value {
    match op
    case Put(cover) => Value(None, Some(cover))
    case Delete(at) => Value(Some(at), None)
  }

  function Revision(records: map<Target, Stored>, k: Target): nat {
    if k in records then records[k].record.revision else 0
  }

  function CurrentRecord(records: map<Target, Stored>, k: Target): Option<Record> {
    if k in records then Some(records[k].record) else None
  }

  predicate Names(v: Value, image: Id) {
    v.cover == Some(Photo(image))
  }

  // What apply_mutation decides, with the scope locked.
  function Applied(t: Tables, s: Scope, m: Mutation): Decision {
    var k := Target(s, m.cover);
    if Revision(t.records, k) != m.base then Conflict(CurrentRecord(t.records, k))
    else if m.operation.Put? && m.operation.cover.Photo? && Target(s, m.operation.cover.image) !in t.images then
      ImageMissing(m.operation.cover.image)
    else Accept(Record(m.base + 1, ValueOf(m.operation)))
  }

  // What one request decides: a known mutation ID answers from its receipt.
  function Decide(t: Tables, s: Scope, m: Mutation): Decision {
    var key := Target(s, m.id);
    if key in t.receipts then
      if t.receipts[key].mutation != m then KeyReused else Replay(t.receipts[key].response)
    else Applied(t, s, m)
  }

  // A stored value is what an operation asks for: the cover it puts and no deletion, or the time of
  // the deletion and no cover.
  predicate Shows(v: Value, op: Operation) {
    match op
    case Put(cover) => v.cover == Some(cover) && v.deletedAt == None
    case Delete(at) => v.cover == None && v.deletedAt == Some(at)
  }

  lemma {:induction false} ValuesShow(v: Value, op: Operation)
    ensures v == ValueOf(op) <==> Shows(v, op)
  {
  }

  predicate KnowsPhoto(t: Tables, s: Scope, op: Operation) {
    op.Put? && op.cover.Photo? ==> Target(s, op.cover.image) in t.images
  }

  // How a request is answered: from its receipt, if it is the mutation the receipt is for; else it is
  // accepted exactly when it is based on the current revision and the photo it names is stored, and
  // the record then shows what it asked for, one revision on.
  lemma {:induction false} AcceptedExactlyWhen(t: Tables, s: Scope, m: Mutation)
    ensures var d := Decide(t, s, m);
      var key, k := Target(s, m.id), Target(s, m.cover);
      var current := if k in t.records then t.records[k].record.revision else 0;
      && (d.Accept? <==> key !in t.receipts && m.base == current && KnowsPhoto(t, s, m.operation))
      && (d.Accept? ==> d.record.revision == current + 1 && Shows(d.record.value, m.operation))
      && (key in t.receipts ==>
            d == if t.receipts[key].mutation == m then Replay(t.receipts[key].response) else KeyReused)
      && (key !in t.receipts && m.base != current ==>
            d == Conflict(if k in t.records then Some(t.records[k].record) else None))
      && (key !in t.receipts && m.base == current && !KnowsPhoto(t, s, m.operation) ==>
            d == ImageMissing(m.operation.cover.image))
  {
    ValuesShow(ValueOf(m.operation), m.operation);
  }

  // Committing an accepted mutation: the record under its sequence number, and the receipt.
  function Install(t: Tables, s: Scope, m: Mutation, record: Record, num: nat, created: nat): Tables {
    t.(records := t.records[Target(s, m.cover) := Stored(record, num)],
       receipts := t.receipts[Target(s, m.id) := Receipt(record, m, created)])
  }

  // ---------------------------------------------------------------- images

  function ImagesOf(images: map<Target, nat>, s: Scope): set<Target> {
    set k | k in images && k.scope == s
  }

  datatype ImageError = Empty | TooLarge | Unsupported | Quota

  // Storing again restarts the grace period; a new image needs room in its scope.
  function StoreImage(t: Tables, s: Scope, image: Id, created: nat): Result<Tables, ImageError> {
    if Target(s, image) !in t.images && |ImagesOf(t.images, s)| >= MAX_IMAGES_PER_SCOPE then Err(Quota)
    else Ok(t.(images := t.images[Target(s, image) := created]))
  }

  ghost predicate Used(records: map<Target, Stored>, k: Target) {
    exists r :: r in records && r.scope == k.scope && Names(records[r].record.value, k.id)
  }

  // Candidates were listed before the locks were taken; each is checked again.
  ghost function WithoutUnused(t: Tables, candidates: set<Target>, now: nat): Tables {
    t.(images := map k | k in t.images &&
      !(k in candidates && t.images[k] + UNUSED_IMAGE_GRACE < now && !Used(t.records, k)) :: t.images[k])
  }

  ghost function Removable(t: Tables, now: nat): set<Target> {
    set k | k in t.images && t.images[k] + UNUSED_IMAGE_GRACE < now && !Used(t.records, k)
  }

  function WithoutExpired(t: Tables, candidates: set<Target>, now: nat): Tables {
    t.(receipts := map k | k in t.receipts &&
      !(k in candidates && t.receipts[k].created + RECEIPT_RETENTION < now) :: t.receipts[k])
  }

  // ---------------------------------------------------------------- the change feed

  datatype Reader = Reader(scope: Scope, cursor: nat, mirror: map<Id, Record>, more: bool)

  function NumbersAfter(records: map<Target, Stored>, s: Scope, cursor: nat): set<nat> {
    set k | k in records && k.scope == s && records[k].num > cursor :: records[k].num
  }

  // The sequence numbers of one page, in order.
  function PageNumbers(records: map<Target, Stored>, s: Scope, cursor: nat, limit: int): seq<nat> {
    var all := Ascending(NumbersAfter(records, s, cursor));
    var size := Clamp(1, limit, MAX_PAGE_RECORDS);
    if |all| <= size then all else all[..size]
  }

  function Delivered(records: map<Target, Stored>, s: Scope, page: seq<nat>): map<Id, Record> {
    map id | id in (set k | k in records && k.scope == s :: k.id) && records[Target(s, id)].num in page
           :: records[Target(s, id)].record
  }

  function ReadPage(records: map<Target, Stored>, r: Reader, limit: int): Reader {
    var page := PageNumbers(records, r.scope, r.cursor, limit);
    Reader(
      r.scope,
      if page == [] then r.cursor else page[|page| - 1],
      r.mirror + Delivered(records, r.scope, page),
      |NumbersAfter(records, r.scope, r.cursor)| > |page|)
  }

  // The scope as a reader should hold it.
  function ScopeView(records: map<Target, Stored>, s: Scope): map<Id, Record> {
    map id | id in (set k | k in records && k.scope == s :: k.id) :: records[Target(s, id)].record
  }

  // Everything numbered up to the cursor is held as it stands, and nothing but the scope's IDs is.
  ghost predicate Follows(records: map<Target, Stored>, r: Reader) {
    && (forall k :: k in records && k.scope == r.scope && records[k].num <= r.cursor ==>
          k.id in r.mirror && r.mirror[k.id] == records[k].record)
    && (forall id :: id in r.mirror ==> Target(r.scope, id) in records)
  }

  ghost predicate NumbersDistinct(records: map<Target, Stored>) {
    forall j, k :: j in records && k in records && records[j].num == records[k].num ==> j == k
  }

  lemma {:induction false} PageCoversPrefix(all: seq<nat>, n: nat, x: nat)
    requires Increasing(all) && 0 < n <= |all| && x in all && x <= all[n - 1]
    ensures x in all[..n]
  {
    var i :| 0 <= i < |all| && all[i] == x;
    assert all[..n][i] == x;
  }

  function LastOr(page: seq<nat>, cursor: nat): nat {
    if page == [] then cursor else page[|page| - 1]
  }

  // A page holds every number up to its last, and all of them when it is not cut.
  lemma {:induction false} PageIsPrefix(records: map<Target, Stored>, s: Scope, cursor: nat, limit: int)
    ensures var numbers := NumbersAfter(records, s, cursor);
      var page := PageNumbers(records, s, cursor, limit);
      var last := LastOr(page, cursor);
      && last >= cursor && (page != [] ==> last in numbers && last > cursor)
      && (forall x :: x in page ==> x in numbers)
      && (forall x :: x in numbers && x <= last ==> x in page)
      && |page| <= |numbers|
      && (|numbers| > |page| ==> page != [])
      && (|numbers| == |page| ==> forall x :: x in numbers ==> x in page)
  {
    var numbers := NumbersAfter(records, s, cursor);
    var all := Ascending(numbers);
    var page := PageNumbers(records, s, cursor, limit);
    AscendingIncreases(numbers);
    assert page == all[..|page|];
    assert forall x :: x in numbers ==> x > cursor;
    assert forall x :: x in page ==> x in all;
    if page != [] {
      assert page[|page| - 1] in page;
      forall x | x in numbers && x <= page[|page| - 1] ensures x in page {
        PageCoversPrefix(all, |page|, x);
      }
    }
  }

  lemma PageSize(records: map<Target, Stored>, s: Scope, cursor: nat, limit: int)
    ensures |NumbersAfter(records, s, cursor)| > |PageNumbers(records, s, cursor, limit)|
        <==> |NumbersAfter(records, s, cursor)| > Clamp(1, limit, 500)
  {
  }

  lemma DeliveredIs(records: map<Target, Stored>, s: Scope, page: seq<nat>)
    ensures forall id ::
      id in Delivered(records, s, page) <==> Target(s, id) in records && records[Target(s, id)].num in page
    ensures forall id :: id in Delivered(records, s, page) ==>
      Delivered(records, s, page)[id] == records[Target(s, id)].record
    ensures forall id :: id in ScopeView(records, s) <==> Target(s, id) in records
    ensures forall id :: id in ScopeView(records, s) ==> ScopeView(records, s)[id] == records[Target(s, id)].record
  {
    forall id | Target(s, id) in records ensures id in set k | k in records && k.scope == s :: k.id {
      assert Target(s, id).id == id;
    }
  }

  lemma InNumbers(records: map<Target, Stored>, s: Scope, cursor: nat)
    ensures forall k :: k in records && k.scope == s && records[k].num > cursor ==>
      records[k].num in NumbersAfter(records, s, cursor)
    ensures forall x :: x in NumbersAfter(records, s, cursor) ==>
      exists k :: k in records && k.scope == s && records[k].num == x
  {
  }

  // A page leaves the reader following the scope; without more to come it holds all of it.
  lemma {:induction false} ReadKeepsFollowing(records: map<Target, Stored>, r: Reader, limit: int)
    requires Follows(records, r)
    ensures var after := ReadPage(records, r, limit);
      && Follows(records, after)
      && after.scope == r.scope && after.cursor >= r.cursor
      && (after.cursor == r.cursor || exists k :: k in records && k.scope == r.scope && records[k].num == after.cursor)
      && (after.more ==> after.cursor > r.cursor)
      && (after.more <==> |NumbersAfter(records, r.scope, r.cursor)| > Clamp(1, limit, 500))
      && (!after.more ==> after.mirror == ScopeView(records, r.scope))
  {
    PageSize(records, r.scope, r.cursor, limit);
    hide PageNumbers, NumbersAfter, Delivered, ScopeView;
    var s := r.scope;
    var page := PageNumbers(records, s, r.cursor, limit);
    var after := ReadPage(records, r, limit);
    PageIsPrefix(records, s, r.cursor, limit);
    DeliveredIs(records, s, page);
    InNumbers(records, s, r.cursor);
    forall k | k in records && k.scope == s && (records[k].num <= after.cursor || !after.more)
      ensures k.id in after.mirror && after.mirror[k.id] == records[k].record
    {
      assert k == Target(s, k.id);
    }
    if !after.more {
      assert forall id :: id in after.mirror ==> Target(s, id) in records;
    }
  }

  // ---------------------------------------------------------------- the tables in place

  datatype Upload = Upload(image: Id, bytes: nat, actual: Option<Id>, declared: Id)

  const MAX_IMAGE_BYTES := 524_288

  function Refused(u: Upload): Option<ImageError> {
    if u.bytes == 0 then Some(Empty)
    else if u.bytes > MAX_IMAGE_BYTES then Some(TooLarge)
    else if u.actual != Some(u.declared) then Some(Unsupported)
    else None
  }

  class CoverStore {
    var records: map<Target, Stored>
    var receipts: map<Target, Receipt>
    var images: map<Target, nat>
    var sequence: nat

    ghost function State(): Tables
      reads this
    {
      Tables(records, receipts, images, sequence)
    }

    constructor ()
      ensures State() == Tables(map[], map[], map[], 0)
    {
      records, receipts, images, sequence := map[], map[], map[], 0;
    }

    // Data only: the caller stores the receipt in the same transaction.
    method ApplyMutation(s: Scope, m: Mutation) returns (d: Decision)
      modifies this`records, this`sequence
      ensures d == Applied(old(State()), s, m)
      ensures d.Accept? ==> sequence == old(sequence) + 1
      ensures d.Accept? ==> records == old(records)[Target(s, m.cover) := Stored(d.record, sequence)]
      ensures !d.Accept? ==> State() == old(State())
      ensures d.Accept? <==>
        m.base == Revision(old(records), Target(s, m.cover)) && KnowsPhoto(old(State()), s, m.operation)
      ensures d.Accept? ==> d.record.revision == m.base + 1 && Shows(d.record.value, m.operation)
    {
      var k := Target(s, m.cover);
      var current := if k in records then records[k].record.revision else 0;
      if current != m.base {
        return Conflict(CurrentRecord(records, k));
      }
      if m.operation.Put? {
        var cover := m.operation.cover;
        if cover.Photo? && Target(s, cover.image) !in images {
          return ImageMissing(cover.image);
        }
      }
      var record := Record(current + 1, ValueOf(m.operation));
      sequence := sequence + 1;
      records := records[k := Stored(record, sequence)];
      d := Accept(record);
    }

    method CoverMutation(s: Scope, m: Mutation, now: nat) returns (d: Decision)
      modifies this
      ensures d == Decide(old(State()), s, m)
      ensures State() ==
        if d.Accept?
        then Install(old(State()).(sequence := old(sequence) + 1), s, m, d.record, old(sequence) + 1, now)
        else old(State())
      ensures d.Accept? ==> Shows(records[Target(s, m.cover)].record.value, m.operation)
      ensures d.Accept? ==> receipts[Target(s, m.id)].response == records[Target(s, m.cover)].record == d.record
    {
      var key := Target(s, m.id);
      if key in receipts {
        if receipts[key].mutation != m {
          return KeyReused;
        }
        return Replay(receipts[key].response);
      }
      d := ApplyMutation(s, m);
      if d.Accept? {
        receipts := receipts[key := Receipt(d.record, m, now)];
      }
    }

    method StoreUpload(s: Scope, u: Upload, now: nat) returns (r: Result<Id, ImageError>)
      modifies this`images
      ensures Refused(u).Some? ==> r == Err(Refused(u).value) && State() == old(State())
      ensures Refused(u).None? ==>
        match StoreImage(old(State()), s, u.image, now)
        case Err(e) => r == Err(e) && State() == old(State())
        case Ok(t) => r == Ok(u.image) && State() == t
    {
      if u.bytes == 0 {
        return Err(Empty);
      }
      if u.bytes > MAX_IMAGE_BYTES {
        return Err(TooLarge);
      }
      if u.actual != Some(u.declared) {
        return Err(Unsupported);
      }
      var k := Target(s, u.image);
      if k in images {
        images := images[k := now];
      } else {
        if |ImagesOf(images, s)| >= MAX_IMAGES_PER_SCOPE {
          return Err(Quota);
        }
        images := images[k := now];
      }
      r := Ok(u.image);
    }

    method IsUsed(k: Target) returns (used: bool)
      ensures used <==> Used(records, k)
    {
      var all := set r | r in records && r.scope == k.scope && Names(records[r].record.value, k.id);
      used := all != {};
      assert forall r :: r in all <==> r in records && r.scope == k.scope && Names(records[r].record.value, k.id);
      if used {
        var r :| r in all;
        assert Names(records[r].record.value, k.id);
      }
    }

    // One batch of the purge: candidates were selected before the locks, each is checked again.
    method DeleteUnused(candidates: set<Target>, now: nat) returns (deleted: nat)
      modifies this`images
      ensures State() == WithoutUnused(old(State()), candidates, now)
      ensures deleted == |old(images)| - |images|
    {
      deleted := 0;
      var rest := candidates;
      while rest != {}
        invariant rest <= candidates
        invariant State() == WithoutUnused(old(State()), candidates - rest, now)
        invariant deleted == |old(images)| - |images|
        decreases |rest|
      {
        var k :| k in rest;
        var used := IsUsed(k);
        if k in images && images[k] + UNUSED_IMAGE_GRACE < now && !used {
          OneFewer(images, k);
          images := images - {k};
          deleted := deleted + 1;
        }
        rest := rest - {k};
      }
      assert candidates - rest == candidates;
    }

    // At most limit images that may go, listed without a lock.
    method SelectUnused(limit: nat, now: nat) returns (batch: set<Target>)
      ensures batch <= Removable(State(), now)
      ensures |batch| == Min(limit, |Removable(State(), now)|)
    {
      batch := {};
      var rest := images.Keys;
      while rest != {} && |batch| < limit
        invariant batch <= Removable(State(), now)
        invariant |batch| <= limit
        invariant rest <= images.Keys && Removable(State(), now) <= batch + rest
        decreases |rest|
      {
        var k :| k in rest;
        var used := IsUsed(k);
        if images[k] + UNUSED_IMAGE_GRACE < now && !used && k !in batch {
          batch := batch + {k};
        }
        rest := rest - {k};
      }
      SubsetSize(batch, Removable(State(), now));
      if rest == {} { assert batch == Removable(State(), now); }
    }

    // Batch after batch, until one is not full: deletes exactly as many of the images that may go
    // as the batches have room for, and nothing else.
    method PurgeUnusedImages(batchRows: nat, maxBatches: nat, now: nat) returns (deleted: nat, ghost gone: set<Target>)
      requires batchRows > 0
      modifies this`images
      ensures gone <= Removable(old(State()), now)
      ensures State() == old(State()).(images := Without(old(images), gone))
      ensures deleted == |gone| == Min(|Removable(old(State()), now)|, batchRows * maxBatches)
    {
      hide Removable, WithoutUnused, Without;
      deleted, gone := 0, {};
      ghost var t := State();
      ghost var all := Removable(t, now);
      WithoutNone(images);
      for n := 0 to maxBatches
        invariant gone <= all && deleted == |gone| == Min(|all|, batchRows * n)
        invariant State() == t.(images := Without(t.images, gone))
      {
        assert batchRows * (n + 1) == batchRows * n + batchRows;
        RemovableAfter(t, gone, now);
        var batch := SelectUnused(batchRows, now);
        PurgeNext(t, gone, batch, now);
        var count := DeleteUnused(batch, now);
        deleted := deleted + count;
        gone := gone + batch;
        if |batch| < batchRows {
          assert |all| <= batchRows * maxBatches by { MulGrows(batchRows, n + 1, maxBatches); }
          return;
        }
      }
    }
  }

  function Without(images: map<Target, nat>, gone: set<Target>): map<Target, nat> {
    map k | k in images && k !in gone :: images[k]
  }

  lemma WithoutNone(images: map<Target, nat>)
    ensures Without(images, {}) == images
  {
  }

  // What may still go once some of it has gone.
  lemma RemovableAfter(t: Tables, gone: set<Target>, now: nat)
    requires gone <= Removable(t, now)
    ensures Removable(t.(images := Without(t.images, gone)), now) == Removable(t, now) - gone
    ensures |Removable(t, now) - gone| == |Removable(t, now)| - |gone|
  {
    assert Removable(t, now) == gone + (Removable(t, now) - gone);
  }

  lemma {:induction false} PurgeNext(t: Tables, gone: set<Target>, batch: set<Target>, now: nat)
    requires gone <= Removable(t, now) && batch <= Removable(t, now) - gone
    ensures var u := t.(images := Without(t.images, gone));
      WithoutUnused(u, batch, now) == t.(images := Without(t.images, gone + batch))
      && |u.images| - |WithoutUnused(u, batch, now).images| == |batch|
    ensures |gone + batch| == |gone| + |batch|
  {
    var u := t.(images := Without(t.images, gone));
    var v := t.(images := Without(t.images, gone + batch));
    assert WithoutUnused(u, batch, now).images == v.images;
    SizeWithout(u.images, v.images, batch);
  }

  lemma {:induction false} SizeWithout(more: map<Target, nat>, fewer: map<Target, nat>, batch: set<Target>)
    requires batch <= more.Keys && fewer.Keys == more.Keys - batch
    ensures |more| - |fewer| == |batch|
  {
    assert more.Keys == fewer.Keys + batch;
    assert |more| == |more.Keys| && |fewer| == |fewer.Keys|;
  }

  lemma OneFewer<K, V>(m: map<K, V>, k: K)
    requires k in m
    ensures |m - {k}| == |m| - 1
  {
    assert (m - {k}).Keys == m.Keys - {k};
    assert |m| == |m.Keys| && |m - {k}| == |(m - {k}).Keys|;
  }

  lemma MulGrows(x: nat, a: nat, b: nat)
    requires a <= b
    ensures x * a <= x * b
  {
  }
}
