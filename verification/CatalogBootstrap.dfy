// Paging one pinned generation: what a page holds, and what paging to the end delivers.

module CatalogBootstrap {
  import opened Prelude
  import opened CatalogTypes

  const MAX_PAGE_ROWS := 1_000

  // The content of a signed page token.
  datatype Position = Position(entity: Entity, after: nat)

  datatype PageOf = PageOf(keys: seq<Key>, next: Option<Position>)

  const START := Position(Library, 0)

  function NextEntity(e: Entity): Option<Entity> {
    if Rank(e) + 1 < |ENTITY_ORDER| then Some(ENTITY_ORDER[Rank(e) + 1]) else None
  }

  // WHERE id > after, in one entity's table of the pinned generation.
  function InEntityAfter(rows: Rows, at: Position): set<Key> {
    set k | k in rows && k.entity == at.entity && k.id > at.after
  }

  // One page: LIMIT size + 1 tells whether the entity has more.
  function ReadPage(rows: Rows, at: Position, limit: int): PageOf {
    var size := Clamp(1, limit, MAX_PAGE_ROWS);
    var listed := Listing(false, InEntityAfter(rows, at));
    if |listed| > size then
      PageOf(listed[..size], Some(Position(at.entity, listed[size - 1].id)))
    else
      PageOf(listed, match NextEntity(at.entity) case Some(e) => Some(Position(e, 0)) case None => None)
  }

  // ---------------------------------------------------------------- what is still to come

  predicate NoEmptyId(rows: Rows) {
    forall k :: k in rows ==> k.id > 0
  }

  // The rows a client at this position has not received yet.
  function Ahead(rows: Rows, at: Position): set<Key> {
    set k | k in rows && Before(false, Key(at.entity, at.after), k)
  }

  function AheadOf(rows: Rows, at: Option<Position>): set<Key> {
    match at case None => {} case Some(p) => Ahead(rows, p)
  }

  lemma AllAheadOfStart(rows: Rows)
    requires NoEmptyId(rows)
    ensures Ahead(rows, START) == rows.Keys
  {
  }

  function Later(rows: Rows, at: Position): set<Key> {
    set k | k in rows && Rank(k.entity) > Rank(at.entity)
  }

  // Moving on to the next entity skips nothing.
  lemma LaterIsNext(rows: Rows, at: Position)
    requires NoEmptyId(rows)
    ensures AheadOf(rows, match NextEntity(at.entity) case Some(e) => Some(Position(e, 0)) case None => None)
         == Later(rows, at)
  {
    match NextEntity(at.entity)
    case Some(e) =>
      assert Rank(e) == Rank(at.entity) + 1;
    case None =>
      assert Rank(at.entity) == 3;
  }

  lemma AheadSplits(rows: Rows, at: Position)
    ensures Listing(false, Ahead(rows, at))
         == Listing(false, InEntityAfter(rows, at)) + Listing(false, Later(rows, at))
  {
    assert Ahead(rows, at) == InEntityAfter(rows, at) + Later(rows, at);
    ListingSplit(false, Ahead(rows, at), InEntityAfter(rows, at), Later(rows, at));
  }

  // The keys after the last one of a full page are the ones not on it.
  lemma PageTail(rows: Rows, at: Position, size: nat)
    requires 0 < size < |Listing(false, InEntityAfter(rows, at))|
    ensures var listed := Listing(false, InEntityAfter(rows, at));
            Listing(false, InEntityAfter(rows, Position(at.entity, listed[size - 1].id))) == listed[size..]
  {
    var listed := Listing(false, InEntityAfter(rows, at));
    var last := listed[size - 1];
    assert last in InEntityAfter(rows, at);
    ListingSorted(false, InEntityAfter(rows, at));
    TailIsListing(false, listed, size, InEntityAfter(rows, Position(at.entity, last.id)));
  }

  // A page with more of its entity to come.
  lemma {:induction false} FullPageAdvances(rows: Rows, at: Position, size: nat)
    requires 0 < size < |Listing(false, InEntityAfter(rows, at))|
    ensures var listed := Listing(false, InEntityAfter(rows, at));
            var next := Position(at.entity, listed[size - 1].id);
            Listing(false, Ahead(rows, at)) == listed[..size] + Listing(false, Ahead(rows, next))
  {
    var listed := Listing(false, InEntityAfter(rows, at));
    var next := Position(at.entity, listed[size - 1].id);
    AheadSplits(rows, at);
    AheadSplits(rows, next);
    PageTail(rows, at, size);
    assert Later(rows, next) == Later(rows, at);
    SplitAt(listed, size);
    ConcatAssociative(listed[..size], listed[size..], Listing(false, Later(rows, at)));
  }

  // One page delivers the next rows in order, for any limit, and nothing is skipped or repeated.
  lemma {:induction false} PageAdvances(rows: Rows, at: Position, limit: int)
    requires NoEmptyId(rows)
    ensures Listing(false, Ahead(rows, at))
         == ReadPage(rows, at, limit).keys + Listing(false, AheadOf(rows, ReadPage(rows, at, limit).next))
  {
    var size := Clamp(1, limit, MAX_PAGE_ROWS);
    if |Listing(false, InEntityAfter(rows, at))| > size {
      FullPageAdvances(rows, at, size);
    } else {
      AheadSplits(rows, at);
      LaterIsNext(rows, at);
    }
  }

  lemma {:induction false} PageCostsEffort(rows: Rows, at: Position, limit: int)
    requires NoEmptyId(rows)
    ensures Effort(rows, ReadPage(rows, at, limit).next) < Effort(rows, Some(at))
  {
    var page := ReadPage(rows, at, limit);
    PageAdvances(rows, at, limit);
    assert |Ahead(rows, at)| == |page.keys| + |AheadOf(rows, page.next)| by {
      assert |Listing(false, Ahead(rows, at))| == |page.keys| + |Listing(false, AheadOf(rows, page.next))|;
    }
  }

  // Rows and entity ends still to come: an upper bound on the pages still to come.
  function Effort(rows: Rows, at: Option<Position>): nat {
    match at
    case None => 0
    case Some(p) => |Ahead(rows, p)| + |ENTITY_ORDER| - Rank(p.entity)
  }

  // A client pages with the given limits, one page each, until it is told to stop.
  datatype Progress = Progress(received: seq<Key>, next: Option<Position>)

  function PageThrough(rows: Rows, at: Option<Position>, limits: seq<int>): Progress
    decreases |limits|
  {
    if at.None? || limits == [] then Progress([], at)
    else
      var page := ReadPage(rows, at.value, limits[0]);
      var rest := PageThrough(rows, page.next, limits[1..]);
      Progress(page.keys + rest.received, rest.next)
  }

  lemma {:induction false} PageThroughKeepsOrder(rows: Rows, at: Option<Position>, limits: seq<int>)
    requires NoEmptyId(rows)
    ensures var p := PageThrough(rows, at, limits);
            && Listing(false, AheadOf(rows, at)) == p.received + Listing(false, AheadOf(rows, p.next))
            && (|limits| >= Effort(rows, at) ==> p.next == None)
    decreases |limits|
  {
    if at.Some? && limits != [] {
      PageAdvances(rows, at.value, limits[0]);
      PageCostsEffort(rows, at.value, limits[0]);
      var page := ReadPage(rows, at.value, limits[0]);
      var rest := PageThrough(rows, page.next, limits[1..]);
      PageThroughKeepsOrder(rows, page.next, limits[1..]);
      ConcatAssociative(page.keys, rest.received, Listing(false, AheadOf(rows, rest.next)));
    }
  }

  // Whatever limits a client uses, it has every row exactly once, in order, within rows + 4 pages.
  lemma BootstrapDeliversExactlyOnce(rows: Rows, limits: seq<int>)
    requires NoEmptyId(rows)
    ensures var p := PageThrough(rows, Some(START), limits);
            && p.received <= Listing(false, rows.Keys)
            && (p.next == None ==> p.received == Listing(false, rows.Keys))
            && (|limits| >= |rows| + |ENTITY_ORDER| ==> p.next == None)
  {
    AllAheadOfStart(rows);
    PageThroughKeepsOrder(rows, Some(START), limits);
    assert Rank(Library) == 0;
    assert |Ahead(rows, START)| == |rows.Keys| == |rows|;
  }
}
