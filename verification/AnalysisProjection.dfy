// The incremental analysis projection: copy the unchanged rows of the previous generation,
// rewrite the others, journal the difference.

module AnalysisProjection {
  import opened Prelude
  import opened ChangeJournal
  import opened Evidence

  datatype Coord = Coord(x: int, y: int)

  type Vector = Option<seq<nat>>

  // One analysis row as AudioMuse holds it at one moment.
  datatype Audio = Audio(scalar: nat, musicnn: Vector, clap: Vector)

  // Fingerprints are collision-free, so each stands for what it covers; an empty vector hashes
  // like an absent one. A migration may clear the first two to force a recompute.
  datatype Fps = Fps(scalar: Option<nat>, umap: Option<Coord>, musicnn: Vector, clap: Vector)

  datatype Item = Item(fps: Fps, scalar: nat, umap: Option<Coord>, musicnn: Vector, clap: Vector)

  function VectorFp(v: Vector): Vector {
    if v.Some? && v.value == [] then None else v
  }

  function MakeItem(a: Audio, xy: Option<Coord>): Item {
    Item(Fps(Some(a.scalar), xy, VectorFp(a.musicnn), VectorFp(a.clap)), a.scalar, xy, a.musicnn, a.clap)
  }

  // A stored row fingerprints what it stores.
  predicate Consistent(item: Item) {
    && (item.fps.scalar.Some? ==> item.fps.scalar.value == item.scalar)
    && (item.fps.umap == item.umap || (item.fps.scalar.None? && item.fps.umap.None?))
    && item.fps.musicnn == VectorFp(item.musicnn)
    && item.fps.clap == VectorFp(item.clap)
  }

  datatype Compared = Compared(changed: bool, rewrite: bool)

  // How a stored row compares with the current one, as the SQL comparison and its reader decide.
  function ItemState(stored: Option<Item>, a: Audio, xy: Option<Coord>): Compared {
    if stored.None? then Compared(true, true)
    else
      var item := stored.value;
      var scalarSame := item.fps.scalar.Some? && item.scalar == a.scalar;
      var scalarFpSame := scalarSame || Some(a.scalar) == item.fps.scalar;
      var umapFpSame :=
        if xy.None? then item.fps.umap.None?
        else (item.fps.umap.Some? && xy == item.umap) || xy == item.fps.umap;
      var vectorNullsSame := (a.musicnn.None? <==> item.musicnn.None?) && (a.clap.None? <==> item.clap.None?);
      var vectorFpsSame := VectorFp(a.musicnn) == item.fps.musicnn && VectorFp(a.clap) == item.fps.clap;
      var changed := !(scalarFpSame && umapFpSame && vectorFpsSame);
      Compared(changed, changed || !vectorNullsSame)
  }

  // The comparison finds exactly the rows whose fingerprints differ from a recomputed row's, and
  // rewrites exactly the rows that differ from it at all.
  lemma ItemStateMeaning(item: Item, a: Audio, xy: Option<Coord>)
    requires Consistent(item)
    ensures var s := ItemState(Some(item), a, xy);
      && (s.changed <==> item.fps != MakeItem(a, xy).fps)
      && (s.rewrite <==> item != MakeItem(a, xy))
  {
  }

  // ---------------------------------------------------------------- generations and their view

  datatype Generation = Generation(items: map<Id, Item>, links: Links)

  datatype PublicLink = PublicLink(analysis: Option<nat>, status: Status, tier: Option<nat>,
                                   complete: bool, flags: set<Flag>, review: Option<Review>)

  datatype Change =
    | ItemUpsert(item: Id, fps: Fps)
    | ItemDelete(item: Id)
    | LinkUpsert(track: Id, link: PublicLink)
    | LinkDelete(track: Id)

  // What clients compare: item fingerprints and cleaned links.
  datatype View = View(items: map<Id, Fps>, links: map<Id, PublicLink>)

  // The sanitizer of one text: its surrounding space and its spelling in Unicode are dropped, and
  // a text of which nothing is left is none.
  type Clean = nat -> Option<nat>

  function Cleaned(text: Option<nat>, clean: Clean): Option<nat> {
    if text.Some? then clean(text.value) else None
  }

  // A link as its fingerprint covers it.
  function Public(link: Link, clean: Clean): PublicLink {
    PublicLink(Cleaned(link.analysis, clean), link.status, Cleaned(link.tier, clean), link.complete, link.flags, link.review)
  }

  function ViewOf(g: Generation, clean: Clean): View {
    View(FpsOf(g.items), PublicOf(g.links, clean))
  }

  function FpsOf(items: map<Id, Item>): map<Id, Fps> {
    map a | a in items :: items[a].fps
  }

  function PublicOf(links: Links, clean: Clean): map<Id, PublicLink> {
    map t | t in links :: Public(links[t], clean)
  }

  function Apply(v: View, c: Change): View {
    match c
    case ItemUpsert(a, fps) => v.(items := v.items[a := fps])
    case ItemDelete(a) => v.(items := v.items - {a})
    case LinkUpsert(t, link) => v.(links := v.links[t := link])
    case LinkDelete(t) => v.(links := v.links - {t})
  }

  function Patched<T>(m: map<Id, T>, from: map<Id, T>, ids: seq<Id>): map<Id, T> {
    m + map a | a in from && a in ids :: from[a]
  }

  function Without<T>(m: map<Id, T>, ids: seq<Id>): map<Id, T> {
    map a | a in m && a !in ids :: m[a]
  }

  function Replay(v: View, cs: seq<Change>): View {
    if cs == [] then v else Apply(Replay(v, cs[..|cs| - 1]), cs[|cs| - 1])
  }

  lemma {:induction false} ReplayConcat(v: View, a: seq<Change>, b: seq<Change>)
    ensures Replay(v, a + b) == Replay(Replay(v, a), b)
    decreases |b|
  {
    if b == [] {
      assert a + b == a;
    } else {
      assert (a + b)[..|a + b| - 1] == a + b[..|b| - 1];
      ReplayConcat(v, a, b[..|b| - 1]);
    }
  }

  // ---------------------------------------------------------------- one projection

  // What one run reads: the catalogue's tracks with their qualified links, the coordinates, the
  // analysis rows when they are compared and again when the rewritten ones are read, whether the
  // published analysis is complete, whether track IDs are being rewritten, and pinned generations.
  datatype Run = Run(order: seq<Id>, links: Links, umap: map<Id, Coord>, compared: map<Id, Audio>,
                     reread: map<Id, Audio>, complete: bool, rewriting: bool, pinned: set<nat>)

  datatype Db = Db(generation: nat, generations: map<nat, Generation>, journal: Journal<Change>)

  datatype ProjectionError = AnalysisChanged | Deferred

  function Previous(db: Db): Generation {
    if db.generation in db.generations then db.generations[db.generation] else Generation(map[], map[])
  }

  function Xy(umap: map<Id, Coord>, a: Id): Option<Coord> {
    if a in umap then Some(umap[a]) else None
  }

  function StoredAt(items: map<Id, Item>, a: Id): Option<Item> {
    if a in items then Some(items[a]) else None
  }

  function StateOf(items: map<Id, Item>, run: Run, a: Id): Compared
    requires a in run.compared
  {
    ItemState(StoredAt(items, a), run.compared[a], Xy(run.umap, a))
  }

  function ChangedItems(items: map<Id, Item>, run: Run): set<Id> {
    set a | a in run.compared && StateOf(items, run, a).changed
  }

  function RewrittenItems(items: map<Id, Item>, run: Run): set<Id> {
    set a | a in run.compared && StateOf(items, run, a).rewrite
  }

  function RemovedItems(items: map<Id, Item>, run: Run): set<Id> {
    items.Keys - run.compared.Keys
  }

  function ChangedLinks(links: Links, run: Run, clean: Clean): (r: set<Id>)
    ensures r <= run.links.Keys
  {
    set t | t in run.links && (t !in links || Public(links[t], clean) != Public(run.links[t], clean))
  }

  function RewrittenLinks(links: Links, run: Run): set<Id> {
    set t | t in run.links && (t !in links || links[t] != run.links[t])
  }

  function RemovedLinks(links: Links, run: Run): set<Id> {
    links.Keys - run.links.Keys
  }

  // Rewritten for a vector's NULL only, but with other values by the time they are read.
  function MovedItems(items: map<Id, Item>, run: Run): set<Id> {
    set a | a in RewrittenItems(items, run) - ChangedItems(items, run) && a in run.reread
            && (a !in items || items[a].fps != MakeItem(run.reread[a], Xy(run.umap, a)).fps)
  }

  function JournaledItems(items: map<Id, Item>, run: Run): (r: set<Id>)
    ensures r <= run.compared.Keys
  {
    ChangedItems(items, run) + MovedItems(items, run)
  }

  predicate NothingChanged(prior: Generation, run: Run, clean: Clean) {
    && ChangedItems(prior.items, run) == {}
    && RemovedItems(prior.items, run) == {}
    && ChangedLinks(prior.links, run, clean) == {}
    && RemovedLinks(prior.links, run) == {}
  }

  predicate Rereadable(items: map<Id, Item>, run: Run) {
    RewrittenItems(items, run) <= run.reread.Keys
  }

  function Carried<T>(rows: map<Id, T>, dropped: set<Id>): map<Id, T> {
    map a | a in rows && a !in dropped :: rows[a]
  }

  function NewItems(items: map<Id, Item>, run: Run): (r: map<Id, Item>)
    requires Rereadable(items, run)
    ensures r.Keys == run.compared.Keys
    ensures forall a :: a in r && a !in RewrittenItems(items, run) ==> a in items && r[a] == items[a]
    ensures forall a :: a in RewrittenItems(items, run) ==> r[a] == MakeItem(run.reread[a], Xy(run.umap, a))
  {
    Carried(items, RewrittenItems(items, run) + RemovedItems(items, run))
    + map a | a in RewrittenItems(items, run) :: MakeItem(run.reread[a], Xy(run.umap, a))
  }

  function NewLinks(links: Links, run: Run): (r: Links)
    ensures r == run.links
  {
    Carried(links, RewrittenLinks(links, run) + RemovedLinks(links, run))
    + map t | t in RewrittenLinks(links, run) :: run.links[t]
  }

  function ItemUpserts(ids: seq<Id>, items: map<Id, Item>): (r: seq<Change>)
    requires forall a :: a in ids ==> a in items
    ensures |r| == |ids|
  {
    seq(|ids|, i requires 0 <= i < |ids| => ItemUpsert(ids[i], items[ids[i]].fps))
  }

  function ItemDeletes(ids: seq<Id>): (r: seq<Change>)
    ensures |r| == |ids|
  {
    seq(|ids|, i requires 0 <= i < |ids| => ItemDelete(ids[i]))
  }

  function LinkUpserts(ids: seq<Id>, links: Links, clean: Clean): (r: seq<Change>)
    requires forall a :: a in ids ==> a in links
    ensures |r| == |ids|
  {
    seq(|ids|, i requires 0 <= i < |ids| => LinkUpsert(ids[i], Public(links[ids[i]], clean)))
  }

  function LinkDeletes(ids: seq<Id>): (r: seq<Change>)
    ensures |r| == |ids|
  {
    seq(|ids|, i requires 0 <= i < |ids| => LinkDelete(ids[i]))
  }

  // The elements of a set in catalogue order.
  function InOrder(order: seq<Id>, chosen: set<Id>): (r: seq<Id>)
    ensures forall t :: t in r <==> t in order && t in chosen
  {
    if order == [] then []
    else
      var last := order[|order| - 1];
      InOrder(order[..|order| - 1], chosen) + if last in chosen then [last] else []
  }

  predicate LinksCovered(run: Run) {
    forall t :: t in run.links ==> t in run.order
  }

  function Changes(prior: Generation, run: Run, clean: Clean): seq<Change>
    requires Rereadable(prior.items, run)
  {
    ItemUpserts(Ascending(JournaledItems(prior.items, run)), NewItems(prior.items, run))
    + ItemDeletes(Ascending(RemovedItems(prior.items, run)))
    + LinkUpserts(InOrder(run.order, ChangedLinks(prior.links, run, clean)), run.links, clean)
    + LinkDeletes(Ascending(RemovedLinks(prior.links, run)))
  }

  function ProjectionCompaction(j: Journal<Change>, run: Run): Compaction {
    Compaction(j.epoch, j.head, RetentionLimit(|run.compared| + |run.links|), false, None, None, None)
  }

  function JournalAfter(j: Journal<Change>, events: seq<Change>, run: Run): Journal<Change> {
    Compacted(Appended(j, events), ProjectionCompaction(Appended(j, events), run))
  }

  function Pruned(generations: map<nat, Generation>, active: nat, pinned: set<nat>): map<nat, Generation> {
    map g | g in generations && (g >= active || g in pinned) :: generations[g]
  }

  // Ok(None) is a run that finds nothing to do; an error rolls everything back.
  function Project(db: Db, run: Run, clean: Clean): Result<Option<Db>, ProjectionError> {
    var prior := Previous(db);
    if db.generation > 0 && run.complete && NothingChanged(prior, run, clean) then Ok(None)
    else if !Rereadable(prior.items, run) then Err(AnalysisChanged)
    else if run.rewriting then Err(Deferred)
    else
      var next := Generation(NewItems(prior.items, run), NewLinks(prior.links, run));
      Ok(Some(Db(db.generation + 1,
                 Pruned(db.generations[db.generation + 1 := next], db.generation + 1, run.pinned),
                 JournalAfter(db.journal, Changes(prior, run, clean), run))))
  }

  // ---------------------------------------------------------------- incremental equals recomputed

  // Computed from scratch over one reading of the analysis rows.
  function Recompute(rows: map<Id, Audio>, umap: map<Id, Coord>, links: Links): Generation {
    Generation(map a | a in rows :: MakeItem(rows[a], Xy(umap, a)), links)
  }

  // Each row as the run last saw it.
  function Seen(items: map<Id, Item>, run: Run): map<Id, Audio>
    requires Rereadable(items, run)
  {
    map a | a in run.compared :: if a in RewrittenItems(items, run) then run.reread[a] else run.compared[a]
  }

  ghost predicate AllConsistent(items: map<Id, Item>) {
    forall a :: a in items ==> Consistent(items[a])
  }

  lemma ItemsRecomputed(items: map<Id, Item>, run: Run)
    requires AllConsistent(items) && Rereadable(items, run)
    ensures NewItems(items, run) == Recompute(Seen(items, run), run.umap, run.links).items
  {
    var all := Recompute(Seen(items, run), run.umap, run.links).items;
    var next := NewItems(items, run);
    forall a ensures (a in next <==> a in all) && (a in all ==> next[a] == all[a]) {
      if a in items && a in run.compared {
        ItemStateMeaning(items[a], run.compared[a], Xy(run.umap, a));
      }
    }
  }

  lemma MadeConsistent(rows: map<Id, Audio>, umap: map<Id, Coord>, links: Links)
    ensures AllConsistent(Recompute(rows, umap, links).items)
  {
  }

  // A projection that writes stores exactly what computing everything from scratch would: every
  // link, and every item as last seen, however few rows it rewrote.
  lemma {:induction false} IncrementalIsRecompute(db: Db, run: Run, clean: Clean)
    requires AllConsistent(Previous(db).items)
    requires var r := Project(db, run, clean); r.Ok? && r.value.Some?
    ensures var next := Project(db, run, clean).value.value;
      && Rereadable(Previous(db).items, run)
      && next.generation == db.generation + 1
      && Previous(next) == Recompute(Seen(Previous(db).items, run), run.umap, run.links)
      && AllConsistent(Previous(next).items)
  {
    hide NewItems, NewLinks, Seen, MakeItem, NothingChanged, JournalAfter, Changes, Consistent;
    ItemsRecomputed(Previous(db).items, run);
    MadeConsistent(Seen(Previous(db).items, run), run.umap, run.links);
  }

  // ---------------------------------------------------------------- the journal is the difference

  lemma PatchedNext<T>(m: map<Id, T>, from: map<Id, T>, ids: seq<Id>)
    ensures ids == [] ==> Patched(m, from, ids) == m
    ensures ids != [] && ids[|ids| - 1] in from ==>
      Patched(m, from, ids) == Patched(m, from, ids[..|ids| - 1])[ids[|ids| - 1] := from[ids[|ids| - 1]]]
  {
    if ids != [] { assert ids == ids[..|ids| - 1] + [ids[|ids| - 1]]; }
  }

  lemma {:induction false} ReplayItemUpserts(v: View, ids: seq<Id>, items: map<Id, Item>)
    requires forall a :: a in ids ==> a in items
    ensures Replay(v, ItemUpserts(ids, items)) == v.(items := Patched(v.items, FpsOf(items), ids))
    decreases |ids|
  {
    hide Patched;
    if ids == [] {
      PatchedNext(v.items, FpsOf(items), ids);
    } else {
      var init := ids[..|ids| - 1];
      assert ids == init + [ids[|ids| - 1]];
      assert ItemUpserts(ids, items)[..|ids| - 1] == ItemUpserts(init, items);
      ReplayItemUpserts(v, init, items);
      PatchedNext(v.items, FpsOf(items), ids);
    }
  }

  lemma {:induction false} ReplayItemDeletes(v: View, ids: seq<Id>)
    ensures Replay(v, ItemDeletes(ids)) == v.(items := Without(v.items, ids))
    decreases |ids|
  {
    if ids != [] {
      var init := ids[..|ids| - 1];
      assert ids == init + [ids[|ids| - 1]];
      assert ItemDeletes(ids)[..|ids| - 1] == ItemDeletes(init);
      ReplayItemDeletes(v, init);
    }
  }

  lemma {:induction false} ReplayLinkUpserts(v: View, ids: seq<Id>, links: Links, clean: Clean)
    requires forall a :: a in ids ==> a in links
    ensures Replay(v, LinkUpserts(ids, links, clean)) == v.(links := Patched(v.links, PublicOf(links, clean), ids))
    decreases |ids|
  {
    hide Patched;
    if ids == [] {
      PatchedNext(v.links, PublicOf(links, clean), ids);
    } else {
      var init := ids[..|ids| - 1];
      assert ids == init + [ids[|ids| - 1]];
      assert LinkUpserts(ids, links, clean)[..|ids| - 1] == LinkUpserts(init, links, clean);
      ReplayLinkUpserts(v, init, links, clean);
      PatchedNext(v.links, PublicOf(links, clean), ids);
    }
  }

  lemma {:induction false} ReplayLinkDeletes(v: View, ids: seq<Id>)
    ensures Replay(v, LinkDeletes(ids)) == v.(links := Without(v.links, ids))
    decreases |ids|
  {
    if ids != [] {
      var init := ids[..|ids| - 1];
      assert ids == init + [ids[|ids| - 1]];
      assert LinkDeletes(ids)[..|ids| - 1] == LinkDeletes(init);
      ReplayLinkDeletes(v, init);
    }
  }

  // Upserting what differs and deleting what vanished turns one map into the other.
  lemma PatchedIs<T>(m: map<Id, T>, next: map<Id, T>, changed: seq<Id>, removed: seq<Id>)
    requires forall a :: a in changed ==> a in next
    requires forall a :: a in removed <==> a in m && a !in next
    requires forall a :: a in next && a !in changed ==> a in m && m[a] == next[a]
    ensures Without(Patched(m, next, changed), removed) == next
  {
  }

  // What is journaled accounts for every fingerprint that moved.
  lemma JournaledCovers(items: map<Id, Item>, run: Run, a: Id)
    requires AllConsistent(items) && Rereadable(items, run)
    requires a in run.compared && a !in JournaledItems(items, run)
    ensures a in items && items[a].fps == NewItems(items, run)[a].fps
  {
    if a in items { ItemStateMeaning(items[a], run.compared[a], Xy(run.umap, a)); }
  }

  lemma {:induction false} ItemViews(items: map<Id, Item>, run: Run)
    requires AllConsistent(items) && Rereadable(items, run)
    ensures Without(Patched(FpsOf(items), FpsOf(NewItems(items, run)), Ascending(JournaledItems(items, run))),
                    Ascending(RemovedItems(items, run)))
         == FpsOf(NewItems(items, run))
  {
    hide JournaledItems, NewItems, Ascending;
    forall a | a in run.compared && a !in JournaledItems(items, run)
      ensures a in items && items[a].fps == NewItems(items, run)[a].fps
    {
      JournaledCovers(items, run, a);
    }
    PatchedIs(FpsOf(items), FpsOf(NewItems(items, run)), Ascending(JournaledItems(items, run)),
              Ascending(RemovedItems(items, run)));
  }

  lemma {:induction false} LinkViews(links: Links, run: Run, clean: Clean)
    requires LinksCovered(run)
    ensures Without(Patched(PublicOf(links, clean), PublicOf(run.links, clean), InOrder(run.order, ChangedLinks(links, run, clean))),
                    Ascending(RemovedLinks(links, run)))
         == PublicOf(run.links, clean)
  {
    hide Ascending, InOrder;
    PatchedIs(PublicOf(links, clean), PublicOf(run.links, clean), InOrder(run.order, ChangedLinks(links, run, clean)),
              Ascending(RemovedLinks(links, run)));
  }

  // Replaying the journaled difference turns the previous generation's view into the new one's,
  // even when rows changed between the comparison and the second reading.
  lemma {:induction false} JournalIsDifference(prior: Generation, run: Run, clean: Clean)
    requires AllConsistent(prior.items) && Rereadable(prior.items, run) && LinksCovered(run)
    ensures Replay(ViewOf(prior, clean), Changes(prior, run, clean))
         == ViewOf(Generation(NewItems(prior.items, run), NewLinks(prior.links, run)), clean)
  {
    hide Replay, ChangedItems, RewrittenItems, RemovedItems, ChangedLinks, RewrittenLinks, RemovedLinks, MovedItems,
      NewItems, NewLinks, InOrder, Ascending, JournaledItems, FpsOf, PublicOf, Patched, Without;
    var v := ViewOf(prior, clean);
    var next := NewItems(prior.items, run);
    var a := Ascending(JournaledItems(prior.items, run));
    var b := Ascending(RemovedItems(prior.items, run));
    var c := InOrder(run.order, ChangedLinks(prior.links, run, clean));
    var d := Ascending(RemovedLinks(prior.links, run));
    ItemViews(prior.items, run);
    LinkViews(prior.links, run, clean);
    var upserts, deletes := ItemUpserts(a, next), ItemDeletes(b);
    var linkUpserts, linkDeletes := LinkUpserts(c, run.links, clean), LinkDeletes(d);
    ReplayConcat(v, upserts + deletes + linkUpserts, linkDeletes);
    ReplayConcat(v, upserts + deletes, linkUpserts);
    ReplayConcat(v, upserts, deletes);
    ReplayItemUpserts(v, a, next);
    var v1 := Replay(v, upserts);
    ReplayItemDeletes(v1, b);
    var v2 := Replay(v1, deletes);
    ReplayLinkUpserts(v2, c, run.links, clean);
    var v3 := Replay(v2, linkUpserts);
    ReplayLinkDeletes(v3, d);
  }

  // Whether a vector is missing is spelled alike in two rows, and so are two links' texts.
  predicate SameNulls(item: Item, a: Audio) {
    (item.musicnn.None? <==> a.musicnn.None?) && (item.clap.None? <==> a.clap.None?)
  }

  predicate SameTexts(a: Link, b: Link) {
    a.analysis == b.analysis && a.tier == b.tier
  }

  // A run that finds nothing to do leaves the published view as a recompute would have it. Its
  // stored items are recomputed ones if and only if every vector is NULL exactly where AudioMuse's
  // is, and its stored links if and only if the mapping's texts are spelled as they were.
  lemma {:induction false} NoOpIsCurrent(db: Db, run: Run, clean: Clean)
    requires AllConsistent(Previous(db).items)
    requires Project(db, run, clean) == Ok(None)
    ensures var prior := Previous(db);
      var anew := Recompute(run.compared, run.umap, run.links);
      && ViewOf(prior, clean) == ViewOf(anew, clean)
      && prior.items.Keys == run.compared.Keys && prior.links.Keys == run.links.Keys
      && (prior.items == anew.items <==> forall a :: a in run.compared ==> SameNulls(prior.items[a], run.compared[a]))
      && (prior.links == anew.links <==> forall t :: t in run.links ==> SameTexts(prior.links[t], run.links[t]))
  {
    var prior := Previous(db);
    var anew := Recompute(run.compared, run.umap, run.links);
    NothingChangedItems(prior, run, clean);
    NothingChangedLinks(prior, run, clean);
    assert FpsOf(prior.items) == FpsOf(anew.items);
    assert PublicOf(prior.links, clean) == PublicOf(anew.links, clean);
  }

  lemma {:induction false} NothingChangedItems(prior: Generation, run: Run, clean: Clean)
    requires AllConsistent(prior.items) && NothingChanged(prior, run, clean)
    ensures var anew := Recompute(run.compared, run.umap, run.links).items;
      && prior.items.Keys == run.compared.Keys == anew.Keys
      && (forall a :: a in anew ==> prior.items[a].fps == anew[a].fps)
      && (prior.items == anew <==> forall a :: a in run.compared ==> SameNulls(prior.items[a], run.compared[a]))
  {
    var anew := Recompute(run.compared, run.umap, run.links).items;
    forall a ensures a in prior.items <==> a in run.compared {
      assert a !in RemovedItems(prior.items, run) && a !in ChangedItems(prior.items, run);
    }
    forall a | a in anew
      ensures prior.items[a].fps == anew[a].fps
           && (SameNulls(prior.items[a], run.compared[a]) <==> prior.items[a] == anew[a])
    {
      assert a !in ChangedItems(prior.items, run);
      OnlyNullsDiffer(prior.items[a], run.compared[a], Xy(run.umap, a));
    }
  }

  // An unchanged row differs from a recomputed one at most in where its vectors are NULL.
  lemma OnlyNullsDiffer(item: Item, a: Audio, xy: Option<Coord>)
    requires Consistent(item) && !ItemState(Some(item), a, xy).changed
    ensures item.fps == MakeItem(a, xy).fps
    ensures item == MakeItem(a, xy) <==> SameNulls(item, a)
  {
    ItemStateMeaning(item, a, xy);
    SameVector(item.musicnn, a.musicnn);
    SameVector(item.clap, a.clap);
  }

  lemma SameVector(v: Vector, w: Vector)
    requires VectorFp(v) == VectorFp(w)
    ensures v == w <==> (v.None? <==> w.None?)
  {
  }

  lemma {:induction false} NothingChangedLinks(prior: Generation, run: Run, clean: Clean)
    requires NothingChanged(prior, run, clean)
    ensures prior.links.Keys == run.links.Keys
    ensures forall t :: t in run.links ==> Public(prior.links[t], clean) == Public(run.links[t], clean)
    ensures prior.links == run.links <==> forall t :: t in run.links ==> SameTexts(prior.links[t], run.links[t])
  {
    forall t ensures t in prior.links <==> t in run.links {
      assert t !in RemovedLinks(prior.links, run) && t !in ChangedLinks(prior.links, run, clean);
    }
    forall t | t in run.links
      ensures Public(prior.links[t], clean) == Public(run.links[t], clean)
           && (SameTexts(prior.links[t], run.links[t]) <==> prior.links[t] == run.links[t])
    {
      assert t !in ChangedLinks(prior.links, run, clean);
    }
  }

  // ---------------------------------------------------------------- changes, value by value

  predicate Empty(v: Vector) { v.None? || v.value == [] }

  // Two vectors count as the same when they are equal or neither holds anything.
  predicate SameVectors(v: Vector, w: Vector) { v == w || (Empty(v) && Empty(w)) }

  // Two texts count as the same when the sanitizer leaves the same of both, or nothing of either.
  predicate SameText(a: Option<nat>, b: Option<nat>, clean: Clean) {
    (if a.Some? then clean(a.value) else None) == (if b.Some? then clean(b.value) else None)
  }

  predicate SameLink(a: Link, b: Link, clean: Clean) {
    && SameText(a.analysis, b.analysis, clean) && SameText(a.tier, b.tier, clean)
    && a.status == b.status && a.complete == b.complete && a.flags == b.flags && a.review == b.review
  }

  // A stored item holds what was read, and its fingerprints were not cleared by a migration.
  predicate SameItem(item: Item, now: Audio, xy: Option<Coord>) {
    && item.fps.scalar.Some? && item.scalar == now.scalar && item.umap == xy
    && SameVectors(item.musicnn, now.musicnn) && SameVectors(item.clap, now.clap)
  }

  // A link is journaled exactly when it is new or one of its values changed.
  lemma {:induction false} LinkChangedExactlyWhen(links: Links, run: Run, clean: Clean, t: Id)
    ensures t in ChangedLinks(links, run, clean) <==>
      t in run.links && (t !in links || !SameLink(links[t], run.links[t], clean))
    ensures t in RewrittenLinks(links, run) <==> t in run.links && (t !in links || links[t] != run.links[t])
    ensures t in RemovedLinks(links, run) <==> t in links && t !in run.links
  {
  }

  // An item is journaled exactly when it is new, was cleared by a migration, or one of its values
  // changed; it is rewritten also where a vector is NULL on one side only.
  lemma {:induction false} ItemChangedExactlyWhen(items: map<Id, Item>, run: Run, a: Id)
    requires AllConsistent(items) && a in run.compared
    ensures var now := run.compared[a];
      var changed := a !in items || !SameItem(items[a], now, Xy(run.umap, a));
      && (a in ChangedItems(items, run) <==> changed)
      && (a in RewrittenItems(items, run) <==> changed || !SameNulls(items[a], now))
  {
    if a in items { assert Consistent(items[a]); }
  }

  // A run finds nothing to do exactly when something complete is published and no value of any link
  // or item differs from what it read.
  lemma {:induction false} NothingToDoExactlyWhen(db: Db, run: Run, clean: Clean)
    requires AllConsistent(Previous(db).items)
    ensures var prior := Previous(db);
      Project(db, run, clean) == Ok(None) <==>
        && db.generation > 0 && run.complete
        && prior.links.Keys == run.links.Keys && prior.items.Keys == run.compared.Keys
        && (forall t :: t in run.links ==> SameLink(prior.links[t], run.links[t], clean))
        && (forall a :: a in run.compared ==> SameItem(prior.items[a], run.compared[a], Xy(run.umap, a)))
  {
    hide Consistent, ItemState, Public, SameLink, SameItem, NothingChanged, AllConsistent, Rereadable;
    var prior := Previous(db);
    forall t ensures t in ChangedLinks(prior.links, run, clean) <==>
      t in run.links && (t !in prior.links || !SameLink(prior.links[t], run.links[t], clean))
    {
      LinkChangedExactlyWhen(prior.links, run, clean, t);
    }
    forall a | a in run.compared
      ensures a in ChangedItems(prior.items, run) <==>
        a !in prior.items || !SameItem(prior.items[a], run.compared[a], Xy(run.umap, a))
    {
      ItemChangedExactlyWhen(prior.items, run, a);
    }
    hide ChangedItems, ChangedLinks;
    QuietMeans(prior, run, clean);
  }

  lemma QuietMeans(prior: Generation, run: Run, clean: Clean)
    ensures NothingChanged(prior, run, clean) <==>
      && (forall a :: a in run.compared ==> a !in ChangedItems(prior.items, run))
      && (forall a :: a in prior.items ==> a in run.compared)
      && (forall t :: t in run.links ==> t !in ChangedLinks(prior.links, run, clean))
      && (forall t :: t in prior.links ==> t in run.links)
  {
    assert forall a :: a in ChangedItems(prior.items, run) ==> a in run.compared;
    assert forall t :: t in ChangedLinks(prior.links, run, clean) ==> t in run.links;
  }

  // So no run that finds nothing to do leaves a track at one analysis when it is mapped to another.
  lemma {:induction false} NoStaleMapping(db: Db, run: Run, clean: Clean, t: Id)
    requires AllConsistent(Previous(db).items) && Project(db, run, clean) == Ok(None) && t in run.links
    ensures var links := Previous(db).links;
      t in links
      && (links[t].analysis.Some? && run.links[t].analysis.Some? ==>
            clean(links[t].analysis.value) == clean(run.links[t].analysis.value))
      && (links[t].analysis.None? && run.links[t].analysis.Some? ==> clean(run.links[t].analysis.value).None?)
      && (links[t].analysis.Some? && run.links[t].analysis.None? ==> clean(links[t].analysis.value).None?)
      && links[t].status == run.links[t].status && links[t].complete == run.links[t].complete
  {
    NothingToDoExactlyWhen(db, run, clean);
    assert SameLink(Previous(db).links[t], run.links[t], clean);
  }

  // What a client is shown of rows, coordinates and links that were read, value by value.
  ghost predicate ShowsRead(v: View, rows: map<Id, Audio>, umap: map<Id, Coord>, links: Links, clean: Clean) {
    && v.items.Keys == rows.Keys && v.links.Keys == links.Keys
    && (forall a :: a in rows ==>
          && v.items[a].scalar == Some(rows[a].scalar)
          && v.items[a].umap == (if a in umap then Some(umap[a]) else None)
          && v.items[a].musicnn == (if Empty(rows[a].musicnn) then None else rows[a].musicnn)
          && v.items[a].clap == (if Empty(rows[a].clap) then None else rows[a].clap))
    && (forall t :: t in links ==>
          && v.links[t].analysis == (if links[t].analysis.Some? then clean(links[t].analysis.value) else None)
          && v.links[t].tier == (if links[t].tier.Some? then clean(links[t].tier.value) else None)
          && v.links[t].status == links[t].status && v.links[t].complete == links[t].complete
          && v.links[t].flags == links[t].flags && v.links[t].review == links[t].review)
  }

  lemma {:induction false} RecomputeShows(rows: map<Id, Audio>, umap: map<Id, Coord>, links: Links, clean: Clean)
    ensures ShowsRead(ViewOf(Recompute(rows, umap, links), clean), rows, umap, links, clean)
  {
  }

  // How a run ends when it finds something to do: it fails when a row it has to rewrite is gone, it
  // waits while track IDs are being rewritten, and otherwise it publishes the next generation and
  // keeps exactly the older ones that are pinned.
  lemma {:induction false} RunsExactly(db: Db, run: Run, clean: Clean)
    requires Project(db, run, clean) != Ok(None)
    ensures var r := Project(db, run, clean);
      var gone := exists a :: a in RewrittenItems(Previous(db).items, run) && a !in run.reread;
      && (r == Err(AnalysisChanged) <==> gone)
      && (r == Err(Deferred) <==> !gone && run.rewriting)
      && (r.Ok? <==> !gone && !run.rewriting)
      && (r.Ok? ==> r.value.Some? && Succeeds(db, run, r.value.value))
  {
    hide RewrittenItems, NothingChanged, Changes, JournalAfter;
  }

  ghost predicate Succeeds(db: Db, run: Run, next: Db) {
    && next.generation == db.generation + 1
    && Previous(next).links == run.links && Previous(next).items.Keys == run.compared.Keys
    && (forall g :: g in next.generations && g <= db.generation <==>
          g in db.generations && g <= db.generation && g in run.pinned)
    && (forall g :: g in next.generations && g <= db.generation ==> g in db.generations && next.generations[g] == db.generations[g])
  }
}
