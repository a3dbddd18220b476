// The projection as it updates its tables, and what every sequence of projections keeps.

module AnalysisStore {
  import opened Prelude
  import opened ChangeJournal
  import opened Evidence
  import opened AnalysisProjection

  // ---------------------------------------------------------------- comparing in place

  lemma {:induction false} AscendingNext(ids: seq<nat>, i: nat, chosen: seq<nat>, s: set<nat>)
    requires Increasing(ids) && i < |ids| && Increasing(chosen)
    requires forall x :: x in chosen <==> x in s && x in ids[..i]
    ensures var longer := chosen + if ids[i] in s then [ids[i]] else [];
      Increasing(longer) && forall x :: x in longer <==> x in s && x in ids[..i + 1]
  {
    forall x, y | x in chosen && y in [ids[i]] ensures x < y {
      var k :| 0 <= k < i && ids[k] == x;
    }
    if ids[i] in s { IncreasingConcat(chosen, [ids[i]]); }
    assert ids[..i + 1] == ids[..i] + [ids[i]];
  }

  lemma NoneIncreasing()
    ensures Increasing([])
  {
  }

  lemma ItemSets(items: map<Id, Item>, run: Run, a: Id)
    ensures a in ChangedItems(items, run) <==> a in run.compared && StateOf(items, run, a).changed
    ensures a in RewrittenItems(items, run) <==> a in run.compared && StateOf(items, run, a).rewrite
  {
  }

  // Compares every current row with the stored one, in order of analysis ID.
  method CompareItems(items: map<Id, Item>, run: Run) returns (changed: seq<Id>, rewritten: set<Id>)
    ensures changed == Ascending(ChangedItems(items, run))
    ensures rewritten == RewrittenItems(items, run)
  {
    hide ItemState, StateOf, Increasing, ChangedItems, RewrittenItems, Ascending;
    changed, rewritten := [], {};
    var ids := Ascending(run.compared.Keys);
    AscendingIncreases(run.compared.Keys);
    NoneIncreasing();
    for i := 0 to |ids|
      invariant Increasing(changed)
      invariant forall a :: a in changed <==> a in ids[..i] && a in ChangedItems(items, run)
      invariant forall a :: a in rewritten <==> a in ids[..i] && a in RewrittenItems(items, run)
    {
      assert ids[i] in ids;
      AscendingNext(ids, i, changed, ChangedItems(items, run));
      assert ids[..i + 1] == ids[..i] + [ids[i]];
      ItemSets(items, run, ids[i]);
      var s := StateOf(items, run, ids[i]);
      if s.changed { changed := changed + [ids[i]]; }
      if s.rewrite { rewritten := rewritten + {ids[i]}; }
    }
    assert ids[..|ids|] == ids;
    AllCompared(items, run);
    IsAscending(changed, ChangedItems(items, run));
  }

  lemma AllCompared(items: map<Id, Item>, run: Run)
    ensures forall a :: a in ChangedItems(items, run) ==> a in run.compared
    ensures forall a :: a in RewrittenItems(items, run) ==> a in run.compared
  {
  }

  lemma {:induction false} IsAscending(ids: seq<nat>, s: set<nat>)
    requires Increasing(ids)
    requires forall x :: x in ids <==> x in s
    ensures ids == Ascending(s)
  {
    AscendingIncreases(s);
    AscendingUnique(ids, Ascending(s));
  }

  predicate PublicDiffers(links: Links, run: Run, clean: Clean, t: Id) {
    t in links && t in run.links && Public(links[t], clean) != Public(run.links[t], clean)
  }

  predicate RowDiffers(links: Links, run: Run, t: Id) {
    t in links && t in run.links && links[t] != run.links[t]
  }

  lemma LinkSets(links: Links, run: Run, clean: Clean, moved: set<Id>, renewed: set<Id>)
    requires forall t :: t in moved <==> PublicDiffers(links, run, clean, t)
    requires forall t :: t in renewed <==> RowDiffers(links, run, t)
    ensures ChangedLinks(links, run, clean) == moved + (run.links.Keys - links.Keys)
    ensures RewrittenLinks(links, run) == renewed + (run.links.Keys - links.Keys)
  {
  }

  lemma DiffersOnly(links: Links, run: Run, clean: Clean, t: Id)
    ensures PublicDiffers(links, run, clean, t) ==> RowDiffers(links, run, t)
    ensures RowDiffers(links, run, t) ==> t in links && t in run.links
  {
  }

  // Walks the previous links, then the links none of them carried.
  method CompareLinks(links: Links, run: Run, clean: Clean)
    returns (changed: set<Id>, rewritten: set<Id>, removed: set<Id>)
    ensures changed == ChangedLinks(links, run, clean)
    ensures rewritten == RewrittenLinks(links, run)
    ensures removed == RemovedLinks(links, run)
  {
    hide ChangedLinks, RewrittenLinks, PublicDiffers, RowDiffers;
    changed, rewritten, removed := {}, {}, {};
    var carried, rest := {}, links.Keys;
    while rest != {}
      invariant rest <= links.Keys
      invariant forall t :: t in carried <==> t in links && t in run.links && t !in rest
      invariant forall t :: t in removed <==> t in links && t !in run.links && t !in rest
      invariant forall t :: t in changed <==> t in links && t !in rest && PublicDiffers(links, run, clean, t)
      invariant forall t :: t in rewritten <==> t in links && t !in rest && RowDiffers(links, run, t)
      decreases |rest|
    {
      var t :| t in rest;
      var moved, renewed := PublicDiffers(links, run, clean, t), RowDiffers(links, run, t);
      DiffersOnly(links, run, clean, t);
      if t !in run.links {
        removed := removed + {t};
      } else {
        carried := carried + {t};
        if moved {
          changed, rewritten := changed + {t}, rewritten + {t};
        } else if renewed {
          rewritten := rewritten + {t};
        }
      }
      rest := rest - {t};
    }
    forall t ensures t !in rest && (t in links || (!PublicDiffers(links, run, clean, t) && !RowDiffers(links, run, t))) {
      DiffersOnly(links, run, clean, t);
    }
    LinkSets(links, run, clean, changed, rewritten);
    var added := run.links.Keys - carried;
    assert added == run.links.Keys - links.Keys;
    changed, rewritten := changed + added, rewritten + added;
  }

  // Whether nothing at all changed, and the items to read again.
  method CompareAll(prior: Generation, run: Run, clean: Clean) returns (quiet: bool, rewritten: set<Id>)
    ensures quiet <==> NothingChanged(prior, run, clean)
    ensures rewritten == RewrittenItems(prior.items, run)
  {
    hide ChangedItems, RewrittenItems, ChangedLinks, RewrittenLinks, Ascending;
    var changed: seq<Id>;
    changed, rewritten := CompareItems(prior.items, run);
    var removedItems := prior.items.Keys - run.compared.Keys;
    var changedLinks, rewrittenLinks, removedLinks := CompareLinks(prior.links, run, clean);
    quiet := changed == [] && removedItems == {} && changedLinks == {} && removedLinks == {};
  }

  // ---------------------------------------------------------------- the tables in place

  class Projector {
    var generation: nat
    var generations: map<nat, Generation>
    const journal: JournalStore<Change>

    ghost function State(): Db
      reads this, journal
    {
      Db(generation, generations, journal.State())
    }

    constructor (epoch: Epoch)
      ensures State() == Db(0, map[], Journal(epoch, 0, 0, map[]))
      ensures fresh(journal)
    {
      generation, generations := 0, map[];
      journal := new JournalStore(epoch);
    }

    method Prior() returns (g: Generation)
      ensures g == Previous(State())
    {
      g := if generation in generations then generations[generation] else Generation(map[], map[]);
    }

    // One projection, in one transaction: true if it wrote a generation. A run that fails leaves
    // every table as it was.
    method Run(run: Run, clean: Clean) returns (r: Result<bool, ProjectionError>)
      requires LinksCovered(run)
      modifies this, journal
      ensures match Project(old(State()), run, clean)
        case Err(e) => r == Err(e) && State() == old(State())
        case Ok(None) => r == Ok(false) && State() == old(State())
        case Ok(Some(next)) => r == Ok(true) && State() == next
    {
      hide Changes, NewItems, NewLinks, RewrittenItems, NothingChanged, JournalAfter, Pruned;
      var prior := Prior();
      var quiet, rewritten := CompareAll(prior, run, clean);
      if generation > 0 && run.complete && quiet {
        return Ok(false);
      }
      if !(rewritten <= run.reread.Keys) {
        return Err(AnalysisChanged);
      }
      // The host is asked before the commit; a rewrite in progress rolls the whole run back.
      if run.rewriting {
        return Err(Deferred);
      }
      Write(Generation(NewItems(prior.items, run), NewLinks(prior.links, run)), Changes(prior, run, clean), run);
      r := Ok(true);
    }

    // Stores the new generation, prunes the ones nothing pins, journals and compacts.
    method Write(next: Generation, events: seq<Change>, run: Run)
      modifies this, journal
      ensures State() == Db(old(generation) + 1,
        Pruned(old(generations)[old(generation) + 1 := next], old(generation) + 1, run.pinned),
        JournalAfter(old(journal.State()), events, run))
    {
      hide Appended, Compacted;
      generation := generation + 1;
      generations := Pruned(generations[generation := next], generation, run.pinned);
      journal.Append(events);
      var _ := journal.Compact(
        Compaction(journal.epoch, journal.head, RetentionLimit(|run.compared| + |run.links|), false, None, None, None));
    }
  }
}
