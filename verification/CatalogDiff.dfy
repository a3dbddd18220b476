// What one publication journals, and what replaying it does to a client's mirror.

module CatalogDiff {
  import opened Prelude
  import opened CatalogTypes

  datatype Operation = Upsert(row: Row) | Delete

  datatype Event = Event(generation: nat, key: Key, operation: Operation)

  // A client applies one event to its mirror.
  function Apply(v: View, e: Event): View {
    match e.operation
    case Upsert(row) => v[e.key := RowFingerprints(e.key.entity, row)]
    case Delete => v - {e.key}
  }

  function Replay(v: View, es: seq<Event>): View {
    if es == [] then v else Apply(Replay(v, es[..|es| - 1]), es[|es| - 1])
  }

  // Pages compose: where a client cuts the journal does not matter.
  lemma {:induction false} ReplayConcat(v: View, a: seq<Event>, b: seq<Event>)
    ensures Replay(v, a + b) == Replay(Replay(v, a), b)
    decreases |b|
  {
    if b == [] {
      assert a + b == a;
    } else {
      var init := b[..|b| - 1];
      assert (a + b)[..|a + b| - 1] == a + init;
      ReplayConcat(v, a, init);
    }
  }

  function Changed(prior: View, rows: Rows): set<Key> {
    set k | k in rows && (k !in prior || prior[k] != RowFingerprints(k.entity, rows[k]))
  }

  function Removed(prior: View, rows: Rows): set<Key> {
    prior.Keys - rows.Keys
  }

  // A row is journaled exactly when it is new or differs from the stored one in a compared field.
  lemma {:induction false} ChangedExactlyWhen(stored: Rows, rows: Rows, k: Key)
    ensures k in Changed(ViewOf(stored), rows) <==>
      k in rows && (k !in stored || stored[k].metadata != rows[k].metadata
                    || (k.entity in {Album, Track} && stored[k].artwork != rows[k].artwork)
                    || (k.entity == Track && stored[k].media != rows[k].media))
    ensures k in Removed(ViewOf(stored), rows) <==> k in stored && k !in rows
  {
    if k in rows && k in stored { FingerprintsTell(k.entity, stored[k], rows[k]); }
  }

  function EventFor(generation: nat, rows: Rows, k: Key): Event {
    Event(generation, k, if k in rows then Upsert(rows[k]) else Delete)
  }

  function EventsFor(generation: nat, rows: Rows, ks: seq<Key>): (es: seq<Event>)
    ensures |es| == |ks|
    ensures forall i :: 0 <= i < |ks| ==> es[i] == EventFor(generation, rows, ks[i])
  {
    seq(|ks|, i requires 0 <= i < |ks| => EventFor(generation, rows, ks[i]))
  }

  // The order the journal is written in: changed rows parents first, then deletions children first.
  function DiffKeys(prior: View, rows: Rows): seq<Key> {
    Listing(false, Changed(prior, rows)) + Listing(true, Removed(prior, rows))
  }

  function DiffEvents(generation: nat, prior: View, rows: Rows): seq<Event> {
    EventsFor(generation, rows, DiffKeys(prior, rows))
  }

  lemma DiffLength(generation: nat, prior: View, rows: Rows)
    ensures |DiffEvents(generation, prior, rows)| == |DiffKeys(prior, rows)|
  {
  }

  // A view in which the keys of done already have their new state and the others still the old one.
  ghost function Mixed(prior: View, next: View, done: set<Key>): View {
    map k | k in prior.Keys + next.Keys && (if k in done then k in next else k in prior)
      :: if k in done then next[k] else prior[k]
  }

  ghost function KeysOf(ks: seq<Key>): set<Key> { set k | k in ks }

  lemma {:induction false} ReplayIsMixed(generation: nat, prior: View, rows: Rows, ks: seq<Key>)
    ensures Replay(prior, EventsFor(generation, rows, ks)) == Mixed(prior, ViewOf(rows), KeysOf(ks))
    decreases |ks|
  {
    var es := EventsFor(generation, rows, ks);
    var next := ViewOf(rows);
    if ks == [] {
      assert Mixed(prior, next, {}) == prior;
    } else {
      var init, k := ks[..|ks| - 1], ks[|ks| - 1];
      ReplayIsMixed(generation, prior, rows, init);
      assert es[..|es| - 1] == EventsFor(generation, rows, init);
      assert KeysOf(ks) == KeysOf(init) + {k} by {
        assert ks == init + [k];
      }
      MixedStep(generation, prior, rows, KeysOf(init), k);
    }
  }

  lemma {:induction false} MixedStep(generation: nat, prior: View, rows: Rows, done: set<Key>, k: Key)
    ensures Apply(Mixed(prior, ViewOf(rows), done), EventFor(generation, rows, k))
         == Mixed(prior, ViewOf(rows), done + {k})
  {
  }

  // Replaying a publication's events on the view it was diffed against gives the new view,
  // and the view after any prefix is known.
  lemma {:induction false} DiffReplays(generation: nat, prior: View, rows: Rows)
    ensures Replay(prior, DiffEvents(generation, prior, rows)) == ViewOf(rows)
  {
    var ks := DiffKeys(prior, rows);
    ReplayIsMixed(generation, prior, rows, ks);
    assert KeysOf(ks) == Changed(prior, rows) + Removed(prior, rows);
    MixedComplete(prior, rows, KeysOf(ks));
  }

  lemma {:induction false} MixedComplete(prior: View, rows: Rows, done: set<Key>)
    requires done == Changed(prior, rows) + Removed(prior, rows)
    ensures Mixed(prior, ViewOf(rows), done) == ViewOf(rows)
  {
  }

  // No event is wasted: the journal stays untouched exactly when nothing changed.
  lemma {:induction false} DiffEmptyWhenUnchanged(generation: nat, prior: View, rows: Rows)
    ensures DiffEvents(generation, prior, rows) == [] <==> prior == ViewOf(rows)
  {
    var es := DiffEvents(generation, prior, rows);
    if es == [] {
      DiffReplays(generation, prior, rows);
    } else {
      var k := DiffKeys(prior, rows)[0];
      assert k in DiffKeys(prior, rows);
      assert k in Changed(prior, rows) || k in Removed(prior, rows);
      assert k in ViewOf(rows) <==> k in rows;
    }
  }

  lemma {:induction false} DiffKeysDistinct(prior: View, rows: Rows)
    ensures Distinct(DiffKeys(prior, rows))
  {
    var a, b := Listing(false, Changed(prior, rows)), Listing(true, Removed(prior, rows));
    ListingSorted(false, Changed(prior, rows));
    ListingSorted(true, Removed(prior, rows));
    forall i, j | 0 <= i < j < |a + b| ensures (a + b)[i] != (a + b)[j] {
      if i < |a| <= j {
        assert a[i] in a && b[j - |a|] in b;
      }
    }
  }

  // ---------------------------------------------------------------- references

  // Every row of the view refers only to rows of the view, of an earlier entity.
  ghost predicate Closed(v: View) {
    forall k, r :: k in v && r in v[k].metadata.refs ==> r in v && Rank(r.entity) < Rank(k.entity)
  }

  // Where a key stands in a sorted sequence decides which keys precede it.
  lemma {:induction false} EarlierKeyInPrefix(reversed: bool, ks: seq<Key>, n: nat, k: Key, r: Key)
    requires Sorted(reversed, ks) && n <= |ks|
    requires k in ks[..n] && r in ks && Before(reversed, r, k)
    ensures r in ks[..n]
  {
    var i :| 0 <= i < n && ks[i] == k;
    var j :| 0 <= j < |ks| && ks[j] == r;
    assert j <= i;
    assert ks[..n][j] == r;
  }

  // The view after n events.
  lemma {:induction false} ReplayPrefix(generation: nat, prior: View, rows: Rows, n: nat)
    requires n <= |DiffKeys(prior, rows)|
    ensures Replay(prior, DiffEvents(generation, prior, rows)[..n])
         == Mixed(prior, ViewOf(rows), KeysOf(DiffKeys(prior, rows)[..n]))
  {
    EventsForPrefix(generation, rows, DiffKeys(prior, rows), n);
    ReplayIsMixed(generation, prior, rows, DiffKeys(prior, rows)[..n]);
  }

  lemma PrefixOfConcat<T>(a: seq<T>, b: seq<T>, n: nat)
    requires n <= |a + b|
    ensures (a + b)[..n] == if n <= |a| then a[..n] else a + b[..n - |a|]
  {
  }

  lemma {:induction false} EventsForPrefix(generation: nat, rows: Rows, ks: seq<Key>, n: nat)
    requires n <= |ks|
    ensures EventsFor(generation, rows, ks)[..n] == EventsFor(generation, rows, ks[..n])
  {
  }

  // While changed rows arrive, parents first, no reference dangles.
  lemma {:induction false} UpsertPrefixIsClosed(prior: View, next: View, ups: seq<Key>, n: nat)
    requires Closed(prior) && Closed(next) && n <= |ups| && Sorted(false, ups)
    requires forall k :: k in ups <==> k in next && (k !in prior || prior[k] != next[k])
    ensures Closed(Mixed(prior, next, KeysOf(ups[..n])))
  {
    var v := Mixed(prior, next, KeysOf(ups[..n]));
    forall k, r | k in v && r in v[k].metadata.refs ensures r in v && Rank(r.entity) < Rank(k.entity) {
      UpsertPrefixKeepsReference(prior, next, ups, n, k, r);
    }
  }

  lemma {:induction false} UpsertPrefixKeepsReference(prior: View, next: View, ups: seq<Key>, n: nat, k: Key, r: Key)
    requires Closed(prior) && Closed(next) && n <= |ups| && Sorted(false, ups)
    requires forall k :: k in ups <==> k in next && (k !in prior || prior[k] != next[k])
    requires var v := Mixed(prior, next, KeysOf(ups[..n])); k in v && r in v[k].metadata.refs
    ensures r in Mixed(prior, next, KeysOf(ups[..n])) && Rank(r.entity) < Rank(k.entity)
  {
    if k in ups[..n] {
      assert k in ups && r in next;
      if r in ups {
        EarlierKeyInPrefix(false, ups, n, k, r);
      }
    }
    if r in ups[..n] { assert r in ups; }
  }

  // While vanished rows leave, children first, no reference dangles either.
  lemma {:induction false} DeletePrefixIsClosed(prior: View, next: View, ups: seq<Key>, downs: seq<Key>, m: nat)
    requires Closed(prior) && Closed(next) && m <= |downs| && Sorted(true, downs)
    requires forall k :: k in ups <==> k in next && (k !in prior || prior[k] != next[k])
    requires forall k :: k in downs <==> k in prior && k !in next
    ensures Closed(Mixed(prior, next, KeysOf(ups + downs[..m])))
  {
    var v := Mixed(prior, next, KeysOf(ups + downs[..m]));
    forall k, r | k in v && r in v[k].metadata.refs ensures r in v && Rank(r.entity) < Rank(k.entity) {
      DeletePrefixKeepsReference(prior, next, ups, downs, m, k, r);
    }
  }

  lemma {:induction false} DeletePrefixKeepsReference(prior: View, next: View, ups: seq<Key>, downs: seq<Key>, m: nat,
                                                      k: Key, r: Key)
    requires Closed(prior) && Closed(next) && m <= |downs| && Sorted(true, downs)
    requires forall k :: k in ups <==> k in next && (k !in prior || prior[k] != next[k])
    requires forall k :: k in downs <==> k in prior && k !in next
    requires var v := Mixed(prior, next, KeysOf(ups + downs[..m])); k in v && r in v[k].metadata.refs
    ensures r in Mixed(prior, next, KeysOf(ups + downs[..m])) && Rank(r.entity) < Rank(k.entity)
  {
    assert forall x :: x in (ups + downs[..m]) <==> x in ups || x in downs[..m];
    assert forall x :: x in downs[..m] ==> x in downs;
    if k in next {
      // Every changed row has its new state by now, so k's references are the new ones.
      assert r in next;
    } else {
      assert k in prior && k in downs && k !in downs[..m];
      assert r in prior;
      if r in downs[..m] {
        EarlierKeyInPrefix(true, downs, m, r, k);
      }
    }
  }

  // A client that stops after any event holds no dangling reference: parents arrive before
  // their children and leave after them.
  lemma {:induction false} EveryPrefixIsClosed(generation: nat, prior: View, rows: Rows, n: nat)
    requires Closed(prior) && Closed(ViewOf(rows))
    requires n <= |DiffKeys(prior, rows)|
    ensures Closed(Replay(prior, DiffEvents(generation, prior, rows)[..n]))
  {
    hide Closed, Mixed, Replay, Listing, Changed, Removed, ViewOf, DiffEvents, KeysOf;
    var ups, downs := Listing(false, Changed(prior, rows)), Listing(true, Removed(prior, rows));
    ListingSorted(false, Changed(prior, rows));
    ListingSorted(true, Removed(prior, rows));
    ReplayPrefix(generation, prior, rows, n);
    PrefixOfConcat(ups, downs, n);
    DiffMembers(prior, rows);
    if n <= |ups| {
      UpsertPrefixIsClosed(prior, ViewOf(rows), ups, n);
    } else {
      DeletePrefixIsClosed(prior, ViewOf(rows), ups, downs, n - |ups|);
    }
  }

  lemma {:induction false} DiffMembers(prior: View, rows: Rows)
    ensures forall k :: k in Listing(false, Changed(prior, rows))
                   <==> k in ViewOf(rows) && (k !in prior || prior[k] != ViewOf(rows)[k])
    ensures forall k :: k in Listing(true, Removed(prior, rows)) <==> k in prior && k !in ViewOf(rows)
  {
  }
}
