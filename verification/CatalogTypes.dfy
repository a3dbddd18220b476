// The catalogue's rows, their fingerprints and the order every listing uses.

module CatalogTypes {
  import opened Prelude

  // Listed in publication order: an entity refers only to earlier ones.
  datatype Entity = Library | Artist | Album | Track

  function Rank(e: Entity): (r: nat)
    ensures r < 4
  {
    match e
    case Library => 0
    case Artist => 1
    case Album => 2
    case Track => 3
  }

  const ENTITY_ORDER: seq<Entity> := [Library, Artist, Album, Track]

  // A provider ID is its rank in the database's text order; 0 stands for the empty text,
  // which no row carries and which a page token uses for "from the start".
  datatype Key = Key(entity: Entity, id: nat)

  // A fingerprint is collision-free, so it stands for what it covers: the described metadata,
  // with the rows that metadata refers to.
  datatype Metadata = Metadata(digest: nat, refs: set<Key>)

  datatype Row = Row(id: nat, metadata: Metadata, artwork: nat, media: nat)

  // The fingerprint columns of one row; an entity without a column has None.
  datatype Fingerprints = Fingerprints(metadata: Metadata, artwork: Option<nat>, media: Option<nat>)

  function RowFingerprints(e: Entity, row: Row): Fingerprints {
    Fingerprints(
      row.metadata,
      if e == Album || e == Track then Some(row.artwork) else None,
      if e == Track then Some(row.media) else None)
  }

  // What a client and the server must agree on, and the stored rows it is taken from.
  type View = map<Key, Fingerprints>
  type Rows = map<Key, Row>

  function ViewOf(rows: Rows): View {
    map k | k in rows :: RowFingerprints(k.entity, rows[k])
  }

  // Two rows agree in what is compared of their entity: metadata always, artwork of albums and
  // tracks, media of tracks.
  predicate SameFields(e: Entity, a: Row, b: Row) {
    && a.metadata == b.metadata
    && (e in {Album, Track} ==> a.artwork == b.artwork)
    && (e == Track ==> a.media == b.media)
  }

  // What a client holds shows the given rows, field by field.
  ghost predicate Shows(v: View, rows: Rows) {
    && v.Keys == rows.Keys
    && forall k :: k in rows ==>
         && v[k].metadata == rows[k].metadata
         && v[k].artwork == (if k.entity in {Album, Track} then Some(rows[k].artwork) else None)
         && v[k].media == (if k.entity == Track then Some(rows[k].media) else None)
  }

  lemma {:induction false} FingerprintsTell(e: Entity, a: Row, b: Row)
    ensures RowFingerprints(e, a) == RowFingerprints(e, b) <==> SameFields(e, a, b)
  {
  }

  lemma {:induction false} ViewShows(v: View, rows: Rows)
    ensures v == ViewOf(rows) <==> Shows(v, rows)
  {
    if Shows(v, rows) {
      forall k | k in rows ensures v[k] == RowFingerprints(k.entity, rows[k]) {
      }
    }
  }

  // The same rows in two catalogues, as far as they are compared.
  ghost predicate SameCatalogue(a: Rows, b: Rows) {
    a.Keys == b.Keys && forall k :: k in a ==> SameFields(k.entity, a[k], b[k])
  }

  lemma {:induction false} ViewsTell(a: Rows, b: Rows)
    ensures ViewOf(a) == ViewOf(b) <==> SameCatalogue(a, b)
  {
    hide RowFingerprints, SameFields;
    forall k | k in a && k in b ensures ViewOf(a)[k] == ViewOf(b)[k] <==> SameFields(k.entity, a[k], b[k]) {
      FingerprintsTell(k.entity, a[k], b[k]);
    }
    assert ViewOf(a).Keys == a.Keys && ViewOf(b).Keys == b.Keys;
  }

  // ---------------------------------------------------------------- key order

  // Parents first, or children first when reversed; ties by ID.
  predicate Before(reversed: bool, a: Key, b: Key) {
    if Rank(a.entity) == Rank(b.entity) then a.id < b.id
    else Rank(a.entity) < Rank(b.entity) <==> !reversed
  }

  predicate Sorted(reversed: bool, ks: seq<Key>) {
    forall i, j :: 0 <= i < j < |ks| ==> Before(reversed, ks[i], ks[j])
  }

  predicate IsFirst(reversed: bool, k: Key, s: set<Key>) {
    k in s && forall o :: o in s && o != k ==> Before(reversed, k, o)
  }

  lemma {:induction false} FirstExists(reversed: bool, s: set<Key>)
    requires s != {}
    ensures exists k :: IsFirst(reversed, k, s)
    decreases |s|
  {
    var y :| y in s;
    var rest := s - {y};
    assert s == rest + {y};
    if rest == {} {
      assert IsFirst(reversed, y, s);
    } else {
      FirstExists(reversed, rest);
      var m :| IsFirst(reversed, m, rest);
      assert IsFirst(reversed, if Before(reversed, y, m) then y else m, s);
    }
  }

  function First(reversed: bool, s: set<Key>): (k: Key)
    requires s != {}
    ensures IsFirst(reversed, k, s)
  {
    FirstExists(reversed, s);
    var k :| k in s && IsFirst(reversed, k, s);
    k
  }

  // The keys of a set in publication order, or in the reverse order of entities.
  function Listing(reversed: bool, s: set<Key>): (r: seq<Key>)
    ensures |r| == |s|
    ensures forall k :: k in r <==> k in s
    decreases |s|
  {
    if s == {} then []
    else [First(reversed, s)] + Listing(reversed, s - {First(reversed, s)})
  }

  lemma {:induction false} ListingSorted(reversed: bool, s: set<Key>)
    ensures Sorted(reversed, Listing(reversed, s))
    decreases |s|
  {
    if s != {} {
      var k := First(reversed, s);
      var rest := Listing(reversed, s - {k});
      ListingSorted(reversed, s - {k});
      forall i | 0 <= i < |rest| ensures Before(reversed, k, rest[i]) {
        assert rest[i] in rest;
      }
    }
  }

  lemma {:induction false} SortedUnique(reversed: bool, a: seq<Key>, b: seq<Key>)
    requires Sorted(reversed, a) && Sorted(reversed, b)
    requires forall k :: k in a <==> k in b
    ensures a == b
  {
    assert forall i :: 0 <= i < |a| ==> a[i] in b;
    assert forall i :: 0 <= i < |b| ==> b[i] in a;
    if a != [] && b != [] {
      assert a[0] == b[0];
      forall k ensures k in a[1..] <==> k in b[1..] {
        if k in a[1..] { assert k in a && k != a[0]; assert k in b; }
        if k in b[1..] { assert k in b && k != b[0]; assert k in a; }
      }
      SortedUnique(reversed, a[1..], b[1..]);
      assert a == [a[0]] + a[1..] && b == [b[0]] + b[1..];
    }
  }

  lemma SortedApart(reversed: bool, a: seq<Key>, b: seq<Key>)
    requires Sorted(reversed, a + b)
    ensures forall k :: k in a ==> k !in b
  {
    forall i, j | 0 <= i < |a| && 0 <= j < |b| ensures a[i] != b[j] {
      assert Before(reversed, (a + b)[i], (a + b)[|a| + j]);
    }
  }

  lemma SortedConcat(reversed: bool, a: seq<Key>, b: seq<Key>)
    requires Sorted(reversed, a) && Sorted(reversed, b)
    requires forall x, y :: x in a && y in b ==> Before(reversed, x, y)
    ensures Sorted(reversed, a + b)
  {
    forall i, j | 0 <= i < j < |a + b| ensures Before(reversed, (a + b)[i], (a + b)[j]) {
      if i < |a| <= j {
        assert a[i] in a && b[j - |a|] in b;
      }
    }
  }

  // A listing splits where the order does.
  lemma ListingSplit(reversed: bool, s: set<Key>, low: set<Key>, high: set<Key>)
    requires s == low + high
    requires forall x, y :: x in low && y in high ==> Before(reversed, x, y)
    ensures Listing(reversed, s) == Listing(reversed, low) + Listing(reversed, high)
  {
    ListingSorted(reversed, low);
    ListingSorted(reversed, high);
    SortedConcat(reversed, Listing(reversed, low), Listing(reversed, high));
    ListingIs(reversed, s, Listing(reversed, low) + Listing(reversed, high));
  }

  // Any sorted sequence of a set's keys is its listing.
  lemma {:induction false} ListingIs(reversed: bool, s: set<Key>, ks: seq<Key>)
    requires Sorted(reversed, ks)
    requires forall k :: k in ks <==> k in s
    ensures Listing(reversed, s) == ks
  {
    ListingSorted(reversed, s);
    SortedUnique(reversed, Listing(reversed, s), ks);
  }

  // The keys after the n-th one of a listing are the rest of it: a keyset cursor.
  lemma {:induction false} TailIsListing(reversed: bool, listed: seq<Key>, n: nat, rest: set<Key>)
    requires Sorted(reversed, listed) && 0 < n <= |listed|
    requires forall k :: k in rest <==> k in listed && Before(reversed, listed[n - 1], k)
    ensures Listing(reversed, rest) == listed[n..]
  {
    forall k ensures k in listed[n..] <==> k in rest {
      SortedTailMember(reversed, listed, n, k);
    }
    ListingIs(reversed, rest, listed[n..]);
  }

  lemma SortedTailMember(reversed: bool, ks: seq<Key>, n: nat, k: Key)
    requires Sorted(reversed, ks) && 0 < n <= |ks|
    ensures k in ks[n..] <==> k in ks && Before(reversed, ks[n - 1], k)
  {
    if k in ks {
      var i :| 0 <= i < |ks| && ks[i] == k;
      if i >= n {
        assert ks[n..][i - n] == k;
      }
    }
  }
}
