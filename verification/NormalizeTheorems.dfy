// What every normalized catalogue satisfies, and what its membership check guarantees.

module NormalizeTheorems {
  import opened Prelude
  import opened CatalogTypes
  import opened ChangeJournal
  import opened CatalogDiff
  import opened CatalogStore
  import opened CatalogProtocol
  import opened CatalogTheorems
  import N = Normalize

  ghost predicate CreditsResolve(c: N.Catalog, cs: seq<N.Credit>) {
    forall k :: 0 <= k < |cs| ==> cs[k].artist in c.artists
  }

  ghost predicate TrackResolves(c: N.Catalog, t: N.TrackRow) {
    (t.album.Some? ==> t.album.value in c.albums) && CreditsResolve(c, t.credits)
  }

  lemma {:induction false} CreditRowResolves(raw: N.Raw, c: N.Catalog, x: N.Owned)
    requires N.Normalized(raw, c) && (x in c.trackCredits || x in c.albumCredits)
    ensures x.credit.artist in c.artists
  {
    N.CreditedIsMet(raw, x);
    assert x.credit.artist in N.Firsts(c.artists);
  }

  lemma {:induction false} OwnCreditsResolve(raw: N.Raw, c: N.Catalog, rows: seq<N.Owned>, owner: nat)
    requires N.Normalized(raw, c) && (rows == c.trackCredits || rows == c.albumCredits)
    ensures CreditsResolve(c, N.Of(rows, owner))
  {
    var cs := N.Of(rows, owner);
    forall k | 0 <= k < |cs| ensures cs[k].artist in c.artists {
      assert N.Credited(cs, cs[k].artist);
      N.OfMembers(rows, owner, cs[k].artist);
      var i :| 0 <= i < |rows| && rows[i].owner == owner && rows[i].credit.artist == cs[k].artist;
      CreditRowResolves(raw, c, rows[i]);
    }
  }

  // Track IDs are unique, and every album and artist a row refers to is in the catalogue.
  lemma {:induction false} ReferencesResolve(raw: N.Raw, c: N.Catalog)
    requires N.Normalized(raw, c)
    ensures forall i, j :: 0 <= i < j < |c.tracks| ==> c.tracks[i].id != c.tracks[j].id
    ensures forall i :: 0 <= i < |c.tracks| ==> TrackResolves(c, c.tracks[i])
    ensures forall a :: a in c.albums ==> CreditsResolve(c, c.albums[a].credits)
    ensures forall x :: x in c.trackCredits || x in c.albumCredits ==> x.credit.artist in c.artists
  {
    var n := |raw.tracks|;
    forall i, j | 0 <= i < j < |c.tracks| ensures c.tracks[i].id != c.tracks[j].id {
      assert N.TrackRowOk(c.tracks[i], raw.tracks[i]) && N.TrackRowOk(c.tracks[j], raw.tracks[j]);
      assert N.Fault(raw.tracks, j).None?;
      assert raw.tracks[i].id != raw.tracks[j].id;
    }
    forall i | 0 <= i < |c.tracks| ensures TrackResolves(c, c.tracks[i]) {
      assert N.TrackRowOk(c.tracks[i], raw.tracks[i]);
      N.CreditsOfEach(raw.tracks, n, i);
      OwnCreditsResolve(raw, c, c.trackCredits, c.tracks[i].id);
      if c.tracks[i].album.Some? {
        N.AlbumsAfterKeys(raw, n, c.tracks[i].album.value);
        assert N.Names(raw.tracks, n, c.tracks[i].album.value);
      }
    }
    forall a | a in c.albums ensures CreditsResolve(c, c.albums[a].credits) {
      assert N.AlbumRowOk(raw, c, a);
      OwnCreditsResolve(raw, c, c.albumCredits, a);
    }
    forall x | x in c.trackCredits || x in c.albumCredits ensures x.credit.artist in c.artists {
      CreditRowResolves(raw, c, x);
    }
  }

  // ---------------------------------------------------------------- the two lists of credits

  // Rows of the credit tables are keyed by owner, position and role.
  predicate SameKey(x: N.Owned, y: N.Owned) {
    x.owner == y.owner && x.credit.position == y.credit.position && x.credit.role == y.credit.role
  }

  ghost predicate KeysDistinct(rows: seq<N.Owned>) {
    forall i, j :: 0 <= i < j < |rows| ==> !SameKey(rows[i], rows[j])
  }

  ghost predicate Apart(a: seq<N.Owned>, b: seq<N.Owned>) {
    forall i, j :: 0 <= i < |a| && 0 <= j < |b| ==> !SameKey(a[i], b[j])
  }

  lemma KeysOfConcat(a: seq<N.Owned>, b: seq<N.Owned>)
    ensures KeysDistinct(a + b) <==> KeysDistinct(a) && KeysDistinct(b) && Apart(a, b)
  {
    var all := a + b;
    assert forall i :: 0 <= i < |a| ==> all[i] == a[i];
    assert forall i :: 0 <= i < |b| ==> all[|a| + i] == b[i];
    if KeysDistinct(all) {
      forall i, j | 0 <= i < |a| && 0 <= j < |b| ensures !SameKey(a[i], b[j]) {
        assert !SameKey(all[i], all[|a| + j]);
      }
      forall i, j | 0 <= i < j < |b| ensures !SameKey(b[i], b[j]) {
        assert !SameKey(all[|a| + i], all[|a| + j]);
      }
    }
  }

  lemma KeysOfOwning(owner: nat, items: seq<N.RawArtist>, default: nat)
    ensures KeysDistinct(N.Owning(owner, N.Credits(items, |items|, default)))
  {
    N.CreditPositions(items, |items|, default);
  }

  ghost predicate OwnersWithin(rows: seq<N.Owned>, tracks: seq<N.RawTrack>, n: nat)
    requires n <= |tracks|
  {
    forall k :: 0 <= k < |rows| ==> exists i :: 0 <= i < n && N.Identified(tracks[i], rows[k].owner)
  }

  // Storing the track credits never meets a key twice.
  lemma {:induction false} TrackCreditKeysDistinct(tracks: seq<N.RawTrack>, n: nat)
    requires n <= |tracks| && N.Sound(tracks, n)
    ensures KeysDistinct(N.TrackCreditsAfter(tracks, n)) && OwnersWithin(N.TrackCreditsAfter(tracks, n), tracks, n)
  {
    if n > 0 {
      TrackCreditKeysDistinct(tracks, n - 1);
      var init, last := N.TrackCreditsAfter(tracks, n - 1), N.CreditsOfTrack(tracks[n - 1]);
      N.TrackOk(tracks, n - 1);
      KeysOfOwning(tracks[n - 1].id.value, tracks[n - 1].artists, N.ARTIST_ROLE);
      forall k | 0 <= k < |init| ensures init[k].owner != tracks[n - 1].id.value {
        var i :| 0 <= i < n - 1 && N.Identified(tracks[i], init[k].owner);
        N.OnlyTrack(tracks, n, n - 1, i);
      }
      KeysOfConcat(init, last);
      forall k | 0 <= k < |init + last| ensures exists i :: 0 <= i < n && N.Identified(tracks[i], (init + last)[k].owner) {
        if k < |init| {
          var i :| 0 <= i < n - 1 && N.Identified(tracks[i], init[k].owner);
          assert N.Identified(tracks[i], (init + last)[k].owner);
        } else {
          assert N.Identified(tracks[n - 1], (init + last)[k].owner);
        }
      }
    }
  }

  // Two rows of one album credit an artist at the same position in the same role.
  ghost predicate RowsCollide(albums: seq<N.RawAlbum>, i: nat, j: nat)
    requires i < j < |albums|
  {
    !Apart(N.CreditsOfAlbum(albums[i]), N.CreditsOfAlbum(albums[j]))
  }

  ghost predicate NoneCollide(albums: seq<N.RawAlbum>, n: nat)
    requires n <= |albums|
  {
    forall i, j :: 0 <= i < j < n ==> !RowsCollide(albums, i, j)
  }

  ghost predicate ApartFromListed(albums: seq<N.RawAlbum>, n: nat, rows: seq<N.Owned>)
    requires n <= |albums|
  {
    forall i :: 0 <= i < n ==> Apart(N.CreditsOfAlbum(albums[i]), rows)
  }

  lemma ApartConcat(a: seq<N.Owned>, b: seq<N.Owned>, rows: seq<N.Owned>)
    ensures Apart(a + b, rows) <==> Apart(a, rows) && Apart(b, rows)
  {
    var all := a + b;
    assert forall i :: 0 <= i < |a| ==> all[i] == a[i];
    assert forall i :: 0 <= i < |b| ==> all[|a| + i] == b[i];
    if Apart(all, rows) {
      forall i, j | 0 <= i < |b| && 0 <= j < |rows| ensures !SameKey(b[i], rows[j]) {
        assert !SameKey(all[|a| + i], rows[j]);
      }
    }
  }

  lemma {:induction false} ApartFromEach(albums: seq<N.RawAlbum>, n: nat, rows: seq<N.Owned>)
    requires n <= |albums|
    ensures Apart(N.ListedCredits(albums, n), rows) <==> ApartFromListed(albums, n, rows)
  {
    hide Apart;
    if n > 0 {
      ApartFromEach(albums, n - 1, rows);
      ApartConcat(N.ListedCredits(albums, n - 1), N.CreditsOfAlbum(albums[n - 1]), rows);
    } else {
      assert Apart([], rows) by { ApartFromNothing(rows); }
    }
  }

  lemma ApartFromNothing(rows: seq<N.Owned>)
    ensures Apart([], rows)
  {
  }

  lemma CollideNext(albums: seq<N.RawAlbum>, n: nat)
    requires n < |albums|
    ensures NoneCollide(albums, n + 1)
      <==> NoneCollide(albums, n) && ApartFromListed(albums, n, N.CreditsOfAlbum(albums[n]))
  {
    hide Apart;
    if NoneCollide(albums, n + 1) {
      forall i | 0 <= i < n ensures Apart(N.CreditsOfAlbum(albums[i]), N.CreditsOfAlbum(albums[n])) {
        assert !RowsCollide(albums, i, n);
      }
    }
  }

  lemma {:induction false} ListedKeys(albums: seq<N.RawAlbum>, n: nat)
    requires n <= |albums|
    ensures KeysDistinct(N.ListedCredits(albums, n)) <==> NoneCollide(albums, n)
  {
    hide KeysDistinct, Apart, NoneCollide, ApartFromListed, N.ListedCredits, N.CreditsOfAlbum;
    if n > 0 {
      ListedKeys(albums, n - 1);
      ListedNext(albums, n - 1);
      var last := albums[n - 1];
      KeysOfConcat(N.ListedCredits(albums, n - 1), N.CreditsOfAlbum(last));
      ApartFromEach(albums, n - 1, N.CreditsOfAlbum(last));
      KeysOfAlbum(last);
      CollideNext(albums, n - 1);
    } else {
      NothingIsDistinct(albums);
    }
  }

  lemma ListedNext(albums: seq<N.RawAlbum>, n: nat)
    requires n < |albums|
    ensures N.ListedCredits(albums, n + 1) == N.ListedCredits(albums, n) + N.CreditsOfAlbum(albums[n])
  {
  }

  lemma NothingIsDistinct(albums: seq<N.RawAlbum>)
    ensures KeysDistinct(N.ListedCredits(albums, 0)) && NoneCollide(albums, 0)
  {
  }

  lemma KeysOfAlbum(a: N.RawAlbum)
    ensures KeysDistinct(N.CreditsOfAlbum(a))
  {
    if N.Usable(a) { KeysOfOwning(a.id.value, a.artists, N.ALBUM_ARTIST_ROLE); }
  }

  lemma {:induction false} AlbumCreditOwners(raw: N.Raw, n: nat, k: nat)
    requires n <= |raw.tracks| && k < |N.AlbumCreditsAfter(raw, n)|
    ensures N.Listed(raw.albums, |raw.albums|, N.AlbumCreditsAfter(raw, n)[k].owner)
         || N.Names(raw.tracks, n, N.AlbumCreditsAfter(raw, n)[k].owner)
  {
    if n == 0 {
      ListedOwners(raw.albums, |raw.albums|, k);
    } else {
      var init := N.AlbumCreditsAfter(raw, n - 1);
      if k < |init| {
        AlbumCreditOwners(raw, n - 1, k);
      } else {
        assert raw.tracks[n - 1].album == Some(N.AlbumCreditsAfter(raw, n)[k].owner);
      }
    }
  }

  lemma {:induction false} ListedOwners(albums: seq<N.RawAlbum>, n: nat, k: nat)
    requires n <= |albums| && k < |N.ListedCredits(albums, n)|
    ensures N.Listed(albums, n, N.ListedCredits(albums, n)[k].owner)
  {
    if n > 0 {
      var init := N.ListedCredits(albums, n - 1);
      if k < |init| {
        ListedOwners(albums, n - 1, k);
      } else {
        assert N.Lists(albums[n - 1], N.ListedCredits(albums, n)[k].owner);
      }
    }
  }

  lemma {:induction false} AlbumCreditKeys(raw: N.Raw, n: nat)
    requires n <= |raw.tracks|
    ensures KeysDistinct(N.AlbumCreditsAfter(raw, n)) <==> NoneCollide(raw.albums, |raw.albums|)
  {
    hide KeysDistinct, Apart, NoneCollide;
    if n == 0 {
      ListedKeys(raw.albums, |raw.albums|);
    } else {
      AlbumCreditKeys(raw, n - 1);
      if N.Infers(raw, n - 1) {
        var t := raw.tracks[n - 1];
        var init, more := N.AlbumCreditsAfter(raw, n - 1), N.InferredCredits(t);
        KeysOfOwning(t.album.value, t.albumArtists, N.ALBUM_ARTIST_ROLE);
        KeysOfConcat(init, more);
        forall k | 0 <= k < |init| ensures init[k].owner != t.album.value {
          AlbumCreditOwners(raw, n - 1, k);
        }
        OtherOwner(init, more, t.album.value);
      } else {
        assert N.AlbumCreditsAfter(raw, n) == N.AlbumCreditsAfter(raw, n - 1);
      }
    }
  }

  lemma OtherOwner(a: seq<N.Owned>, b: seq<N.Owned>, owner: nat)
    requires forall k :: 0 <= k < |a| ==> a[k].owner != owner
    requires forall k :: 0 <= k < |b| ==> b[k].owner == owner
    ensures Apart(a, b)
  {
  }

  // A repeated album row is merged, but its credits are not: they can be stored if and only if
  // no two rows listing one album credit an artist at the same position in the same role.
  lemma {:induction false} CreditRowsInsertable(raw: N.Raw, c: N.Catalog)
    requires N.Normalized(raw, c)
    ensures KeysDistinct(c.trackCredits)
    ensures KeysDistinct(c.albumCredits) <==> NoneCollide(raw.albums, |raw.albums|)
  {
    TrackCreditKeysDistinct(raw.tracks, |raw.tracks|);
    AlbumCreditKeys(raw, |raw.tracks|);
  }

  // Two rows list album 1. The first credits an artist without a role, the second another one with
  // the role the first falls back to.
  const ROLE_TWICE := N.Raw([], [
    N.RawAlbum(Some(1), Some(1), [N.RawArtist(Some(5), Some(5), 0, None)], 0, 0),
    N.RawAlbum(Some(1), Some(1), [N.RawArtist(Some(6), Some(6), 0, Some(N.ALBUM_ARTIST_ROLE))], 0, 0)], [])

  const ROLE_TWICE_CREDITS := [
    N.Owned(1, N.Credit(5, 5, 0, N.ALBUM_ARTIST_ROLE)), N.Owned(1, N.Credit(6, 6, 0, N.ALBUM_ARTIST_ROLE))]

  // The response is accepted, but its credit rows cannot all be stored.
  lemma {:induction false} RoleTwiceCollides(c: N.Catalog)
    requires N.Normalized(ROLE_TWICE, c)
    ensures N.Sound(ROLE_TWICE.tracks, |ROLE_TWICE.tracks|)
    ensures c.albumCredits == ROLE_TWICE_CREDITS && !KeysDistinct(c.albumCredits)
  {
    var a, b := ROLE_TWICE.albums[0], ROLE_TWICE.albums[1];
    assert N.Credits(a.artists, 0, N.ALBUM_ARTIST_ROLE) == [] && N.Credits(b.artists, 0, N.ALBUM_ARTIST_ROLE) == [];
    assert N.CreditsOfAlbum(a) == [ROLE_TWICE_CREDITS[0]];
    assert N.CreditsOfAlbum(b) == [ROLE_TWICE_CREDITS[1]];
    assert N.ListedCredits(ROLE_TWICE.albums, 0) == [];
    ListedNext(ROLE_TWICE.albums, 0);
    ListedNext(ROLE_TWICE.albums, 1);
    assert c.albumCredits == ROLE_TWICE_CREDITS;
    assert SameKey(c.albumCredits[0], c.albumCredits[1]);
  }

  // ---------------------------------------------------------------- memberships

  predicate InLibrary(c: N.Catalog, e: Entity, id: nat, library: nat) {
    N.Membership(Key(e, id), library) in c.memberships
  }

  lemma {:induction false} TrackInLibrary(raw: N.Raw, c: N.Catalog, i: nat, library: nat)
    requires N.Normalized(raw, c) && i < |c.tracks|
    ensures InLibrary(c, Track, c.tracks[i].id, library) <==> library in c.tracks[i].libraries
    ensures library in c.tracks[i].libraries <==> library in N.LibrariesOf(raw.tracks[i])
  {
    var m := N.Membership(Key(Track, c.tracks[i].id), library);
    assert m in c.memberships <==> N.Belongs(c, m);
    ReferencesResolve(raw, c);
    assert N.TrackRowOk(c.tracks[i], raw.tracks[i]);
  }

  // An album is in exactly the libraries of its tracks; an artist is in exactly those of the
  // tracks it is credited on and of the albums that credit it.
  lemma {:induction false} MembershipsAreUnions(raw: N.Raw, c: N.Catalog, id: nat, library: nat)
    requires N.Normalized(raw, c)
    ensures InLibrary(c, Album, id, library) <==>
      exists i :: 0 <= i < |c.tracks| && c.tracks[i].album == Some(id) && InLibrary(c, Track, c.tracks[i].id, library)
    ensures InLibrary(c, Artist, id, library) <==>
      (exists i :: 0 <= i < |c.tracks| && N.Credited(c.tracks[i].credits, id)
                && InLibrary(c, Track, c.tracks[i].id, library))
      || (exists i :: 0 <= i < |c.albumCredits| && c.albumCredits[i].credit.artist == id
                   && InLibrary(c, Album, c.albumCredits[i].owner, library))
    ensures !InLibrary(c, Library, id, library)
  {
    forall i | 0 <= i < |c.tracks|
      ensures InLibrary(c, Track, c.tracks[i].id, library) <==> library in c.tracks[i].libraries {
      TrackInLibrary(raw, c, i, library);
    }
    forall a | true ensures InLibrary(c, Album, a, library) <==> N.AlbumHolds(c.tracks, |c.tracks|, a, library) {
      var m := N.Membership(Key(Album, a), library);
      assert m in c.memberships <==> N.Belongs(c, m);
    }
    var m := N.Membership(Key(Artist, id), library);
    assert m in c.memberships <==> N.Belongs(c, m);
    assert N.Membership(Key(Library, id), library) in c.memberships
      <==> N.Belongs(c, N.Membership(Key(Library, id), library));
  }

  // The check a refresh makes before it publishes: track memberships only, and only when the
  // provider listed libraries.
  predicate Accepted(c: N.Catalog) {
    c.libraries == [] || (UnknownLibraries(c) == {} && TrackIds(c) - MappedTracks(c) == {})
  }

  function LibraryIds(c: N.Catalog): set<nat> { set l | l in c.libraries :: l.id }

  function TrackIds(c: N.Catalog): set<nat> { set t | t in c.tracks :: t.id }

  function MappedTracks(c: N.Catalog): set<nat> {
    set m | m in c.memberships && m.of.entity == Track && m.library in LibraryIds(c) :: m.of.id
  }

  function UnknownLibraries(c: N.Catalog): set<nat> {
    set m | m in c.memberships && m.of.entity == Track && m.library !in LibraryIds(c) :: m.library
  }

  lemma {:induction false} TrackMembership(raw: N.Raw, c: N.Catalog, m: N.Membership)
    requires N.Normalized(raw, c) && m in c.memberships && m.of.entity == Track
    ensures exists i :: 0 <= i < |c.tracks| && c.tracks[i].id == m.of.id && m.library in c.tracks[i].libraries
  {
    assert N.Belongs(c, m);
  }

  ghost predicate TrackPlaced(c: N.Catalog, t: N.TrackRow) {
    t.libraries != {} && t.libraries <= LibraryIds(c)
  }

  lemma {:induction false} AcceptedMeaning(raw: N.Raw, c: N.Catalog)
    requires N.Normalized(raw, c) && c.libraries != []
    ensures Accepted(c) <==> forall i :: 0 <= i < |c.tracks| ==> TrackPlaced(c, c.tracks[i])
  {
    hide N.Normalized, LibraryIds;
    ReferencesResolve(raw, c);
    if Accepted(c) {
      forall i | 0 <= i < |c.tracks| ensures TrackPlaced(c, c.tracks[i]) {
        var t := c.tracks[i];
        assert t in c.tracks && t.id in TrackIds(c);
        assert t.id !in TrackIds(c) - MappedTracks(c);
        var m :| m in c.memberships && m.of.entity == Track && m.library in LibraryIds(c) && m.of.id == t.id;
        assert m == N.Membership(Key(Track, t.id), m.library);
        TrackInLibrary(raw, c, i, m.library);
        forall l | l in t.libraries ensures l in LibraryIds(c) {
          TrackInLibrary(raw, c, i, l);
          assert l in LibraryIds(c) || l in UnknownLibraries(c);
        }
      }
    }
    if forall i :: 0 <= i < |c.tracks| ==> TrackPlaced(c, c.tracks[i]) {
      forall m | m in c.memberships && m.of.entity == Track ensures m.library in LibraryIds(c) {
        TrackMembership(raw, c, m);
        var i :| 0 <= i < |c.tracks| && c.tracks[i].id == m.of.id && m.library in c.tracks[i].libraries;
        assert TrackPlaced(c, c.tracks[i]);
      }
      forall id | id in TrackIds(c) ensures id in MappedTracks(c) {
        var t :| t in c.tracks && t.id == id;
        var i :| 0 <= i < |c.tracks| && c.tracks[i] == t;
        assert TrackPlaced(c, c.tracks[i]);
        var l :| l in t.libraries;
        TrackInLibrary(raw, c, i, l);
      }
    }
  }

  ghost predicate EveryMembershipKnown(c: N.Catalog) {
    forall m :: m in c.memberships ==> m.library in LibraryIds(c)
  }

  // Checking the tracks is enough: it holds if and only if every track has a library and every
  // membership of a track, album or artist names a listed one.
  lemma {:induction false} TrackCheckSuffices(raw: N.Raw, c: N.Catalog)
    requires N.Normalized(raw, c) && c.libraries != []
    ensures Accepted(c) <==>
      EveryMembershipKnown(c) && forall i :: 0 <= i < |c.tracks| ==> c.tracks[i].libraries != {}
  {
    hide N.Normalized, LibraryIds, Accepted;
    AcceptedMeaning(raw, c);
    if Accepted(c) {
      forall m | m in c.memberships ensures m.library in LibraryIds(c) {
        MembershipHasTrack(raw, c, m);
        var i :| 0 <= i < |c.tracks| && m.library in c.tracks[i].libraries;
        assert TrackPlaced(c, c.tracks[i]);
      }
    }
    if EveryMembershipKnown(c) {
      forall i, l | 0 <= i < |c.tracks| && l in c.tracks[i].libraries ensures l in LibraryIds(c) {
        TrackInLibrary(raw, c, i, l);
        assert N.Membership(Key(Track, c.tracks[i].id), l) in c.memberships;
      }
    }
  }

  // Every library anything is in, some track is in.
  lemma {:induction false} MembershipHasTrack(raw: N.Raw, c: N.Catalog, m: N.Membership)
    requires N.Normalized(raw, c) && m in c.memberships
    ensures exists i :: 0 <= i < |c.tracks| && m.library in c.tracks[i].libraries
  {
    assert N.Belongs(c, m);
    if m.of.entity == Artist && !N.TracksHold(c.tracks, |c.tracks|, m.of.id, m.library) {
      var i :| 0 <= i < |c.albumCredits| && c.albumCredits[i].credit.artist == m.of.id
            && N.AlbumHolds(c.tracks, |c.tracks|, c.albumCredits[i].owner, m.library);
    }
  }

  // ---------------------------------------------------------------- the snapshot that is published

  function LibraryKeys(libraries: set<nat>): set<Key> { set l | l in libraries :: Key(Library, l) }

  function ArtistKeys(cs: seq<N.Credit>): set<Key> { set k | 0 <= k < |cs| :: Key(Artist, cs[k].artist) }

  // Metadata fingerprints cover each row's credits, album and libraries.
  function LibraryAsRow(l: N.LibraryRow): Row { Row(l.id, Metadata(l.digest, {}), 0, 0) }

  function ArtistAsRow(c: N.Catalog, a: nat): Row
    requires a in c.artists
  {
    Row(a, Metadata(c.artists[a].first.name, LibraryKeys(c.artists[a].libraries)), 0, 0)
  }

  function AlbumAsRow(c: N.Catalog, a: nat): Row
    requires a in c.albums
  {
    var album := c.albums[a];
    Row(a, Metadata(album.digest, ArtistKeys(album.credits) + LibraryKeys(album.libraries)), album.artwork, 0)
  }

  function TrackAsRow(t: N.TrackRow): Row {
    var album := if t.album.Some? then {Key(Album, t.album.value)} else {};
    Row(t.id, Metadata(t.digest, album + ArtistKeys(t.credits) + LibraryKeys(t.libraries)), t.artwork, t.media)
  }

  function LibraryRows(c: N.Catalog): (r: seq<Row>)
    ensures |r| == |c.libraries| && forall i :: 0 <= i < |r| ==> r[i] == LibraryAsRow(c.libraries[i])
  {
    seq(|c.libraries|, i requires 0 <= i < |c.libraries| => LibraryAsRow(c.libraries[i]))
  }

  function ArtistRows(c: N.Catalog): (r: seq<Row>)
    ensures |r| == |Ascending(c.artists.Keys)|
    ensures forall i :: 0 <= i < |r| ==>
      Ascending(c.artists.Keys)[i] in c.artists && r[i] == ArtistAsRow(c, Ascending(c.artists.Keys)[i])
  {
    var ids := Ascending(c.artists.Keys);
    assert forall i :: 0 <= i < |ids| ==> ids[i] in ids;
    seq(|ids|, i requires 0 <= i < |ids| && ids[i] in c.artists => ArtistAsRow(c, ids[i]))
  }

  function AlbumRows(c: N.Catalog): (r: seq<Row>)
    ensures |r| == |Ascending(c.albums.Keys)|
    ensures forall i :: 0 <= i < |r| ==>
      Ascending(c.albums.Keys)[i] in c.albums && r[i] == AlbumAsRow(c, Ascending(c.albums.Keys)[i])
  {
    var ids := Ascending(c.albums.Keys);
    assert forall i :: 0 <= i < |ids| ==> ids[i] in ids;
    seq(|ids|, i requires 0 <= i < |ids| && ids[i] in c.albums => AlbumAsRow(c, ids[i]))
  }

  function TrackRows(c: N.Catalog): (r: seq<Row>)
    ensures |r| == |c.tracks| && forall i :: 0 <= i < |r| ==> r[i] == TrackAsRow(c.tracks[i])
  {
    seq(|c.tracks|, i requires 0 <= i < |c.tracks| => TrackAsRow(c.tracks[i]))
  }

  function ToSnapshot(c: N.Catalog): Snapshot {
    Snapshot(LibraryRows(c), ArtistRows(c), AlbumRows(c), TrackRows(c))
  }

  predicate LibrariesDistinct(c: N.Catalog) {
    forall i, j :: 0 <= i < j < |c.libraries| ==> c.libraries[i].id != c.libraries[j].id
  }

  lemma {:induction false} ArtistsUnique(c: N.Catalog)
    ensures UniqueIds(ArtistRows(c)) && UniqueIds(AlbumRows(c))
  {
    hide LibraryKeys, ArtistKeys;
    AscendingIncreases(c.artists.Keys);
    AscendingIncreases(c.albums.Keys);
  }

  lemma {:induction false} TracksUnique(raw: N.Raw, c: N.Catalog)
    requires N.Normalized(raw, c)
    ensures UniqueIds(TrackRows(c))
  {
    hide N.Normalized, LibraryKeys, ArtistKeys;
    ReferencesResolve(raw, c);
  }

  // Its rows can all be inserted if and only if the provider listed no library twice.
  lemma {:induction false} SnapshotInsertable(raw: N.Raw, c: N.Catalog)
    requires N.Normalized(raw, c)
    ensures Insertable(ToSnapshot(c)) <==> LibrariesDistinct(c)
  {
    hide N.Normalized, ArtistRows, AlbumRows, TrackRows, Insertable;
    InsertableByTable(ToSnapshot(c));
    ArtistsUnique(c);
    TracksUnique(raw, c);
    if UniqueIds(LibraryRows(c)) {
      forall i, j | 0 <= i < j < |c.libraries| ensures c.libraries[i].id != c.libraries[j].id {
        assert LibraryRows(c)[i].id != LibraryRows(c)[j].id;
      }
    }
  }

  const LIBRARY_TWICE := N.Raw([N.RawLibrary(Some(7), Some(1), 0), N.RawLibrary(Some(7), Some(1), 0)], [], [])

  // A library listed twice is accepted by the normalizer, and refused by the table.
  lemma {:induction false} LibraryTwiceIsRefused(c: N.Catalog)
    requires N.Normalized(LIBRARY_TWICE, c)
    ensures N.Sound(LIBRARY_TWICE.tracks, |LIBRARY_TWICE.tracks|) && !Insertable(ToSnapshot(c))
  {
    hide ToSnapshot, Insertable;
    var rows := N.UsableLibraries(LIBRARY_TWICE.libraries, 2);
    assert N.UsableLibraries(LIBRARY_TWICE.libraries, 0) == [];
    assert N.UsableLibraries(LIBRARY_TWICE.libraries, 1) == [N.LibraryRow(7, 1, 0)];
    assert rows == [N.LibraryRow(7, 1, 0), N.LibraryRow(7, 1, 0)];
    assert c.libraries[0].id == c.libraries[1].id;
    SnapshotInsertable(LIBRARY_TWICE, c);
  }

  // ---------------------------------------------------------------- no dangling reference is published

  lemma {:induction false} KeysInTable(e: Entity, rows: seq<Row>, k: Key)
    ensures k in TableOf(e, rows) <==> k.entity == e && exists i :: 0 <= i < |rows| && rows[i].id == k.id
    ensures k in TableOf(e, rows) ==> exists i :: 0 <= i < |rows| && rows[i].id == k.id && rows[i] == TableOf(e, rows)[k]
    decreases |rows|
  {
    if rows != [] {
      var init, last := rows[..|rows| - 1], rows[|rows| - 1];
      KeysInTable(e, init, k);
      assert rows == init + [last];
      if k == Key(e, last.id) {
        assert rows[|rows| - 1] == TableOf(e, rows)[k];
      } else if k in TableOf(e, init) {
        var i :| 0 <= i < |init| && init[i].id == k.id && init[i] == TableOf(e, init)[k];
        assert rows[i] == TableOf(e, rows)[k];
      }
    }
  }

  predicate Has(c: N.Catalog, k: Key) {
    match k.entity
    case Library => k.id in LibraryIds(c)
    case Artist => k.id in c.artists
    case Album => k.id in c.albums
    case Track => k.id in TrackIds(c)
  }

  lemma {:induction false} LibraryStored(c: N.Catalog, k: Key)
    requires k.entity == Library
    ensures k in TableOf(Library, LibraryRows(c)) <==> k.id in LibraryIds(c)
    ensures k in TableOf(Library, LibraryRows(c)) ==> TableOf(Library, LibraryRows(c))[k].metadata.refs == {}
  {
    hide TableOf;
    KeysInTable(Library, LibraryRows(c), k);
    if k.id in LibraryIds(c) {
      var l :| l in c.libraries && l.id == k.id;
      var i :| 0 <= i < |c.libraries| && c.libraries[i] == l;
      assert LibraryRows(c)[i].id == k.id;
    }
  }

  lemma {:induction false} ArtistStored(c: N.Catalog, k: Key)
    requires k.entity == Artist
    ensures k in TableOf(Artist, ArtistRows(c)) <==> k.id in c.artists
    ensures k in TableOf(Artist, ArtistRows(c)) ==>
      k.id in c.artists && TableOf(Artist, ArtistRows(c))[k] == ArtistAsRow(c, k.id)
  {
    hide TableOf, LibraryKeys;
    KeysInTable(Artist, ArtistRows(c), k);
    if k.id in c.artists {
      assert k.id in Ascending(c.artists.Keys);
      var i :| 0 <= i < |Ascending(c.artists.Keys)| && Ascending(c.artists.Keys)[i] == k.id;
      assert ArtistRows(c)[i].id == k.id;
    }
  }

  lemma {:induction false} AlbumStored(c: N.Catalog, k: Key)
    requires k.entity == Album
    ensures k in TableOf(Album, AlbumRows(c)) <==> k.id in c.albums
    ensures k in TableOf(Album, AlbumRows(c)) ==>
      k.id in c.albums && TableOf(Album, AlbumRows(c))[k] == AlbumAsRow(c, k.id)
  {
    hide TableOf, LibraryKeys, ArtistKeys;
    KeysInTable(Album, AlbumRows(c), k);
    if k.id in c.albums {
      assert k.id in Ascending(c.albums.Keys);
      var i :| 0 <= i < |Ascending(c.albums.Keys)| && Ascending(c.albums.Keys)[i] == k.id;
      assert AlbumRows(c)[i].id == k.id;
    }
  }

  lemma {:induction false} TrackStored(c: N.Catalog, k: Key)
    requires k.entity == Track
    ensures k in TableOf(Track, TrackRows(c)) <==> k.id in TrackIds(c)
    ensures k in TableOf(Track, TrackRows(c)) ==>
      exists i :: 0 <= i < |c.tracks| && c.tracks[i].id == k.id && TableOf(Track, TrackRows(c))[k] == TrackAsRow(c.tracks[i])
  {
    hide TableOf, LibraryKeys, ArtistKeys;
    KeysInTable(Track, TrackRows(c), k);
    if k.id in TrackIds(c) {
      var t :| t in c.tracks && t.id == k.id;
      var i :| 0 <= i < |c.tracks| && c.tracks[i] == t;
      assert TrackRows(c)[i].id == k.id;
    }
  }

  // The stored rows are the catalogue's rows, each as described above.
  lemma {:induction false} StoredRows(c: N.Catalog, k: Key)
    ensures k in SnapshotRows(ToSnapshot(c)) <==> Has(c, k)
    ensures k in SnapshotRows(ToSnapshot(c)) ==>
      var row := SnapshotRows(ToSnapshot(c))[k];
      match k.entity
      case Library => row.metadata.refs == {}
      case Artist => k.id in c.artists && row == ArtistAsRow(c, k.id)
      case Album => k.id in c.albums && row == AlbumAsRow(c, k.id)
      case Track => exists i :: 0 <= i < |c.tracks| && c.tracks[i].id == k.id && row == TrackAsRow(c.tracks[i])
  {
    hide TableOf, SnapshotRows, LibraryIds, TrackIds, ArtistAsRow, AlbumAsRow, TrackAsRow,
      LibraryRows, ArtistRows, AlbumRows, TrackRows;
    SnapshotEntity(ToSnapshot(c), k.entity);
    match k.entity
    case Library => LibraryStored(c, k);
    case Artist => ArtistStored(c, k);
    case Album => AlbumStored(c, k);
    case Track => TrackStored(c, k);
  }

  ghost predicate TracksKnown(c: N.Catalog) {
    forall i, l :: 0 <= i < |c.tracks| && l in c.tracks[i].libraries ==> l in LibraryIds(c)
  }

  lemma {:induction false} RowLibrariesKnown(raw: N.Raw, c: N.Catalog)
    requires N.Normalized(raw, c) && TracksKnown(c)
    ensures forall a :: a in c.artists ==> c.artists[a].libraries <= LibraryIds(c)
    ensures forall a :: a in c.albums ==> c.albums[a].libraries <= LibraryIds(c)
  {
    hide LibraryIds;
    forall a, l | a in c.albums && l in c.albums[a].libraries ensures l in LibraryIds(c) {
      assert N.AlbumRowOk(raw, c, a);
      assert N.AlbumHolds(c.tracks, |c.tracks|, a, l);
    }
    forall a, l | a in c.artists && l in c.artists[a].libraries ensures l in LibraryIds(c) {
      assert N.ArtistHolds(c.tracks, c.albumCredits, a, l);
      if !N.TracksHold(c.tracks, |c.tracks|, a, l) {
        var i :| 0 <= i < |c.albumCredits| && c.albumCredits[i].credit.artist == a
              && N.AlbumHolds(c.tracks, |c.tracks|, c.albumCredits[i].owner, l);
      }
    }
  }

  lemma {:induction false} StoredReferenceResolves(raw: N.Raw, c: N.Catalog, k: Key, r: Key)
    requires N.Normalized(raw, c) && TracksKnown(c)
    requires var rows := SnapshotRows(ToSnapshot(c)); k in rows && r in rows[k].metadata.refs
    ensures Has(c, r) && Rank(r.entity) < Rank(k.entity)
  {
    hide N.Normalized, LibraryIds, ToSnapshot, SnapshotRows;
    StoredRows(c, k);
    RowLibrariesKnown(raw, c);
    ReferencesResolve(raw, c);
    if k.entity == Track {
      var i :| 0 <= i < |c.tracks| && c.tracks[i].id == k.id && SnapshotRows(ToSnapshot(c))[k] == TrackAsRow(c.tracks[i]);
      assert TrackResolves(c, c.tracks[i]);
      assert c.tracks[i].libraries <= LibraryIds(c);
    }
  }

  // What would be published has no dangling reference if and only if every library a track
  // is in was listed.
  lemma {:induction false} SnapshotClosed(raw: N.Raw, c: N.Catalog)
    requires N.Normalized(raw, c)
    ensures ClosedSnapshot(ToSnapshot(c)) <==> TracksKnown(c)
  {
    hide N.Normalized, LibraryIds, ToSnapshot, SnapshotRows;
    var rows := SnapshotRows(ToSnapshot(c));
    if TracksKnown(c) {
      forall k, r | k in ViewOf(rows) && r in ViewOf(rows)[k].metadata.refs
        ensures r in ViewOf(rows) && Rank(r.entity) < Rank(k.entity)
      {
        StoredReferenceResolves(raw, c, k, r);
        StoredRows(c, r);
      }
    }
    if ClosedSnapshot(ToSnapshot(c)) {
      forall i, l | 0 <= i < |c.tracks| && l in c.tracks[i].libraries ensures l in LibraryIds(c) {
        TrackLibraryIsStored(raw, c, i, l);
      }
    }
  }

  lemma {:induction false} TrackLibraryIsStored(raw: N.Raw, c: N.Catalog, i: nat, l: nat)
    requires N.Normalized(raw, c) && ClosedSnapshot(ToSnapshot(c))
    requires i < |c.tracks| && l in c.tracks[i].libraries
    ensures l in LibraryIds(c)
  {
    hide N.Normalized, LibraryIds, ToSnapshot, SnapshotRows;
    var rows := SnapshotRows(ToSnapshot(c));
    var k := Key(Track, c.tracks[i].id);
    assert c.tracks[i] in c.tracks;
    StoredRows(c, k);
    ReferencesResolve(raw, c);
    var j :| 0 <= j < |c.tracks| && c.tracks[j].id == k.id && rows[k] == TrackAsRow(c.tracks[j]);
    assert j == i;
    assert Key(Library, l) in ViewOf(rows)[k].metadata.refs;
    StoredRows(c, Key(Library, l));
  }

  // A refresh that lists libraries and passes the check publishes a closed catalogue.
  lemma {:induction false} AcceptedIsClosed(raw: N.Raw, c: N.Catalog)
    requires N.Normalized(raw, c) && c.libraries != [] && Accepted(c)
    ensures ClosedSnapshot(ToSnapshot(c))
  {
    AcceptedMeaning(raw, c);
    SnapshotClosed(raw, c);
    forall i, l | 0 <= i < |c.tracks| && l in c.tracks[i].libraries ensures l in LibraryIds(c) {
      assert TrackPlaced(c, c.tracks[i]);
    }
  }

  const UNLISTED := N.Raw([], [], [
    N.RawTrack(Some(1), Some(1), None, None, [], [], Some(9), 0, 0, 0, [], 0, 0)])

  // A provider that lists no library but names one on a track: the check passes, and what is
  // published refers to a library nobody has.
  lemma {:induction false} UnlistedLibraryDangles(c: N.Catalog)
    requires N.Normalized(UNLISTED, c)
    ensures N.Sound(UNLISTED.tracks, |UNLISTED.tracks|)
    ensures Accepted(c) && !ClosedSnapshot(ToSnapshot(c))
  {
    hide ToSnapshot, ClosedSnapshot;
    assert c.libraries == [];
    assert N.TrackRowOk(c.tracks[0], UNLISTED.tracks[0]);
    assert 9 in N.LibrariesOf(UNLISTED.tracks[0]);
    assert 9 in c.tracks[0].libraries && 9 !in LibraryIds(c);
    SnapshotClosed(UNLISTED, c);
  }

  // What a fetch step of the protocol hands over, when it comes from a checked response.
  ghost predicate FromProvider(s: Snapshot) {
    exists raw, c :: N.Normalized(raw, c) && c.libraries != [] && Accepted(c) && s == ToSnapshot(c)
  }

  // Through every run of publishers, maintenance and clients that is fed by checked responses,
  // no following client ever holds a dangling reference, wherever it stands in the journal.
  lemma {:induction false} CheckedRunsStayClosed(epoch: Epoch, steps: seq<Step>, client: Name)
    requires forall i :: 0 <= i < |steps| && steps[i].Fetch? ==> FromProvider(steps[i].s)
    requires var w := Exec(Init(epoch), steps); client in w.clients && w.clients[client].Following?
    ensures Closed(Exec(Init(epoch), steps).clients[client].mirror)
  {
    forall i | 0 <= i < |steps| ensures ClosedStep(steps[i]) {
      if steps[i].Fetch? {
        var raw, c :| N.Normalized(raw, c) && c.libraries != [] && Accepted(c) && steps[i].s == ToSnapshot(c);
        AcceptedIsClosed(raw, c);
      }
    }
    MirrorsStayClosed(epoch, steps, client);
  }
}
