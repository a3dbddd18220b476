// From a provider response to the rows that are published, value by value.

module NormalizeOutcomes {
  import opened Prelude
  import opened CatalogTypes
  import opened CatalogStore
  import opened NormalizeTheorems
  import N = Normalize

  // ---------------------------------------------------------------- which responses are accepted

  // A response is accepted exactly when every track has an ID and a title, no ID repeats, and no
  // track names its album without giving the album's ID.
  lemma {:induction false} AcceptedExactlyWhen(raw: N.Raw)
    ensures N.Sound(raw.tracks, |raw.tracks|) <==>
      && (forall i: nat :: 0 <= i < |raw.tracks| ==> raw.tracks[i].id.Some? && raw.tracks[i].title.Some?)
      && (forall i, j :: 0 <= i < j < |raw.tracks| ==> raw.tracks[i].id != raw.tracks[j].id)
      && (forall i: nat :: 0 <= i < |raw.tracks| ==> raw.tracks[i].albumName.None? || raw.tracks[i].album.Some?)
  {
    var tracks := raw.tracks;
    if N.Sound(tracks, |tracks|) {
      forall i: nat | 0 <= i < |tracks|
        ensures tracks[i].id.Some? && tracks[i].title.Some? && (tracks[i].albumName.None? || tracks[i].album.Some?)
             && forall j: nat :: 0 <= j < i ==> tracks[j].id != tracks[i].id
      {
        assert N.Fault(tracks, i).None?;
      }
    }
  }

  // ---------------------------------------------------------------- credits

  // The item at a position credits an artist: by the artist's own ID, or the one made from its name.
  predicate Credits(items: seq<N.RawArtist>, j: nat, artist: nat) {
    j < |items| && items[j].name.Some?
    && artist == (if items[j].native.Some? then items[j].native.value else items[j].derived)
  }

  ghost predicate CreditsAny(items: seq<N.RawArtist>, artist: nat) {
    exists j: nat :: Credits(items, j, artist)
  }

  // A credit row stands for exactly one named item, with its position, name and role.
  predicate CreditFor(items: seq<N.RawArtist>, j: nat, default: nat, c: N.Credit) {
    Credits(items, j, c.artist) && c.position == j && Some(c.name) == items[j].name
    && c.role == (if items[j].role.Some? then items[j].role.value else default)
  }

  lemma {:induction false} CreditsExactly(items: seq<N.RawArtist>, n: nat, default: nat, c: N.Credit)
    requires n <= |items|
    ensures c in N.Credits(items, n, default) <==> exists j: nat :: 0 <= j < n && CreditFor(items, j, default, c)
  {
    if n > 0 {
      CreditsExactly(items, n - 1, default, c);
      if CreditFor(items, n - 1, default, c) { assert items[n - 1].name.Some?; }
    }
  }

  lemma {:induction false} ArtistsCredited(items: seq<N.RawArtist>, default: nat, artist: nat)
    ensures N.Credited(N.Credits(items, |items|, default), artist) <==> CreditsAny(items, artist)
  {
    var cs := N.Credits(items, |items|, default);
    if k: nat :| 0 <= k < |cs| && cs[k].artist == artist {
      CreditsExactly(items, |items|, default, cs[k]);
    }
    if j: nat :| Credits(items, j, artist) {
      var c := N.Credit(artist, items[j].name.value, j, if items[j].role.Some? then items[j].role.value else default);
      CreditsExactly(items, |items|, default, c);
      assert CreditFor(items, j, default, c);
      var k: nat :| 0 <= k < |cs| && cs[k] == c;
    }
  }

  // ---------------------------------------------------------------- libraries

  predicate UsableLibrary(raw: N.Raw, i: nat, id: nat) {
    i < |raw.libraries| && raw.libraries[i].id == Some(id) && raw.libraries[i].name.Some?
  }

  // The last of the given rows with an ID.
  ghost predicate LastWith(rows: seq<N.LibraryRow>, m: nat, id: nat) {
    m < |rows| && rows[m].id == id && forall j :: m < j < |rows| ==> rows[j].id != id
  }

  // The last listing of a library, among the first n.
  ghost predicate LastUsable(raw: N.Raw, n: nat, i: nat, id: nat) {
    i < n && UsableLibrary(raw, i, id) && forall j :: i < j < n ==> !UsableLibrary(raw, j, id)
  }

  ghost predicate HasLibrary(rows: seq<N.LibraryRow>, id: nat) { exists m: nat :: m < |rows| && rows[m].id == id }

  ghost predicate ListsLibrary(raw: N.Raw, n: nat, id: nat) { exists i: nat :: i < n && UsableLibrary(raw, i, id) }

  lemma {:induction false} LibrariesKept(raw: N.Raw, n: nat, id: nat)
    requires n <= |raw.libraries|
    ensures HasLibrary(N.UsableLibraries(raw.libraries, n), id) <==> ListsLibrary(raw, n, id)
  {
    if n > 0 {
      LibrariesKept(raw, n - 1, id);
      var init, rows := N.UsableLibraries(raw.libraries, n - 1), N.UsableLibraries(raw.libraries, n);
      if UsableLibrary(raw, n - 1, id) { assert rows[|init|].id == id; }
      if m: nat :| m < |init| && init[m].id == id { assert rows[m].id == id; }
      if m: nat :| m < |rows| && rows[m].id == id { assert m < |init| ==> init[m].id == id; }
    }
  }

  lemma {:induction false} LastKept(raw: N.Raw, n: nat, i: nat, id: nat)
    requires n <= |raw.libraries| && LastUsable(raw, n, i, id)
    ensures exists m: nat :: LastWith(N.UsableLibraries(raw.libraries, n), m, id)
                          && N.UsableLibraries(raw.libraries, n)[m].digest == raw.libraries[i].digest
  {
    var init, rows := N.UsableLibraries(raw.libraries, n - 1), N.UsableLibraries(raw.libraries, n);
    if i == n - 1 {
      assert LastWith(rows, |init|, id);
    } else {
      LastKept(raw, n - 1, i, id);
      var m: nat :| LastWith(init, m, id) && init[m].digest == raw.libraries[i].digest;
      assert !UsableLibrary(raw, n - 1, id);
      assert LastWith(rows, m, id) && rows[m] == init[m];
    }
  }

  // A library is published exactly when the provider lists it with a name, as it listed it last.
  lemma {:induction false} LibrariesAreShown(raw: N.Raw, c: N.Catalog, id: nat)
    requires N.Normalized(raw, c)
    ensures var rows := SnapshotRows(ToSnapshot(c));
      var k := Key(Library, id);
      && (k in rows <==> ListsLibrary(raw, |raw.libraries|, id))
      && forall i: nat :: LastUsable(raw, |raw.libraries|, i, id) ==>
           k in rows && rows[k].metadata == Metadata(raw.libraries[i].digest, {})
  {
    hide SnapshotRows, N.Normalized, HasLibrary, ListsLibrary, GivenBy, N.UsableLibraries;
    LibrariesOfCatalog(raw, c);
    LibrariesKept(raw, |raw.libraries|, id);
    StoredRows(c, Key(Library, id));
    InLibraries(c, id);
    forall i: nat | LastUsable(raw, |raw.libraries|, i, id)
      ensures Key(Library, id) in SnapshotRows(ToSnapshot(c))
           && SnapshotRows(ToSnapshot(c))[Key(Library, id)].metadata == Metadata(raw.libraries[i].digest, {})
    {
      LastKept(raw, |raw.libraries|, i, id);
      var m: nat :| LastWith(c.libraries, m, id) && c.libraries[m].digest == raw.libraries[i].digest;
      StoredLibrary(c, m, id);
    }
  }

  lemma InLibraries(c: N.Catalog, id: nat)
    ensures HasLibrary(c.libraries, id) <==> id in LibraryIds(c)
  {
    if l :| l in c.libraries && l.id == id {
      var m: nat :| m < |c.libraries| && c.libraries[m] == l;
      assert c.libraries[m].id == id;
    }
  }

  lemma {:induction false} StoredLibrary(c: N.Catalog, m: nat, id: nat)
    requires LastWith(c.libraries, m, id)
    ensures m < |c.libraries| && Key(Library, id) in SnapshotRows(ToSnapshot(c))
    ensures SnapshotRows(ToSnapshot(c))[Key(Library, id)] == LibraryAsRow(c.libraries[m])
  {
    hide SnapshotRows, ArtistRows, AlbumRows, TrackRows;
    var rows := LibraryRows(c);
    SnapshotExactly(ToSnapshot(c), Key(Library, id));
    assert RowsFor(ToSnapshot(c), Library) == rows;
    assert forall j: nat :: j < |rows| ==> rows[j] == LibraryAsRow(c.libraries[j]);
    assert GivenBy(rows, m, id);
  }

  lemma LibrariesOfCatalog(raw: N.Raw, c: N.Catalog)
    requires N.Normalized(raw, c)
    ensures c.libraries == N.UsableLibraries(raw.libraries, |raw.libraries|)
  {
  }

  // ---------------------------------------------------------------- tracks

  // The libraries a track names: those it lists, or its folder when it lists none.
  predicate NamesLibrary(t: N.RawTrack, library: nat) {
    library in t.libraries || (t.libraries == [] && t.folder == Some(library))
  }

  // A track is published as the provider sent it, with references to exactly its album, the artists
  // its named items credit, and the libraries it names.
  lemma {:induction false} TracksAreShown(raw: N.Raw, c: N.Catalog, i: nat)
    requires N.Normalized(raw, c) && i < |raw.tracks|
    ensures var t := raw.tracks[i];
      var rows := SnapshotRows(ToSnapshot(c));
      && t.id.Some? && Key(Track, t.id.value) in rows
      && var row := rows[Key(Track, t.id.value)];
         && row.media == t.media && row.artwork == t.artwork && row.metadata.digest == t.digest
         && forall r :: r in row.metadata.refs <==>
              match r.entity
              case Library => NamesLibrary(t, r.id)
              case Artist => CreditsAny(t.artists, r.id)
              case Album => t.album == Some(r.id)
              case Track => false
  {
    hide SnapshotRows, ToSnapshot, CreditsAny, N.Credits;
    var t := raw.tracks[i];
    TrackStoredAs(raw, c, i);
    TrackRefs(raw, c, i);
  }

  lemma {:induction false} TrackStoredAs(raw: N.Raw, c: N.Catalog, i: nat)
    requires N.Normalized(raw, c) && i < |raw.tracks|
    ensures i < |c.tracks| && c.tracks[i].id == raw.tracks[i].id.value == c.tracks[i].id && N.TrackRowOk(c.tracks[i], raw.tracks[i])
    ensures var k := Key(Track, c.tracks[i].id);
      k in SnapshotRows(ToSnapshot(c)) && SnapshotRows(ToSnapshot(c))[k] == TrackAsRow(c.tracks[i])
  {
    hide SnapshotRows, ToSnapshot, TrackAsRow;
    assert N.TrackRowOk(c.tracks[i], raw.tracks[i]);
    ReferencesResolve(raw, c);
    var k := Key(Track, c.tracks[i].id);
    assert c.tracks[i] in c.tracks;
    StoredRows(c, k);
    var j: nat :| 0 <= j < |c.tracks| && c.tracks[j].id == k.id && SnapshotRows(ToSnapshot(c))[k] == TrackAsRow(c.tracks[j]);
    assert j == i;
  }

  lemma {:induction false} TrackRefs(raw: N.Raw, c: N.Catalog, i: nat)
    requires i < |raw.tracks| && i < |c.tracks| && N.TrackRowOk(c.tracks[i], raw.tracks[i])
    ensures var t := raw.tracks[i];
      forall r :: r in TrackAsRow(c.tracks[i]).metadata.refs <==>
        match r.entity
        case Library => NamesLibrary(t, r.id)
        case Artist => CreditsAny(t.artists, r.id)
        case Album => t.album == Some(r.id)
        case Track => false
  {
    hide CreditsAny, N.Credits;
    var t := raw.tracks[i];
    forall r: Key ensures r in ArtistKeys(c.tracks[i].credits) <==> r.entity == Artist && CreditsAny(t.artists, r.id) {
      ArtistsCredited(t.artists, N.ARTIST_ROLE, r.id);
      CreditKeys(c.tracks[i].credits, r);
    }
  }

  lemma CreditKeys(cs: seq<N.Credit>, r: Key)
    ensures r in ArtistKeys(cs) <==> r.entity == Artist && N.Credited(cs, r.id)
  {
    if k: nat :| 0 <= k < |cs| && cs[k].artist == r.id && r.entity == Artist { assert Key(Artist, cs[k].artist) == r; }
  }

  // ---------------------------------------------------------------- albums

  predicate ListedBy(raw: N.Raw, i: nat, album: nat) {
    i < |raw.albums| && raw.albums[i].name.Some? && raw.albums[i].id == Some(album)
  }

  predicate NamedBy(raw: N.Raw, i: nat, album: nat) {
    i < |raw.tracks| && raw.tracks[i].album == Some(album)
  }

  ghost predicate IsListed(raw: N.Raw, album: nat) { exists i: nat :: ListedBy(raw, i, album) }

  // The last row that lists an album, and the first track that names one.
  ghost predicate LastListing(raw: N.Raw, i: nat, album: nat) {
    ListedBy(raw, i, album) && forall j: nat :: i < j < |raw.albums| ==> !ListedBy(raw, j, album)
  }

  ghost predicate FirstNaming(raw: N.Raw, i: nat, album: nat) {
    NamedBy(raw, i, album) && forall j: nat :: 0 <= j < i ==> !NamedBy(raw, j, album)
  }

  lemma ListedMeans(raw: N.Raw, album: nat)
    ensures N.Listed(raw.albums, |raw.albums|, album) <==> IsListed(raw, album)
  {
    if i: nat :| 0 <= i < |raw.albums| && N.Lists(raw.albums[i], album) { assert ListedBy(raw, i, album); }
    if i: nat :| ListedBy(raw, i, album) { assert N.Lists(raw.albums[i], album); }
  }

  lemma NamedMeans(raw: N.Raw, n: nat, album: nat)
    requires n <= |raw.tracks|
    ensures N.Names(raw.tracks, n, album) <==> exists i: nat :: 0 <= i < n && NamedBy(raw, i, album)
  {
    if i: nat :| 0 <= i < n && raw.tracks[i].album == Some(album) { assert NamedBy(raw, i, album); }
  }

  lemma {:induction false} LastListed(raw: N.Raw, n: nat, i: nat, album: nat)
    requires i < n <= |raw.albums| && ListedBy(raw, i, album) && forall j: nat :: i < j < n ==> !ListedBy(raw, j, album)
    ensures album in N.ListedRows(raw.albums, n) && N.ListedRows(raw.albums, n)[album] == N.Bare(raw.albums[i])
  {
    if n > i + 1 {
      LastListed(raw, n - 1, i, album);
      assert !ListedBy(raw, n - 1, album);
    }
  }

  // Tracks never change how a listed album is described.
  lemma {:induction false} ListedStays(raw: N.Raw, n: nat, album: nat)
    requires n <= |raw.tracks| && N.Listed(raw.albums, |raw.albums|, album)
    ensures album in N.ListedRows(raw.albums, |raw.albums|)
    ensures album in N.AlbumsAfter(raw, n) && N.AlbumsAfter(raw, n)[album] == N.ListedRows(raw.albums, |raw.albums|)[album]
  {
    N.ListedRowsKeys(raw.albums, |raw.albums|, album);
    if n > 0 { ListedStays(raw, n - 1, album); }
  }

  lemma {:induction false} FirstNames(raw: N.Raw, n: nat, i: nat, album: nat)
    requires i < n <= |raw.tracks| && !N.Listed(raw.albums, |raw.albums|, album) && FirstNaming(raw, i, album)
    ensures album in N.AlbumsAfter(raw, n) && N.AlbumsAfter(raw, n)[album] == N.InferredRow(raw.tracks[i])
  {
    if n > i + 1 {
      FirstNames(raw, n - 1, i, album);
      if raw.tracks[n - 1].album == Some(album) { assert N.Names(raw.tracks, n - 1, album) by { assert raw.tracks[i].album == Some(album); } }
    } else {
      NamedMeans(raw, i, album);
    }
  }

  // An album is published exactly when a row lists it or a track names it. The last row that lists
  // it describes it, or else the first track that names it.
  lemma {:induction false} AlbumsAreDescribed(raw: N.Raw, c: N.Catalog, album: nat)
    requires N.Normalized(raw, c)
    ensures var rows := SnapshotRows(ToSnapshot(c));
      var k := Key(Album, album);
      && (k in rows <==> IsListed(raw, album) || exists i: nat :: NamedBy(raw, i, album))
      && (forall i: nat :: LastListing(raw, i, album) ==>
            k in rows && rows[k].metadata.digest == raw.albums[i].digest && rows[k].artwork == raw.albums[i].artwork)
      && (forall i: nat :: !IsListed(raw, album) && FirstNaming(raw, i, album) ==>
            k in rows && rows[k].metadata.digest == raw.tracks[i].albumDigest
            && rows[k].artwork == raw.tracks[i].albumArtwork)
  {
    hide SnapshotRows, ToSnapshot, IsListed;
    var n := |raw.tracks|;
    StoredRows(c, Key(Album, album));
    N.AlbumsAfterKeys(raw, n, album);
    ListedMeans(raw, album);
    NamedMeans(raw, n, album);
    if album in c.albums { assert N.AlbumRowOk(raw, c, album); }
    forall i: nat | LastListing(raw, i, album)
      ensures album in N.AlbumsAfter(raw, n) && N.AlbumsAfter(raw, n)[album] == N.Bare(raw.albums[i])
    {
      LastListed(raw, |raw.albums|, i, album);
      assert N.Lists(raw.albums[i], album);
      ListedStays(raw, n, album);
    }
    forall i: nat | !IsListed(raw, album) && FirstNaming(raw, i, album)
      ensures album in N.AlbumsAfter(raw, n) && N.AlbumsAfter(raw, n)[album] == N.InferredRow(raw.tracks[i])
    {
      FirstNames(raw, n, i, album);
    }
  }

  // Some row that lists the album credits the artist, or, when none lists it, the first track that
  // names it does.
  ghost predicate AlbumCredits(raw: N.Raw, album: nat, artist: nat) {
    (exists i: nat :: ListedBy(raw, i, album) && CreditsAny(raw.albums[i].artists, artist))
    || (!IsListed(raw, album) && exists i: nat :: FirstNaming(raw, i, album) && CreditsAny(raw.tracks[i].albumArtists, artist))
  }

  ghost predicate HasCredit(rows: seq<N.Owned>, owner: nat, artist: nat) {
    exists k: nat :: 0 <= k < |rows| && rows[k].owner == owner && rows[k].credit.artist == artist
  }

  lemma HasCreditConcat(a: seq<N.Owned>, b: seq<N.Owned>, owner: nat, artist: nat)
    ensures HasCredit(a + b, owner, artist) <==> HasCredit(a, owner, artist) || HasCredit(b, owner, artist)
  {
    var all := a + b;
    if k: nat :| 0 <= k < |a| && a[k].owner == owner && a[k].credit.artist == artist { assert all[k] == a[k]; }
    if k: nat :| 0 <= k < |b| && b[k].owner == owner && b[k].credit.artist == artist { assert all[|a| + k] == b[k]; }
  }

  lemma {:induction false} OwnedCredits(id: nat, items: seq<N.RawArtist>, default: nat, owner: nat, artist: nat)
    ensures HasCredit(N.Owning(id, N.Credits(items, |items|, default)), owner, artist)
        <==> id == owner && CreditsAny(items, artist)
  {
    hide CreditsAny, N.Credits;
    ArtistsCredited(items, default, artist);
    var cs := N.Credits(items, |items|, default);
    var rows := N.Owning(id, cs);
    if id == owner && N.Credited(cs, artist) {
      var k: nat :| 0 <= k < |cs| && cs[k].artist == artist;
      assert rows[k].owner == owner;
    }
  }

  ghost predicate ListedCredit(raw: N.Raw, n: nat, album: nat, artist: nat) {
    exists i: nat :: 0 <= i < n && ListedBy(raw, i, album) && CreditsAny(raw.albums[i].artists, artist)
  }

  lemma {:induction false} ListedHave(raw: N.Raw, n: nat, album: nat, artist: nat)
    requires n <= |raw.albums|
    ensures HasCredit(N.ListedCredits(raw.albums, n), album, artist) <==> ListedCredit(raw, n, album, artist)
  {
    hide CreditsAny, N.Credits, HasCredit;
    if n > 0 {
      ListedHave(raw, n - 1, album, artist);
      var a := raw.albums[n - 1];
      HasCreditConcat(N.ListedCredits(raw.albums, n - 1), N.CreditsOfAlbum(a), album, artist);
      if N.Usable(a) {
        OwnedCredits(a.id.value, a.artists, N.ALBUM_ARTIST_ROLE, album, artist);
      } else {
        NoCredit([], album, artist);
      }
      assert ListedBy(raw, n - 1, album) <==> N.Lists(a, album);
    } else {
      NoCredit(N.ListedCredits(raw.albums, 0), album, artist);
    }
  }

  lemma NoCredit(rows: seq<N.Owned>, owner: nat, artist: nat)
    requires rows == []
    ensures !HasCredit(rows, owner, artist)
  {
  }

  ghost predicate InferredCredit(raw: N.Raw, n: nat, album: nat, artist: nat)
    requires n <= |raw.tracks|
  {
    exists i: nat :: 0 <= i < n && N.Infers(raw, i) && NamedBy(raw, i, album) && CreditsAny(raw.tracks[i].albumArtists, artist)
  }

  lemma {:induction false} AlbumsHave(raw: N.Raw, n: nat, album: nat, artist: nat)
    requires n <= |raw.tracks|
    ensures HasCredit(N.AlbumCreditsAfter(raw, n), album, artist)
        <==> ListedCredit(raw, |raw.albums|, album, artist) || InferredCredit(raw, n, album, artist)
  {
    hide CreditsAny, N.Credits, HasCredit, ListedCredit, N.Infers;
    if n > 0 {
      AlbumsHave(raw, n - 1, album, artist);
      var init := N.AlbumCreditsAfter(raw, n - 1);
      var t := raw.tracks[n - 1];
      if N.Infers(raw, n - 1) {
        assert t.album.Some? by { InfersNames(raw, n - 1); }
        HasCreditConcat(init, N.InferredCredits(t), album, artist);
        OwnedCredits(t.album.value, t.albumArtists, N.ALBUM_ARTIST_ROLE, album, artist);
      } else {
        assert N.AlbumCreditsAfter(raw, n) == init;
      }
    } else {
      ListedHave(raw, |raw.albums|, album, artist);
    }
  }

  lemma InfersNames(raw: N.Raw, i: nat)
    requires i < |raw.tracks| && N.Infers(raw, i)
    ensures raw.tracks[i].album.Some?
  {
  }

  lemma {:induction false} InfersFirst(raw: N.Raw, i: nat, album: nat)
    requires i < |raw.tracks| && NamedBy(raw, i, album)
    ensures N.Infers(raw, i) <==> !IsListed(raw, album) && FirstNaming(raw, i, album)
  {
    ListedMeans(raw, album);
    NamedMeans(raw, i, album);
  }

  lemma {:induction false} AlbumCreditsMean(raw: N.Raw, album: nat, artist: nat)
    ensures HasCredit(N.AlbumCreditsAfter(raw, |raw.tracks|), album, artist) <==> AlbumCredits(raw, album, artist)
  {
    hide CreditsAny, N.Credits, HasCredit, N.Infers, IsListed, FirstNaming;
    AlbumsHave(raw, |raw.tracks|, album, artist);
    forall i: nat | i < |raw.tracks| && NamedBy(raw, i, album)
      ensures N.Infers(raw, i) <==> !IsListed(raw, album) && FirstNaming(raw, i, album)
    {
      InfersFirst(raw, i, album);
    }
    forall i: nat | FirstNaming(raw, i, album) ensures NamedBy(raw, i, album) { FirstIsNamed(raw, i, album); }
  }

  lemma FirstIsNamed(raw: N.Raw, i: nat, album: nat)
    requires FirstNaming(raw, i, album)
    ensures NamedBy(raw, i, album)
  {
  }

  // An album refers to exactly the artists its rows credit and the libraries its tracks name.
  lemma {:induction false} AlbumsRefer(raw: N.Raw, c: N.Catalog, album: nat)
    requires N.Normalized(raw, c) && Key(Album, album) in SnapshotRows(ToSnapshot(c))
    ensures forall r :: r in SnapshotRows(ToSnapshot(c))[Key(Album, album)].metadata.refs <==>
      match r.entity
      case Library => exists i: nat :: NamedBy(raw, i, album) && NamesLibrary(raw.tracks[i], r.id)
      case Artist => AlbumCredits(raw, album, r.id)
      case Album => false
      case Track => false
  {
    hide SnapshotRows, ToSnapshot, AlbumCredits, HasCredit, N.AlbumHolds;
    StoredRows(c, Key(Album, album));
    assert N.AlbumRowOk(raw, c, album);
    var row := c.albums[album];
    forall r: Key ensures r in ArtistKeys(row.credits) <==> r.entity == Artist && AlbumCredits(raw, album, r.id) {
      CreditKeys(row.credits, r);
      AlbumCredited(raw, c, album, r.id);
    }
    forall l: nat ensures l in row.libraries <==> exists i: nat :: NamedBy(raw, i, album) && NamesLibrary(raw.tracks[i], l) {
      AlbumLibraries(raw, c, album, l);
    }
  }

  lemma {:induction false} AlbumCredited(raw: N.Raw, c: N.Catalog, album: nat, artist: nat)
    requires N.Normalized(raw, c)
    ensures N.Credited(N.Of(c.albumCredits, album), artist) <==> AlbumCredits(raw, album, artist)
  {
    hide AlbumCredits;
    N.OfMembers(c.albumCredits, album, artist);
    AlbumCreditsMean(raw, album, artist);
  }

  lemma {:induction false} AlbumLibraries(raw: N.Raw, c: N.Catalog, album: nat, library: nat)
    requires N.Normalized(raw, c)
    ensures N.AlbumHolds(c.tracks, |c.tracks|, album, library)
        <==> exists i: nat :: NamedBy(raw, i, album) && NamesLibrary(raw.tracks[i], library)
  {
    forall i: nat | 0 <= i < |c.tracks|
      ensures c.tracks[i].album == raw.tracks[i].album
           && (library in c.tracks[i].libraries <==> NamesLibrary(raw.tracks[i], library))
    {
      assert N.TrackRowOk(c.tracks[i], raw.tracks[i]);
    }
    if i: nat :| NamedBy(raw, i, album) && NamesLibrary(raw.tracks[i], library) { assert c.tracks[i].album == Some(album); }
  }

  // ---------------------------------------------------------------- artists

  // Anything credits the artist: a track, or an album as above.
  ghost predicate CreditedAnywhere(raw: N.Raw, artist: nat) {
    (exists i: nat :: 0 <= i < |raw.tracks| && CreditsAny(raw.tracks[i].artists, artist))
    || exists album: nat :: AlbumCredits(raw, album, artist)
  }

  ghost predicate OnCreditedAlbum(raw: N.Raw, i: nat, artist: nat) {
    i < |raw.tracks| && raw.tracks[i].album.Some? && AlbumCredits(raw, raw.tracks[i].album.value, artist)
  }

  // A track in the library credits the artist, or is on an album that does.
  ghost predicate Carries(raw: N.Raw, i: nat, artist: nat, library: nat) {
    i < |raw.tracks| && NamesLibrary(raw.tracks[i], library)
    && (CreditsAny(raw.tracks[i].artists, artist) || OnCreditedAlbum(raw, i, artist))
  }

  ghost predicate AnyCredit(rows: seq<N.Owned>, artist: nat) {
    exists k: nat :: 0 <= k < |rows| && rows[k].credit.artist == artist
  }

  ghost predicate TrackCredit(raw: N.Raw, n: nat, artist: nat) {
    exists i: nat :: 0 <= i < n && i < |raw.tracks| && CreditsAny(raw.tracks[i].artists, artist)
  }

  lemma AnyCreditConcat(a: seq<N.Owned>, b: seq<N.Owned>, artist: nat)
    ensures AnyCredit(a + b, artist) <==> AnyCredit(a, artist) || AnyCredit(b, artist)
  {
    var all := a + b;
    if k: nat :| 0 <= k < |a| && a[k].credit.artist == artist { assert all[k] == a[k]; }
    if k: nat :| 0 <= k < |b| && b[k].credit.artist == artist { assert all[|a| + k] == b[k]; }
  }

  lemma {:induction false} TrackCreditsHave(t: N.RawTrack, artist: nat)
    requires t.id.Some?
    ensures AnyCredit(N.CreditsOfTrack(t), artist) <==> CreditsAny(t.artists, artist)
  {
    hide CreditsAny, N.Credits;
    OwnedCredits(t.id.value, t.artists, N.ARTIST_ROLE, t.id.value, artist);
  }

  // The first credit of the artist among all that were met.
  ghost predicate FirstCredit(met: seq<N.Owned>, k: nat, artist: nat) {
    k < |met| && met[k].credit.artist == artist && forall j :: 0 <= j < k ==> met[j].credit.artist != artist
  }

  // An artist is shown under the name of its first credit, in the order rows are read: the listed
  // albums, then each track, behind the album it describes if it does.
  lemma {:induction false} ArtistsAreNamed(raw: N.Raw, c: N.Catalog, artist: nat, k: nat)
    requires N.Normalized(raw, c) && FirstCredit(N.Met(raw, |raw.tracks|), k, artist)
    ensures var rows := SnapshotRows(ToSnapshot(c));
      Key(Artist, artist) in rows && rows[Key(Artist, artist)].metadata.digest == N.Met(raw, |raw.tracks|)[k].credit.name
  {
    hide SnapshotRows, ToSnapshot, N.Met, LibraryKeys;
    var met := N.Met(raw, |raw.tracks|);
    N.FirstOfMeaning(met, artist);
    StoredRows(c, Key(Artist, artist));
    assert artist in N.Firsts(c.artists);
    var i :| 0 <= i < |met| && met[i].credit == N.FirstOf(met)[artist] && met[i].credit.artist == artist
          && forall j :: 0 <= j < i ==> met[j].credit.artist != artist;
    assert i == k;
  }

  // What was met is what albums and tracks credit.
  lemma {:induction false} MetHave(raw: N.Raw, n: nat, artist: nat)
    requires n <= |raw.tracks| && N.Sound(raw.tracks, |raw.tracks|)
    ensures AnyCredit(N.Met(raw, n), artist)
        <==> AnyCredit(N.AlbumCreditsAfter(raw, n), artist) || TrackCredit(raw, n, artist)
  {
    hide AnyCredit, CreditsAny, N.Infers, N.CreditsOfTrack, N.InferredCredits;
    if n > 0 {
      MetHave(raw, n - 1, artist);
      var t := raw.tracks[n - 1];
      N.TrackOk(raw.tracks, n - 1);
      TrackCreditsHave(t, artist);
      if N.Infers(raw, n - 1) {
        assert t.album.Some? by { InfersNames(raw, n - 1); }
        var more := N.InferredCredits(t);
        AnyCreditConcat(N.Met(raw, n - 1) + more, N.CreditsOfTrack(t), artist);
        AnyCreditConcat(N.Met(raw, n - 1), more, artist);
        AnyCreditConcat(N.AlbumCreditsAfter(raw, n - 1), more, artist);
      } else {
        assert N.Met(raw, n - 1) + [] == N.Met(raw, n - 1);
        assert N.AlbumCreditsAfter(raw, n - 1) + [] == N.AlbumCreditsAfter(raw, n - 1);
        AnyCreditConcat(N.Met(raw, n - 1), N.CreditsOfTrack(t), artist);
      }
    }
  }

  // An artist is published exactly when a track or an album credits it, in the libraries of those
  // tracks and of the tracks of those albums.
  lemma {:induction false} ArtistsAreThoseCredited(raw: N.Raw, c: N.Catalog, artist: nat)
    requires N.Normalized(raw, c)
    ensures Key(Artist, artist) in SnapshotRows(ToSnapshot(c)) <==> CreditedAnywhere(raw, artist)
    ensures Key(Artist, artist) in SnapshotRows(ToSnapshot(c)) ==>
      forall r :: r in SnapshotRows(ToSnapshot(c))[Key(Artist, artist)].metadata.refs <==>
        r.entity == Library && exists i: nat :: Carries(raw, i, artist, r.id)
  {
    hide SnapshotRows, ToSnapshot, CreditedAnywhere, CreditsAny, AlbumCredits;
    var n := |raw.tracks|;
    StoredRows(c, Key(Artist, artist));
    assert artist in c.artists <==> artist in N.Firsts(c.artists);
    N.FirstOfMeaning(N.Met(raw, n), artist);
    MetHave(raw, n, artist);
    AnyMeansCredited(raw, artist);
    if artist in c.artists {
      forall l: nat ensures l in c.artists[artist].libraries <==>
        exists i: nat :: Carries(raw, i, artist, l)
      {
        ArtistLibraries(raw, c, artist, l);
      }
    }
  }

  lemma {:induction false} AnyMeansCredited(raw: N.Raw, artist: nat)
    ensures AnyCredit(N.AlbumCreditsAfter(raw, |raw.tracks|), artist) || TrackCredit(raw, |raw.tracks|, artist)
        <==> CreditedAnywhere(raw, artist)
  {
    hide CreditsAny, AlbumCredits;
    var rows := N.AlbumCreditsAfter(raw, |raw.tracks|);
    if k: nat :| 0 <= k < |rows| && rows[k].credit.artist == artist {
      assert HasCredit(rows, rows[k].owner, artist);
      AlbumCreditsMean(raw, rows[k].owner, artist);
    }
    if album: nat :| AlbumCredits(raw, album, artist) { AlbumCreditsMean(raw, album, artist); }
  }

  lemma {:induction false} ArtistLibraries(raw: N.Raw, c: N.Catalog, artist: nat, l: nat)
    requires N.Normalized(raw, c) && artist in c.artists
    ensures l in c.artists[artist].libraries <==>
      exists i: nat :: Carries(raw, i, artist, l)
  {
    hide CreditsAny, AlbumCredits, N.Credits, HasCredit;
    assert l in c.artists[artist].libraries <==> N.ArtistHolds(c.tracks, c.albumCredits, artist, l);
    forall i: nat | 0 <= i < |raw.tracks|
      ensures c.tracks[i].album == raw.tracks[i].album
           && (l in c.tracks[i].libraries <==> NamesLibrary(raw.tracks[i], l))
           && (N.Credited(c.tracks[i].credits, artist) <==> CreditsAny(raw.tracks[i].artists, artist))
    {
      assert N.TrackRowOk(c.tracks[i], raw.tracks[i]);
      ArtistsCredited(raw.tracks[i].artists, N.ARTIST_ROLE, artist);
    }
    AlbumPart(raw, c, artist, l);
    hide N.Credited, N.AlbumHolds, NamesLibrary;
    if i: nat :| i < |c.tracks| && N.Credited(c.tracks[i].credits, artist) && l in c.tracks[i].libraries {
      assert Carries(raw, i, artist, l);
    }
    if i: nat :| OnCreditedAlbum(raw, i, artist) && NamesLibrary(raw.tracks[i], l) { assert Carries(raw, i, artist, l); }
    if i: nat :| Carries(raw, i, artist, l) && !OnCreditedAlbum(raw, i, artist) {
      assert N.Credited(c.tracks[i].credits, artist) && l in c.tracks[i].libraries;
    }
  }

  lemma {:induction false} AlbumPart(raw: N.Raw, c: N.Catalog, artist: nat, l: nat)
    requires N.Normalized(raw, c)
    ensures (exists k: nat :: 0 <= k < |c.albumCredits| && c.albumCredits[k].credit.artist == artist
                      && N.AlbumHolds(c.tracks, |c.tracks|, c.albumCredits[k].owner, l))
        <==> exists i: nat :: OnCreditedAlbum(raw, i, artist) && NamesLibrary(raw.tracks[i], l)
  {
    hide AlbumCredits, N.AlbumHolds;
    var rows := c.albumCredits;
    if k: nat :| 0 <= k < |rows| && rows[k].credit.artist == artist && N.AlbumHolds(c.tracks, |c.tracks|, rows[k].owner, l) {
      var album := rows[k].owner;
      assert HasCredit(rows, album, artist);
      AlbumCreditsMean(raw, album, artist);
      AlbumLibraries(raw, c, album, l);
      var i: nat :| NamedBy(raw, i, album) && NamesLibrary(raw.tracks[i], l);
      assert OnCreditedAlbum(raw, i, artist);
    }
    if i: nat :| OnCreditedAlbum(raw, i, artist) && NamesLibrary(raw.tracks[i], l) {
      var album := raw.tracks[i].album.value;
      AlbumCreditsMean(raw, album, artist);
      AlbumLibraries(raw, c, album, l);
      assert NamedBy(raw, i, album);
      assert HasCredit(rows, album, artist);
    }
  }
}
