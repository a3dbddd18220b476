// Normalizing one provider response: which rows exist, what they credit and which libraries
// hold them. Field lookup and text clean-up happen before: a raw row carries what they yield.

module Normalize {
  import opened Prelude
  import opened CatalogTypes

  // A role is a text; a provider may write either of the texts the code falls back to.
  const ARTIST_ROLE: nat := 0
  const ALBUM_ARTIST_ROLE: nat := 1

  // derived is the ID made from the display name, for artists without one of their own.
  datatype RawArtist = RawArtist(name: Option<nat>, native: Option<nat>, derived: nat, role: Option<nat>)

  datatype RawLibrary = RawLibrary(id: Option<nat>, name: Option<nat>, digest: nat)

  datatype RawAlbum = RawAlbum(id: Option<nat>, name: Option<nat>, artists: seq<RawArtist>, digest: nat, artwork: nat)

  // albumArtists and albumDigest describe the album a track names, when no album row does.
  datatype RawTrack = RawTrack(
    id: Option<nat>, title: Option<nat>, album: Option<nat>, albumName: Option<nat>,
    artists: seq<RawArtist>, libraries: seq<nat>, folder: Option<nat>,
    digest: nat, artwork: nat, media: nat,
    albumArtists: seq<RawArtist>, albumDigest: nat, albumArtwork: nat)

  datatype Raw = Raw(libraries: seq<RawLibrary>, albums: seq<RawAlbum>, tracks: seq<RawTrack>)

  const UNKNOWN_ALBUM: nat := 0

  datatype ScanError = MissingIdOrTitle | DuplicateTrack(id: nat) | NoAlbumIdentity(track: nat)

  // ---------------------------------------------------------------- the normalized catalogue

  datatype Credit = Credit(artist: nat, name: nat, position: nat, role: nat)

  // A credit row of a track or of an album.
  datatype Owned = Owned(owner: nat, credit: Credit)

  datatype LibraryRow = LibraryRow(id: nat, name: nat, digest: nat)
  datatype ArtistRow = ArtistRow(first: Credit, libraries: set<nat>)
  datatype AlbumRow = AlbumRow(name: nat, digest: nat, artwork: nat, credits: seq<Credit>, libraries: set<nat>)
  datatype TrackRow = TrackRow(id: nat, title: nat, album: Option<nat>, digest: nat, artwork: nat, media: nat,
                               credits: seq<Credit>, libraries: set<nat>)

  datatype Membership = Membership(of: Key, library: nat)

  datatype Catalog = Catalog(
    libraries: seq<LibraryRow>, artists: map<nat, ArtistRow>, albums: map<nat, AlbumRow>, tracks: seq<TrackRow>,
    trackCredits: seq<Owned>, albumCredits: seq<Owned>, memberships: set<Membership>)

  // A dict of sets, with nothing where it has no entry.
  function At(m: map<nat, set<nat>>, k: nat): set<nat> {
    if k in m then m[k] else {}
  }

  function CreditsAt(m: map<nat, seq<Credit>>, k: nat): seq<Credit> {
    if k in m then m[k] else []
  }

  ghost predicate CreditedBefore(cs: seq<Credit>, n: nat, artist: nat)
    requires n <= |cs|
  {
    exists k :: 0 <= k < n && cs[k].artist == artist
  }

  ghost predicate Credited(cs: seq<Credit>, artist: nat) {
    CreditedBefore(cs, |cs|, artist)
  }

  // ---------------------------------------------------------------- credits

  function CreditOf(item: RawArtist, position: nat, default: nat): Credit
    requires item.name.Some?
  {
    Credit(
      if item.native.Some? then item.native.value else item.derived, item.name.value, position,
      if item.role.Some? then item.role.value else default)
  }

  // The credits of the first n items: nameless ones are skipped but keep their position.
  function Credits(items: seq<RawArtist>, n: nat, default: nat): seq<Credit>
    requires n <= |items|
  {
    if n == 0 then []
    else
      var last := if items[n - 1].name.Some? then [CreditOf(items[n - 1], n - 1, default)] else [];
      Credits(items, n - 1, default) + last
  }

  function AlbumArtists(items: seq<RawArtist>): seq<Credit> { Credits(items, |items|, ALBUM_ARTIST_ROLE) }

  function TrackArtists(items: seq<RawArtist>): seq<Credit> { Credits(items, |items|, ARTIST_ROLE) }

  method ArtistRows(items: seq<RawArtist>, default: nat) returns (r: seq<Credit>)
    ensures r == Credits(items, |items|, default)
  {
    r := [];
    for position := 0 to |items|
      invariant r == Credits(items, position, default)
    {
      if items[position].name.Some? {
        r := r + [CreditOf(items[position], position, default)];
      }
    }
  }

  lemma {:induction false} CreditPositions(items: seq<RawArtist>, n: nat, default: nat)
    requires n <= |items|
    ensures forall i, j :: 0 <= i < j < |Credits(items, n, default)| ==>
      Credits(items, n, default)[i].position < Credits(items, n, default)[j].position
    ensures forall i :: 0 <= i < |Credits(items, n, default)| ==> Credits(items, n, default)[i].position < n
  {
    if n > 0 { CreditPositions(items, n - 1, default); }
  }

  function Owning(owner: nat, cs: seq<Credit>): (r: seq<Owned>)
    ensures |r| == |cs| && forall i :: 0 <= i < |cs| ==> r[i] == Owned(owner, cs[i])
  {
    seq(|cs|, i requires 0 <= i < |cs| => Owned(owner, cs[i]))
  }

  // One owner's credits, in order.
  function Of(rows: seq<Owned>, owner: nat): seq<Credit> {
    if rows == [] then []
    else Of(rows[..|rows| - 1], owner) + if rows[|rows| - 1].owner == owner then [rows[|rows| - 1].credit] else []
  }

  lemma {:induction false} OfConcat(a: seq<Owned>, b: seq<Owned>, owner: nat)
    ensures Of(a + b, owner) == Of(a, owner) + Of(b, owner)
    decreases |b|
  {
    if b == [] {
      assert a + b == a;
    } else {
      assert (a + b)[..|a + b| - 1] == a + b[..|b| - 1];
      OfConcat(a, b[..|b| - 1], owner);
    }
  }

  lemma {:induction false} OfOwning(owner: nat, cs: seq<Credit>, o: nat)
    ensures Of(Owning(owner, cs), o) == if o == owner then cs else []
    decreases |cs|
  {
    if cs != [] {
      var init := cs[..|cs| - 1];
      assert Owning(owner, cs)[..|cs| - 1] == Owning(owner, init);
      OfOwning(owner, init, o);
      assert cs == init + [cs[|cs| - 1]];
    }
  }

  lemma {:induction false} OfMembers(rows: seq<Owned>, owner: nat, artist: nat)
    ensures Credited(Of(rows, owner), artist)
        <==> exists i :: 0 <= i < |rows| && rows[i].owner == owner && rows[i].credit.artist == artist
    decreases |rows|
  {
    if rows != [] {
      var init, x := rows[..|rows| - 1], rows[|rows| - 1];
      OfMembers(init, owner, artist);
      assert rows == init + [x];
      assert Of(rows, owner) == Of(init, owner) + if x.owner == owner then [x.credit] else [];
      CreditedConcat(Of(init, owner), if x.owner == owner then [x.credit] else [], artist);
      if exists i :: 0 <= i < |init| && init[i].owner == owner && init[i].credit.artist == artist {
        var i :| 0 <= i < |init| && init[i].owner == owner && init[i].credit.artist == artist;
        assert rows[i].owner == owner && rows[i].credit.artist == artist;
      }
      if x.owner == owner && x.credit.artist == artist {
        assert [x.credit][0].artist == artist;
        assert rows[|rows| - 1].owner == owner && rows[|rows| - 1].credit.artist == artist;
      }
    }
  }

  lemma CreditedConcat(a: seq<Credit>, b: seq<Credit>, artist: nat)
    ensures Credited(a + b, artist) <==> Credited(a, artist) || Credited(b, artist)
  {
    if Credited(a, artist) {
      var k :| 0 <= k < |a| && a[k].artist == artist;
      assert (a + b)[k].artist == artist;
    }
    if Credited(b, artist) {
      var k :| 0 <= k < |b| && b[k].artist == artist;
      assert (a + b)[|a| + k].artist == artist;
    }
    if Credited(a + b, artist) {
      var k :| 0 <= k < |a + b| && (a + b)[k].artist == artist;
      assert k < |a| ==> a[k].artist == artist;
      assert k >= |a| ==> b[k - |a|].artist == artist;
    }
  }

  // The first credit met of every artist.
  function FirstOf(met: seq<Owned>): map<nat, Credit> {
    if met == [] then map[]
    else
      var c := met[|met| - 1].credit;
      var m := FirstOf(met[..|met| - 1]);
      if c.artist in m then m else m[c.artist := c]
  }

  lemma FirstOfNext(met: seq<Owned>, x: Owned)
    ensures FirstOf(met + [x]) ==
      if x.credit.artist in FirstOf(met) then FirstOf(met) else FirstOf(met)[x.credit.artist := x.credit]
  {
    assert (met + [x])[..|met|] == met;
  }

  // Artists already known are kept, as setdefault does.
  lemma {:induction false} FirstOfConcat(a: seq<Owned>, b: seq<Owned>)
    ensures FirstOf(a + b) == FirstOf(b) + FirstOf(a)
    decreases |b|
  {
    if b == [] {
      assert a + b == a;
    } else {
      var init := b[..|b| - 1];
      FirstOfConcat(a, init);
      assert (a + init) + [b[|b| - 1]] == a + b;
      FirstOfNext(a + init, b[|b| - 1]);
    }
  }

  // An artist's row is made from the earliest credit that names it.
  lemma {:induction false} FirstOfMeaning(met: seq<Owned>, artist: nat)
    ensures artist in FirstOf(met) <==> exists i :: 0 <= i < |met| && met[i].credit.artist == artist
    ensures artist in FirstOf(met) ==>
      exists i :: 0 <= i < |met| && met[i].credit == FirstOf(met)[artist] && met[i].credit.artist == artist
               && forall j :: 0 <= j < i ==> met[j].credit.artist != artist
    decreases |met|
  {
    if met != [] {
      var init, x := met[..|met| - 1], met[|met| - 1];
      FirstOfMeaning(init, artist);
      assert met == init + [x];
      if artist in FirstOf(init) {
        var i :| 0 <= i < |init| && init[i].credit == FirstOf(init)[artist] && init[i].credit.artist == artist
              && forall j :: 0 <= j < i ==> init[j].credit.artist != artist;
        assert met[i].credit == FirstOf(met)[artist];
      } else {
        assert forall j :: 0 <= j < |init| ==> met[j] == init[j];
        if x.credit.artist == artist { assert met[|init|].credit == FirstOf(met)[artist]; }
      }
    }
  }

  // Adds one row's artists to the artists already met, and its credits to the credit rows.
  method Introduce(artists: map<nat, Credit>, ghost met: seq<Owned>, owner: nat, cs: seq<Credit>, rows: seq<Owned>)
    returns (more: map<nat, Credit>, longer: seq<Owned>)
    requires artists == FirstOf(met)
    ensures more == FirstOf(met + Owning(owner, cs))
    ensures longer == rows + Owning(owner, cs)
  {
    more, longer := artists, rows;
    assert met + Owning(owner, cs)[..0] == met;
    for i := 0 to |cs|
      invariant more == FirstOf(met + Owning(owner, cs)[..i])
      invariant longer == rows + Owning(owner, cs)[..i]
    {
      FirstOfNext(met + Owning(owner, cs)[..i], Owned(owner, cs[i]));
      assert (met + Owning(owner, cs)[..i]) + [Owned(owner, cs[i])] == met + Owning(owner, cs)[..i + 1];
      if cs[i].artist !in more {
        more := more[cs[i].artist := cs[i]];
      }
      longer := longer + [Owned(owner, cs[i])];
    }
    assert Owning(owner, cs)[..|cs|] == Owning(owner, cs);
  }

  // ---------------------------------------------------------------- albums

  predicate Usable(a: RawAlbum) { a.id.Some? && a.name.Some? }

  predicate Lists(a: RawAlbum, id: nat) { Usable(a) && a.id.value == id }

  predicate Listed(albums: seq<RawAlbum>, n: nat, id: nat)
    requires n <= |albums|
  {
    exists i :: 0 <= i < n && Lists(albums[i], id)
  }

  // A row before it is enriched with its credits and libraries.
  function Bare(a: RawAlbum): AlbumRow
    requires Usable(a)
  {
    AlbumRow(a.name.value, a.digest, a.artwork, [], {})
  }

  // Where an album is listed twice, the last row describes it.
  function ListedRows(albums: seq<RawAlbum>, n: nat): (m: map<nat, AlbumRow>)
    requires n <= |albums|
  {
    if n == 0 then map[]
    else if Usable(albums[n - 1]) then ListedRows(albums, n - 1)[albums[n - 1].id.value := Bare(albums[n - 1])]
    else ListedRows(albums, n - 1)
  }

  lemma {:induction false} ListedRowsKeys(albums: seq<RawAlbum>, n: nat, id: nat)
    requires n <= |albums|
    ensures id in ListedRows(albums, n) <==> Listed(albums, n, id)
  {
    if n > 0 {
      ListedRowsKeys(albums, n - 1, id);
      assert Lists(albums[n - 1], id) ==> Listed(albums, n, id);
    }
  }

  function CreditsOfAlbum(a: RawAlbum): seq<Owned> {
    if Usable(a) then Owning(a.id.value, AlbumArtists(a.artists)) else []
  }

  // ... but the credits of both rows are kept.
  function ListedCredits(albums: seq<RawAlbum>, n: nat): seq<Owned>
    requires n <= |albums|
  {
    if n == 0 then [] else ListedCredits(albums, n - 1) + CreditsOfAlbum(albums[n - 1])
  }

  method ScanAlbums(albums: seq<RawAlbum>)
    returns (rows: map<nat, AlbumRow>, artists: map<nat, Credit>, credits: seq<Owned>)
    ensures rows == ListedRows(albums, |albums|)
    ensures credits == ListedCredits(albums, |albums|)
    ensures artists == FirstOf(credits)
  {
    rows, artists, credits := map[], map[], [];
    for i := 0 to |albums|
      invariant rows == ListedRows(albums, i)
      invariant credits == ListedCredits(albums, i)
      invariant artists == FirstOf(credits)
    {
      if Usable(albums[i]) {
        var cs := ArtistRows(albums[i].artists, ALBUM_ARTIST_ROLE);
        artists, credits := Introduce(artists, credits, albums[i].id.value, cs, credits);
        rows := rows[albums[i].id.value := Bare(albums[i])];
      }
    }
  }

  method ScanLibraries(libraries: seq<RawLibrary>) returns (rows: seq<LibraryRow>)
    ensures rows == UsableLibraries(libraries, |libraries|)
  {
    rows := [];
    for i := 0 to |libraries|
      invariant rows == UsableLibraries(libraries, i)
    {
      if libraries[i].id.Some? && libraries[i].name.Some? {
        rows := rows + [LibraryRow(libraries[i].id.value, libraries[i].name.value, libraries[i].digest)];
      }
    }
  }

  function UsableLibraries(libraries: seq<RawLibrary>, n: nat): seq<LibraryRow>
    requires n <= |libraries|
  {
    if n == 0 then []
    else
      var l := libraries[n - 1];
      UsableLibraries(libraries, n - 1)
      + if l.id.Some? && l.name.Some? then [LibraryRow(l.id.value, l.name.value, l.digest)] else []
  }

  // ---------------------------------------------------------------- tracks

  // Why a track is refused, given the ones before it.
  function Fault(tracks: seq<RawTrack>, i: nat): Option<ScanError>
    requires i < |tracks|
  {
    var t := tracks[i];
    if t.id.None? || t.title.None? then Some(MissingIdOrTitle)
    else if exists j :: 0 <= j < i && tracks[j].id == t.id then Some(DuplicateTrack(t.id.value))
    else if t.albumName.Some? && t.album.None? then Some(NoAlbumIdentity(t.id.value))
    else None
  }

  predicate Sound(tracks: seq<RawTrack>, n: nat)
    requires n <= |tracks|
  {
    forall i :: 0 <= i < n ==> Fault(tracks, i).None?
  }

  predicate Names(tracks: seq<RawTrack>, n: nat, album: nat)
    requires n <= |tracks|
  {
    exists i :: 0 <= i < n && tracks[i].album == Some(album)
  }

  // An album no row lists is described by the first track that names it.
  function InferredAlbum(t: RawTrack): RawAlbum
    requires t.album.Some?
  {
    RawAlbum(t.album, Some(if t.albumName.Some? then t.albumName.value else UNKNOWN_ALBUM),
             t.albumArtists, t.albumDigest, t.albumArtwork)
  }

  predicate Infers(raw: Raw, i: nat)
    requires i < |raw.tracks|
  {
    raw.tracks[i].album.Some?
    && !Listed(raw.albums, |raw.albums|, raw.tracks[i].album.value)
    && !Names(raw.tracks, i, raw.tracks[i].album.value)
  }

  function InferredCredits(t: RawTrack): seq<Owned>
    requires t.album.Some?
  {
    Owning(t.album.value, AlbumArtists(t.albumArtists))
  }

  function InferredRow(t: RawTrack): AlbumRow
    requires t.album.Some?
  {
    Bare(InferredAlbum(t)).(credits := AlbumArtists(t.albumArtists))
  }

  // The album rows, the credit rows and all credits met, after n tracks.
  function AlbumsAfter(raw: Raw, n: nat): map<nat, AlbumRow>
    requires n <= |raw.tracks|
  {
    if n == 0 then ListedRows(raw.albums, |raw.albums|)
    else if Infers(raw, n - 1) then
      AlbumsAfter(raw, n - 1)[raw.tracks[n - 1].album.value := InferredRow(raw.tracks[n - 1])]
    else AlbumsAfter(raw, n - 1)
  }

  function AlbumCreditsAfter(raw: Raw, n: nat): seq<Owned>
    requires n <= |raw.tracks|
  {
    if n == 0 then ListedCredits(raw.albums, |raw.albums|)
    else AlbumCreditsAfter(raw, n - 1) + if Infers(raw, n - 1) then InferredCredits(raw.tracks[n - 1]) else []
  }

  function CreditsOfTrack(t: RawTrack): seq<Owned> {
    if t.id.Some? then Owning(t.id.value, TrackArtists(t.artists)) else []
  }

  function TrackCreditsAfter(tracks: seq<RawTrack>, n: nat): seq<Owned>
    requires n <= |tracks|
  {
    if n == 0 then [] else TrackCreditsAfter(tracks, n - 1) + CreditsOfTrack(tracks[n - 1])
  }

  function Met(raw: Raw, n: nat): seq<Owned>
    requires n <= |raw.tracks|
  {
    if n == 0 then ListedCredits(raw.albums, |raw.albums|)
    else
      (Met(raw, n - 1) + if Infers(raw, n - 1) then InferredCredits(raw.tracks[n - 1]) else [])
      + CreditsOfTrack(raw.tracks[n - 1])
  }

  // A track is in the libraries it lists, or else in its one music folder.
  function LibrariesOf(t: RawTrack): seq<nat> {
    if t.libraries != [] then t.libraries
    else if t.folder.Some? then [t.folder.value]
    else []
  }

  function BareTrack(t: RawTrack): TrackRow
    requires t.id.Some? && t.title.Some?
  {
    TrackRow(t.id.value, t.title.value, t.album, t.digest, t.artwork, t.media, [], {})
  }

  lemma {:induction false} AlbumsAfterKeys(raw: Raw, n: nat, id: nat)
    requires n <= |raw.tracks|
    ensures id in AlbumsAfter(raw, n) <==> Listed(raw.albums, |raw.albums|, id) || Names(raw.tracks, n, id)
  {
    if n == 0 {
      ListedRowsKeys(raw.albums, |raw.albums|, id);
    } else {
      AlbumsAfterKeys(raw, n - 1, id);
      assert raw.tracks[n - 1].album == Some(id) ==> Names(raw.tracks, n, id);
    }
  }

  function TrackMembershipsAfter(tracks: seq<RawTrack>, n: nat): seq<Membership>
    requires n <= |tracks|
  {
    if n == 0 then [] else TrackMembershipsAfter(tracks, n - 1) + MembershipsOf(tracks[n - 1])
  }

  function MembershipsOf(t: RawTrack): seq<Membership> {
    if t.id.Some? then InLibraries(t.id.value, LibrariesOf(t)) else []
  }

  function InLibraries(track: nat, libraries: seq<nat>): (r: seq<Membership>)
    ensures |r| == |libraries| && forall i :: 0 <= i < |r| ==> r[i] == Membership(Key(Track, track), libraries[i])
  {
    seq(|libraries|, i requires 0 <= i < |libraries| => Membership(Key(Track, track), libraries[i]))
  }

  function TracksAfter(tracks: seq<RawTrack>, n: nat): (r: seq<TrackRow>)
    requires n <= |tracks| && Sound(tracks, n)
    ensures |r| == n && forall i :: 0 <= i < n ==> Fault(tracks, i).None? && r[i] == BareTrack(tracks[i])
  {
    seq(n, i requires 0 <= i < n && Fault(tracks, i).None? => BareTrack(tracks[i]))
  }

  // What scanning albums and tracks leaves before anything is enriched.
  datatype Scanned = Scanned(
    albums: map<nat, AlbumRow>, artists: map<nat, Credit>, albumCredits: seq<Owned>,
    tracks: seq<TrackRow>, trackCredits: seq<Owned>, memberships: seq<Membership>)

  function ScannedAfter(raw: Raw, n: nat): Scanned
    requires n <= |raw.tracks| && Sound(raw.tracks, n)
  {
    Scanned(AlbumsAfter(raw, n), FirstOf(Met(raw, n)), AlbumCreditsAfter(raw, n),
            TracksAfter(raw.tracks, n), TrackCreditsAfter(raw.tracks, n), TrackMembershipsAfter(raw.tracks, n))
  }

  lemma ScanStart(raw: Raw)
    ensures ScannedAfter(raw, 0)
      == Scanned(AlbumsAfter(raw, 0), FirstOf(Met(raw, 0)), AlbumCreditsAfter(raw, 0), [], [], [])
  {
  }

  lemma {:induction false} ScanStep(raw: Raw, i: nat)
    requires i < |raw.tracks| && Sound(raw.tracks, i + 1)
    ensures var t, a, b := raw.tracks[i], ScannedAfter(raw, i), ScannedAfter(raw, i + 1);
      var infers := Infers(raw, i);
      var inferred := if infers then InferredCredits(t) else [];
      && Fault(raw.tracks, i).None?
      && a.albums == AlbumsAfter(raw, i) && a.artists == FirstOf(Met(raw, i))
      && b.albums == (if infers then a.albums[t.album.value := InferredRow(t)] else a.albums)
      && b.artists == FirstOf((Met(raw, i) + inferred) + Owning(t.id.value, TrackArtists(t.artists)))
      && b.albumCredits == a.albumCredits + inferred
      && b.tracks == a.tracks + [BareTrack(t)]
      && b.trackCredits == a.trackCredits + Owning(t.id.value, TrackArtists(t.artists))
      && b.memberships == a.memberships + InLibraries(t.id.value, LibrariesOf(t))
  {
    hide FirstOf, Owning, InLibraries, Fault, Infers, InferredRow, InferredCredits, TrackArtists, LibrariesOf, BareTrack;
    assert Fault(raw.tracks, i).None?;
    TrackOk(raw.tracks, i);
    MetNext(raw, i);
    TracksNext(raw.tracks, i);
  }

  lemma TrackOk(tracks: seq<RawTrack>, i: nat)
    requires i < |tracks| && Fault(tracks, i).None?
    ensures tracks[i].id.Some? && tracks[i].title.Some?
  {
  }

  lemma MetNext(raw: Raw, i: nat)
    requires i < |raw.tracks| && raw.tracks[i].id.Some?
    ensures Met(raw, i + 1) == (Met(raw, i) + if Infers(raw, i) then InferredCredits(raw.tracks[i]) else [])
                               + Owning(raw.tracks[i].id.value, TrackArtists(raw.tracks[i].artists))
  {
  }

  lemma TracksNext(tracks: seq<RawTrack>, i: nat)
    requires i < |tracks| && Sound(tracks, i + 1)
    ensures tracks[i].id.Some? && tracks[i].title.Some?
    ensures TracksAfter(tracks, i + 1) == TracksAfter(tracks, i) + [BareTrack(tracks[i])]
  {
    assert Fault(tracks, i).None?;
  }

  ghost predicate Refused(tracks: seq<RawTrack>, error: ScanError) {
    exists i :: 0 <= i < |tracks| && Sound(tracks, i) && Fault(tracks, i) == Some(error)
  }

  function AlbumOnly(t: RawTrack): Raw
    requires t.album.Some?
  {
    Raw([], [InferredAlbum(t)], [])
  }

  lemma AlbumOnlyScan(t: RawTrack)
    requires t.album.Some?
    ensures AlbumsAfter(AlbumOnly(t), 0) == map[t.album.value := Bare(InferredAlbum(t))]
    ensures AlbumCreditsAfter(AlbumOnly(t), 0) == Met(AlbumOnly(t), 0) == InferredCredits(t)
    ensures Of(InferredCredits(t), t.album.value) == AlbumArtists(t.albumArtists)
  {
    var albums := [InferredAlbum(t)];
    assert ListedRows(albums, 0) == map[] && ListedCredits(albums, 0) == [];
    assert ListedRows(albums, 1) == map[t.album.value := Bare(albums[0])];
    assert ListedCredits(albums, 1) == CreditsOfAlbum(albums[0]);
    OfOwning(t.album.value, AlbumArtists(t.albumArtists), t.album.value);
  }

  // Artists of a nested catalogue join the ones already met.
  method SetDefaults(artists: map<nat, Credit>, more: map<nat, ArtistRow>) returns (all: map<nat, Credit>)
    ensures all == Firsts(more) + artists
  {
    all := artists;
    var rest := more.Keys;
    while rest != {}
      invariant rest <= more.Keys
      invariant forall a :: a in all <==> a in artists || (a in more && a !in rest)
      invariant forall a :: a in artists ==> all[a] == artists[a]
      invariant forall a :: a in all && a !in artists ==> all[a] == more[a].first
      decreases |rest|
    {
      var a :| a in rest;
      if a !in all {
        all := all[a := more[a].first];
      }
      rest := rest - {a};
    }
  }

  method ScanTracks(raw: Raw, rows: map<nat, AlbumRow>, artists: map<nat, Credit>, credits: seq<Owned>)
    returns (r: Result<Scanned, ScanError>)
    requires rows == AlbumsAfter(raw, 0) && credits == AlbumCreditsAfter(raw, 0) && artists == FirstOf(Met(raw, 0))
    ensures r.Ok? ==> Sound(raw.tracks, |raw.tracks|) && r.value == ScannedAfter(raw, |raw.tracks|)
    ensures r.Err? ==> Refused(raw.tracks, r.error)
    decreases |raw.tracks|, 1
  {
    hide FirstOf, AlbumsAfter, Met, AlbumCreditsAfter, TrackCreditsAfter, TrackMembershipsAfter, TracksAfter, ScannedAfter;
    var s := Scanned(rows, artists, credits, [], [], []);
    ScanStart(raw);
    var seen := {};
    for i := 0 to |raw.tracks|
      invariant Sound(raw.tracks, i)
      invariant s == ScannedAfter(raw, i)
      invariant forall id :: id in seen <==> exists j :: 0 <= j < i && raw.tracks[j].id == Some(id)
    {
      var t := raw.tracks[i];
      if t.id.None? || t.title.None? {
        return Err(MissingIdOrTitle);
      }
      if t.id.value in seen {
        return Err(DuplicateTrack(t.id.value));
      }
      seen := seen + {t.id.value};
      if t.albumName.Some? && t.album.None? {
        return Err(NoAlbumIdentity(t.id.value));
      }
      ScanStep(raw, i);
      if t.album.Some? {
        AlbumsAfterKeys(raw, i, t.album.value);
      }
      ghost var met := Met(raw, i);
      if t.album.Some? && t.album.value !in s.albums {
        s := AddInferred(t, met, s, |raw.tracks|);
        met := met + InferredCredits(t);
      } else {
        assert met == met + [];
      }
      s := AddTrack(t, met, s);
    }
    r := Ok(s);
  }

  // Album identity without an album row: the track describes it, by a catalogue of its own.
  method AddInferred(t: RawTrack, ghost met: seq<Owned>, s: Scanned, ghost tracks: nat) returns (r: Scanned)
    requires t.album.Some? && s.artists == FirstOf(met) && tracks > 0
    ensures r == s.(albums := s.albums[t.album.value := InferredRow(t)],
                    artists := FirstOf(met + InferredCredits(t)),
                    albumCredits := s.albumCredits + InferredCredits(t))
    decreases tracks, 0
  {
    var nested := Normalize(AlbumOnly(t));
    assert nested.Ok?;
    var c := nested.value;
    AlbumOnlyResult(t, c);
    var artists := SetDefaults(s.artists, c.artists);
    FirstOfConcat(met, InferredCredits(t));
    r := s.(albums := s.albums[t.album.value := c.albums[t.album.value]], artists := artists,
            albumCredits := s.albumCredits + c.albumCredits);
  }

  lemma {:induction false} AlbumOnlyResult(t: RawTrack, c: Catalog)
    requires t.album.Some? && Normalized(AlbumOnly(t), c)
    ensures t.album.value in c.albums && c.albums[t.album.value] == InferredRow(t)
    ensures Firsts(c.artists) == FirstOf(InferredCredits(t))
    ensures c.albumCredits == InferredCredits(t)
  {
    AlbumOnlyScan(t);
    assert t.album.value in AlbumsAfter(AlbumOnly(t), 0);
    assert AlbumRowOk(AlbumOnly(t), c, t.album.value);
    assert c.albums[t.album.value].libraries == {};
  }

  method AddTrack(t: RawTrack, ghost met: seq<Owned>, s: Scanned) returns (r: Scanned)
    requires t.id.Some? && t.title.Some? && s.artists == FirstOf(met)
    ensures r == s.(artists := FirstOf(met + Owning(t.id.value, TrackArtists(t.artists))),
                    trackCredits := s.trackCredits + Owning(t.id.value, TrackArtists(t.artists)),
                    tracks := s.tracks + [BareTrack(t)],
                    memberships := s.memberships + InLibraries(t.id.value, LibrariesOf(t)))
  {
    var cs := ArtistRows(t.artists, ARTIST_ROLE);
    var artists, credits := Introduce(s.artists, met, t.id.value, cs, s.trackCredits);
    r := s.(artists := artists, trackCredits := credits, tracks := s.tracks + [BareTrack(t)],
            memberships := s.memberships + InLibraries(t.id.value, LibrariesOf(t)));
  }

  // ---------------------------------------------------------------- credits and libraries of each row

  method GroupCredits(rows: seq<Owned>) returns (m: map<nat, seq<Credit>>)
    ensures forall o: nat :: CreditsAt(m, o) == Of(rows, o)
  {
    m := map[];
    for i := 0 to |rows|
      invariant forall o: nat :: CreditsAt(m, o) == Of(rows[..i], o)
    {
      assert rows[..i + 1][..i] == rows[..i];
      m := m[rows[i].owner := CreditsAt(m, rows[i].owner) + [rows[i].credit]];
    }
    assert rows[..|rows|] == rows;
  }

  // Some membership row puts the track in the library.
  ghost predicate Puts(rows: seq<Membership>, n: nat, track: nat, library: nat)
    requires n <= |rows|
  {
    exists k :: 0 <= k < n && rows[k].of.id == track && rows[k].library == library
  }

  method GroupLibraries(rows: seq<Membership>) returns (m: map<nat, set<nat>>)
    ensures forall t: nat, l: nat :: l in At(m, t) <==> Puts(rows, |rows|, t, l)
  {
    m := map[];
    for i := 0 to |rows|
      invariant forall t: nat, l: nat :: l in At(m, t) <==> Puts(rows, i, t, l)
    {
      ghost var before := m;
      m := m[rows[i].of.id := At(m, rows[i].of.id) + {rows[i].library}];
      forall t: nat, l: nat ensures l in At(m, t) <==> Puts(rows, i + 1, t, l) {
        assert l in At(before, t) <==> Puts(rows, i, t, l);
      }
    }
  }

  // An album is in the libraries of its tracks; so is an artist credited on those tracks.
  ghost predicate AlbumHolds(rows: seq<TrackRow>, n: nat, album: nat, library: nat)
    requires n <= |rows|
  {
    exists i :: 0 <= i < n && rows[i].album == Some(album) && library in rows[i].libraries
  }

  ghost predicate TracksHold(rows: seq<TrackRow>, n: nat, artist: nat, library: nat)
    requires n <= |rows|
  {
    exists i :: 0 <= i < n && Credited(rows[i].credits, artist) && library in rows[i].libraries
  }

  // An artist is also in the libraries of the albums that credit it.
  ghost predicate ArtistHolds(rows: seq<TrackRow>, albumCredits: seq<Owned>, artist: nat, library: nat) {
    TracksHold(rows, |rows|, artist, library)
    || exists i :: 0 <= i < |albumCredits| && albumCredits[i].credit.artist == artist
                && AlbumHolds(rows, |rows|, albumCredits[i].owner, library)
  }

  lemma CreditedNext(cs: seq<Credit>, n: nat, artist: nat)
    requires n < |cs|
    ensures CreditedBefore(cs, n + 1, artist) <==> CreditedBefore(cs, n, artist) || cs[n].artist == artist
  {
  }

  lemma CreditedByNone(cs: seq<Credit>, artist: nat)
    ensures !CreditedBefore(cs, 0, artist)
    ensures CreditedBefore(cs, |cs|, artist) <==> Credited(cs, artist)
  {
  }

  method AddLibraries(m: map<nat, set<nat>>, cs: seq<Credit>, more: set<nat>) returns (r: map<nat, set<nat>>)
    ensures forall p: nat, l: nat {:trigger l in At(r, p)} :: l in At(r, p) <==> l in At(m, p) || (Credited(cs, p) && l in more)
  {
    hide CreditedBefore, Credited;
    r := m;
    forall p ensures !CreditedBefore(cs, 0, p) && (CreditedBefore(cs, |cs|, p) <==> Credited(cs, p)) {
      CreditedByNone(cs, p);
    }
    for k := 0 to |cs|
      invariant forall p: nat, l: nat {:trigger l in At(r, p)} ::
        l in At(r, p) <==> l in At(m, p) || (CreditedBefore(cs, k, p) && l in more)
    {
      ghost var before := r;
      r := r[cs[k].artist := At(r, cs[k].artist) + more];
      forall p: nat, l: nat {:trigger l in At(r, p)}
        ensures l in At(r, p) <==> l in At(m, p) || (CreditedBefore(cs, k + 1, p) && l in more)
      {
        CreditedNext(cs, k, p);
        assert l in At(before, p) <==> l in At(m, p) || (CreditedBefore(cs, k, p) && l in more);
      }
    }
  }

  method EnrichTracks(tracks: seq<TrackRow>, credits: map<nat, seq<Credit>>, libraries: map<nat, set<nat>>)
    returns (rows: seq<TrackRow>, ofAlbums: map<nat, set<nat>>, ofArtists: map<nat, set<nat>>)
    ensures |rows| == |tracks|
    ensures forall i :: 0 <= i < |tracks| ==>
      rows[i] == tracks[i].(credits := CreditsAt(credits, tracks[i].id), libraries := At(libraries, tracks[i].id))
    ensures forall a: nat, l: nat :: l in At(ofAlbums, a) <==> AlbumHolds(rows, |rows|, a, l)
    ensures forall p: nat, l: nat :: l in At(ofArtists, p) <==> TracksHold(rows, |rows|, p, l)
  {
    rows, ofAlbums, ofArtists := [], map[], map[];
    for i := 0 to |tracks|
      invariant |rows| == i
      invariant forall k :: 0 <= k < i ==>
        rows[k] == tracks[k].(credits := CreditsAt(credits, tracks[k].id), libraries := At(libraries, tracks[k].id))
      invariant forall a: nat, l: nat :: l in At(ofAlbums, a) <==> AlbumHolds(rows, |rows|, a, l)
      invariant forall p: nat, l: nat :: l in At(ofArtists, p) <==> TracksHold(rows, |rows|, p, l)
    {
      var row := tracks[i].(credits := CreditsAt(credits, tracks[i].id), libraries := At(libraries, tracks[i].id));
      HoldsNext(rows, row);
      ghost var before := ofAlbums;
      if row.album.Some? {
        ofAlbums := ofAlbums[row.album.value := At(ofAlbums, row.album.value) + row.libraries];
      }
      assert forall a: nat, l: nat ::
        l in At(ofAlbums, a) <==> l in At(before, a) || (row.album == Some(a) && l in row.libraries);
      ofArtists := AddLibraries(ofArtists, row.credits, row.libraries);
      rows := rows + [row];
    }
  }

  lemma HoldsNext(rows: seq<TrackRow>, row: TrackRow)
    ensures forall a: nat, l: nat ::
      AlbumHolds(rows + [row], |rows| + 1, a, l)
      <==> AlbumHolds(rows, |rows|, a, l) || (row.album == Some(a) && l in row.libraries)
    ensures forall p: nat, l: nat ::
      TracksHold(rows + [row], |rows| + 1, p, l)
      <==> TracksHold(rows, |rows|, p, l) || (Credited(row.credits, p) && l in row.libraries)
  {
    var more := rows + [row];
    assert more[|rows|] == row && forall i :: 0 <= i < |rows| ==> more[i] == rows[i];
    forall a: nat, l: nat ensures AlbumHolds(more, |more|, a, l)
      <==> AlbumHolds(rows, |rows|, a, l) || (row.album == Some(a) && l in row.libraries) {
      if AlbumHolds(rows, |rows|, a, l) {
        var i :| 0 <= i < |rows| && rows[i].album == Some(a) && l in rows[i].libraries;
        assert more[i].album == Some(a) && l in more[i].libraries;
      }
      if row.album == Some(a) && l in row.libraries {
        assert more[|rows|].album == Some(a) && l in more[|rows|].libraries;
      }
    }
    forall p: nat, l: nat ensures TracksHold(more, |more|, p, l)
      <==> TracksHold(rows, |rows|, p, l) || (Credited(row.credits, p) && l in row.libraries) {
      if TracksHold(rows, |rows|, p, l) {
        var i :| 0 <= i < |rows| && Credited(rows[i].credits, p) && l in rows[i].libraries;
        assert Credited(more[i].credits, p) && l in more[i].libraries;
      }
      if Credited(row.credits, p) && l in row.libraries {
        assert Credited(more[|rows|].credits, p) && l in more[|rows|].libraries;
      }
    }
  }

  method AddAlbumCredits(credits: map<nat, seq<Credit>>, ofAlbums: map<nat, set<nat>>, ofTracks: map<nat, set<nat>>)
    returns (ofArtists: map<nat, set<nat>>)
    ensures forall p: nat, l: nat ::
      l in At(ofArtists, p)
      <==> l in At(ofTracks, p) || exists a :: a in credits && Credited(credits[a], p) && l in At(ofAlbums, a)
  {
    ofArtists := ofTracks;
    var rest := credits.Keys;
    while rest != {}
      invariant rest <= credits.Keys
      invariant forall p: nat, l: nat ::
        l in At(ofArtists, p)
        <==> l in At(ofTracks, p)
             || exists a :: a in credits && a !in rest && Credited(credits[a], p) && l in At(ofAlbums, a)
      decreases |rest|
    {
      var a :| a in rest;
      ofArtists := AddLibraries(ofArtists, credits[a], At(ofAlbums, a));
      rest := rest - {a};
    }
  }

  // ---------------------------------------------------------------- the whole

  ghost predicate TrackRowOk(row: TrackRow, t: RawTrack) {
    t.id.Some? && t.title.Some?
    && row == BareTrack(t).(credits := TrackArtists(t.artists), libraries := set l | l in LibrariesOf(t))
  }

  ghost predicate AlbumRowOk(raw: Raw, c: Catalog, a: nat) {
    a in c.albums && a in AlbumsAfter(raw, |raw.tracks|)
    && c.albums[a] == AlbumsAfter(raw, |raw.tracks|)[a].(credits := Of(c.albumCredits, a),
                                                         libraries := c.albums[a].libraries)
    && forall l :: l in c.albums[a].libraries <==> AlbumHolds(c.tracks, |c.tracks|, a, l)
  }

  ghost predicate Belongs(c: Catalog, m: Membership) {
    match m.of.entity
    case Library => false
    case Artist => ArtistHolds(c.tracks, c.albumCredits, m.of.id, m.library)
    case Album => AlbumHolds(c.tracks, |c.tracks|, m.of.id, m.library)
    case Track => exists i :: 0 <= i < |c.tracks| && c.tracks[i].id == m.of.id && m.library in c.tracks[i].libraries
  }

  function Firsts(artists: map<nat, ArtistRow>): map<nat, Credit> {
    map a | a in artists :: artists[a].first
  }

  // What a normalized catalogue is, in terms of the response it was made from.
  ghost predicate Normalized(raw: Raw, c: Catalog) {
    && Sound(raw.tracks, |raw.tracks|)
    && c.libraries == UsableLibraries(raw.libraries, |raw.libraries|)
    && c.trackCredits == TrackCreditsAfter(raw.tracks, |raw.tracks|)
    && c.albumCredits == AlbumCreditsAfter(raw, |raw.tracks|)
    && |c.tracks| == |raw.tracks|
    && (forall i :: 0 <= i < |c.tracks| ==> TrackRowOk(c.tracks[i], raw.tracks[i]))
    && c.albums.Keys == AlbumsAfter(raw, |raw.tracks|).Keys
    && (forall a :: a in c.albums ==> AlbumRowOk(raw, c, a))
    && Firsts(c.artists) == FirstOf(Met(raw, |raw.tracks|))
    && (forall p: nat, l: nat :: p in c.artists ==>
          (l in c.artists[p].libraries <==> ArtistHolds(c.tracks, c.albumCredits, p, l)))
    && (forall m :: m in c.memberships <==> Belongs(c, m))
  }

  predicate Identified(t: RawTrack, id: nat) { t.id == Some(id) }

  lemma {:induction false} CreditsOfNobody(tracks: seq<RawTrack>, n: nat, id: nat)
    requires n <= |tracks| && forall j :: 0 <= j < n ==> !Identified(tracks[j], id)
    ensures Of(TrackCreditsAfter(tracks, n), id) == []
  {
    if n > 0 {
      CreditsOfNobody(tracks, n - 1, id);
      OfConcat(TrackCreditsAfter(tracks, n - 1), CreditsOfTrack(tracks[n - 1]), id);
      assert !Identified(tracks[n - 1], id);
      if tracks[n - 1].id.Some? { OfOwning(tracks[n - 1].id.value, TrackArtists(tracks[n - 1].artists), id); }
    }
  }

  // Because track IDs are unique, each track gets back its own credits.
  lemma {:induction false} CreditsOfEach(tracks: seq<RawTrack>, n: nat, i: nat)
    requires i < n <= |tracks| && Sound(tracks, n)
    ensures tracks[i].id.Some? && Of(TrackCreditsAfter(tracks, n), tracks[i].id.value) == TrackArtists(tracks[i].artists)
  {
    hide TrackArtists;
    TrackOk(tracks, i);
    forall k | 0 <= k < n ensures tracks[k].id.Some? && (Identified(tracks[k], tracks[i].id.value) ==> k == i) {
      OnlyTrack(tracks, n, i, k);
    }
    CreditsOfOnly(tracks, n, i, tracks[i].id.value);
  }

  lemma OnlyTrack(tracks: seq<RawTrack>, n: nat, i: nat, k: nat)
    requires i < n <= |tracks| && k < n && Sound(tracks, n)
    ensures tracks[i].id.Some? && tracks[k].id.Some? && (Identified(tracks[k], tracks[i].id.value) ==> k == i)
  {
    assert Fault(tracks, i).None? && Fault(tracks, k).None?;
  }

  lemma {:induction false} CreditsOfOnly(tracks: seq<RawTrack>, n: nat, i: nat, id: nat)
    requires i < n <= |tracks| && Identified(tracks[i], id)
    requires forall k :: 0 <= k < n && Identified(tracks[k], id) ==> k == i
    ensures Of(TrackCreditsAfter(tracks, n), id) == TrackArtists(tracks[i].artists)
  {
    hide TrackArtists, Of;
    var last := tracks[n - 1];
    OfConcat(TrackCreditsAfter(tracks, n - 1), CreditsOfTrack(last), id);
    if last.id.Some? { OfOwning(last.id.value, TrackArtists(last.artists), id); }
    if i == n - 1 {
      CreditsOfNobody(tracks, n - 1, id);
    } else {
      CreditsOfOnly(tracks, n - 1, i, id);
      assert !Identified(last, id);
      assert Of([], id) == [] by { OfNone(id); }
    }
  }

  lemma OfNone(id: nat)
    ensures Of([], id) == []
  {
  }

  lemma PutsConcat(a: seq<Membership>, b: seq<Membership>, id: nat, library: nat)
    ensures Puts(a + b, |a + b|, id, library) <==> Puts(a, |a|, id, library) || Puts(b, |b|, id, library)
  {
    var all := a + b;
    assert forall k :: 0 <= k < |a| ==> all[k] == a[k];
    assert forall k :: 0 <= k < |b| ==> all[|a| + k] == b[k];
    if Puts(all, |all|, id, library) {
      var k :| 0 <= k < |all| && all[k].of.id == id && all[k].library == library;
      assert k >= |a| ==> b[k - |a|].of.id == id;
    }
  }

  lemma PutsOne(t: RawTrack, id: nat, library: nat)
    ensures Puts(MembershipsOf(t), |MembershipsOf(t)|, id, library) <==> Identified(t, id) && library in LibrariesOf(t)
  {
    if Identified(t, id) && library in LibrariesOf(t) {
      var k :| 0 <= k < |LibrariesOf(t)| && LibrariesOf(t)[k] == library;
      assert MembershipsOf(t)[k].of.id == id && MembershipsOf(t)[k].library == library;
    }
  }

  ghost predicate Holding(tracks: seq<RawTrack>, n: nat, id: nat, library: nat)
    requires n <= |tracks|
  {
    exists i :: 0 <= i < n && Identified(tracks[i], id) && library in LibrariesOf(tracks[i])
  }

  lemma {:induction false} MembershipMeaning(tracks: seq<RawTrack>, n: nat, id: nat, library: nat)
    requires n <= |tracks|
    ensures Puts(TrackMembershipsAfter(tracks, n), |TrackMembershipsAfter(tracks, n)|, id, library)
        <==> Holding(tracks, n, id, library)
  {
    hide LibrariesOf, MembershipsOf;
    if n > 0 {
      MembershipMeaning(tracks, n - 1, id, library);
      PutsConcat(TrackMembershipsAfter(tracks, n - 1), MembershipsOf(tracks[n - 1]), id, library);
      PutsOne(tracks[n - 1], id, library);
    }
  }

  // A track's libraries, read back from the membership rows, are the ones it was given.
  lemma {:induction false} EnrichedTrack(tracks: seq<RawTrack>, i: nat, libraries: map<nat, set<nat>>)
    requires i < |tracks| && Sound(tracks, |tracks|)
    requires forall t: nat, l: nat :: l in At(libraries, t) <==>
      Puts(TrackMembershipsAfter(tracks, |tracks|), |TrackMembershipsAfter(tracks, |tracks|)|, t, l)
    ensures tracks[i].id.Some? && At(libraries, tracks[i].id.value) == set l | l in LibrariesOf(tracks[i])
  {
    hide LibrariesOf, TrackMembershipsAfter, Puts;
    TrackOk(tracks, i);
    forall k | 0 <= k < |tracks| ensures tracks[k].id.Some? && (Identified(tracks[k], tracks[i].id.value) ==> k == i) {
      OnlyTrack(tracks, |tracks|, i, k);
    }
    var id := tracks[i].id.value;
    forall l ensures l in At(libraries, id) <==> l in LibrariesOf(tracks[i]) {
      MembershipMeaning(tracks, |tracks|, id, l);
    }
  }

  // Every credit met is a credit row of a track or of an album.
  lemma {:induction false} MetAre(raw: Raw, n: nat, x: Owned)
    requires n <= |raw.tracks|
    ensures x in Met(raw, n) <==> x in AlbumCreditsAfter(raw, n) || x in TrackCreditsAfter(raw.tracks, n)
  {
    if n > 0 { MetAre(raw, n - 1, x); }
  }

  lemma {:induction false} CreditedIsMet(raw: Raw, x: Owned)
    requires x in AlbumCreditsAfter(raw, |raw.tracks|) || x in TrackCreditsAfter(raw.tracks, |raw.tracks|)
    ensures x.credit.artist in FirstOf(Met(raw, |raw.tracks|))
  {
    var met := Met(raw, |raw.tracks|);
    MetAre(raw, |raw.tracks|, x);
    var i :| 0 <= i < |met| && met[i] == x;
    FirstOfMeaning(met, x.credit.artist);
  }

  lemma {:induction false} HolderIsMet(raw: Raw, rows: seq<TrackRow>, p: nat, l: nat)
    requires Sound(raw.tracks, |raw.tracks|) && |rows| == |raw.tracks|
    requires forall i :: 0 <= i < |rows| ==> TrackRowOk(rows[i], raw.tracks[i])
    requires ArtistHolds(rows, AlbumCreditsAfter(raw, |raw.tracks|), p, l)
    ensures p in FirstOf(Met(raw, |raw.tracks|))
  {
    if TracksHold(rows, |rows|, p, l) {
      var i :| 0 <= i < |rows| && Credited(rows[i].credits, p) && l in rows[i].libraries;
      assert TrackRowOk(rows[i], raw.tracks[i]);
      CreditsOfEach(raw.tracks, |raw.tracks|, i);
      var credits := TrackCreditsAfter(raw.tracks, |raw.tracks|);
      OfMembers(credits, rows[i].id, p);
      var k :| 0 <= k < |credits| && credits[k].owner == rows[i].id && credits[k].credit.artist == p;
      CreditedIsMet(raw, credits[k]);
    } else {
      var credits := AlbumCreditsAfter(raw, |raw.tracks|);
      var i :| 0 <= i < |credits| && credits[i].credit.artist == p && AlbumHolds(rows, |rows|, credits[i].owner, l);
      CreditedIsMet(raw, credits[i]);
    }
  }

  lemma {:induction false} ArtistsHoldAs(rows: seq<TrackRow>, albumCredits: seq<Owned>, credits: map<nat, seq<Credit>>,
                                         ofAlbums: map<nat, set<nat>>, p: nat, l: nat)
    requires forall o: nat :: CreditsAt(credits, o) == Of(albumCredits, o)
    requires forall a: nat, l: nat :: l in At(ofAlbums, a) <==> AlbumHolds(rows, |rows|, a, l)
    ensures ArtistHolds(rows, albumCredits, p, l)
      <==> TracksHold(rows, |rows|, p, l)
           || exists a :: a in credits && Credited(credits[a], p) && l in At(ofAlbums, a)
  {
    if exists i :: 0 <= i < |albumCredits| && albumCredits[i].credit.artist == p
                && AlbumHolds(rows, |rows|, albumCredits[i].owner, l) {
      var i :| 0 <= i < |albumCredits| && albumCredits[i].credit.artist == p
            && AlbumHolds(rows, |rows|, albumCredits[i].owner, l);
      var a := albumCredits[i].owner;
      OfMembers(albumCredits, a, p);
      assert Credited(CreditsAt(credits, a), p);
      assert a in credits;
    }
    if exists a :: a in credits && Credited(credits[a], p) && l in At(ofAlbums, a) {
      var a :| a in credits && Credited(credits[a], p) && l in At(ofAlbums, a);
      assert CreditsAt(credits, a) == credits[a];
      OfMembers(albumCredits, a, p);
    }
  }

  lemma {:induction false} EnrichedRow(raw: Raw, i: nat, row: TrackRow, credits: map<nat, seq<Credit>>,
                                       libraries: map<nat, set<nat>>)
    requires i < |raw.tracks| && Sound(raw.tracks, |raw.tracks|)
    requires forall o: nat :: CreditsAt(credits, o) == Of(TrackCreditsAfter(raw.tracks, |raw.tracks|), o)
    requires forall t: nat, l: nat :: l in At(libraries, t) <==>
      Puts(TrackMembershipsAfter(raw.tracks, |raw.tracks|), |TrackMembershipsAfter(raw.tracks, |raw.tracks|)|, t, l)
    requires var t := TracksAfter(raw.tracks, |raw.tracks|)[i];
      row == t.(credits := CreditsAt(credits, t.id), libraries := At(libraries, t.id))
    ensures TrackRowOk(row, raw.tracks[i])
  {
    hide Of, TrackCreditsAfter, TrackMembershipsAfter, Puts, TrackArtists, LibrariesOf;
    TrackOk(raw.tracks, i);
    CreditsOfEach(raw.tracks, |raw.tracks|, i);
    EnrichedTrack(raw.tracks, i, libraries);
  }

  // The rows of every entity, and the membership rows their libraries make.
  method Assemble(libraries: seq<LibraryRow>, s: Scanned, rows: seq<TrackRow>, albumCredits: map<nat, seq<Credit>>,
                  ofAlbums: map<nat, set<nat>>, ofArtists: map<nat, set<nat>>) returns (c: Catalog)
    ensures c == c.(libraries := libraries, tracks := rows, trackCredits := s.trackCredits, albumCredits := s.albumCredits)
    ensures c.albums == map a | a in s.albums ::
      s.albums[a].(credits := CreditsAt(albumCredits, a), libraries := At(ofAlbums, a))
    ensures c.artists == map p | p in s.artists :: ArtistRow(s.artists[p], At(ofArtists, p))
    ensures forall m :: m in c.memberships <==>
      match m.of.entity
      case Library => false
      case Artist => m.of.id in s.artists && m.library in At(ofArtists, m.of.id)
      case Album => m.library in At(ofAlbums, m.of.id)
      case Track => exists i :: 0 <= i < |rows| && rows[i].id == m.of.id && m.library in rows[i].libraries
  {
    var albums := map a | a in s.albums :: s.albums[a].(credits := CreditsAt(albumCredits, a), libraries := At(ofAlbums, a));
    var artists := map p | p in s.artists :: ArtistRow(s.artists[p], At(ofArtists, p));
    var memberships :=
      (set t, l | t in rows && l in t.libraries :: Membership(Key(Track, t.id), l))
      + (set a, l | a in ofAlbums && l in ofAlbums[a] :: Membership(Key(Album, a), l))
      + (set p, l | p in artists && l in artists[p].libraries :: Membership(Key(Artist, p), l));
    c := Catalog(libraries, artists, albums, rows, s.trackCredits, s.albumCredits, memberships);
  }

  method Enrich(ghost raw: Raw, libraries: seq<LibraryRow>, s: Scanned) returns (c: Catalog)
    requires Sound(raw.tracks, |raw.tracks|) && s == ScannedAfter(raw, |raw.tracks|)
    requires libraries == UsableLibraries(raw.libraries, |raw.libraries|)
    ensures Normalized(raw, c)
  {
    hide Of, Met, FirstOf, TrackCreditsAfter, AlbumCreditsAfter, TrackMembershipsAfter, Puts, AlbumsAfter,
      TrackRowOk, AlbumHolds, TracksHold, ArtistHolds, UsableLibraries, Sound, TracksAfter;
    var trackCredits := GroupCredits(s.trackCredits);
    var albumCredits := GroupCredits(s.albumCredits);
    var trackLibraries := GroupLibraries(s.memberships);
    var rows, ofAlbums, ofTracks := EnrichTracks(s.tracks, trackCredits, trackLibraries);
    forall i | 0 <= i < |rows| ensures TrackRowOk(rows[i], raw.tracks[i]) {
      EnrichedRow(raw, i, rows[i], trackCredits, trackLibraries);
    }
    var ofArtists := AddAlbumCredits(albumCredits, ofAlbums, ofTracks);
    forall p: nat, l: nat ensures l in At(ofArtists, p) <==> ArtistHolds(rows, s.albumCredits, p, l) {
      ArtistsHoldAs(rows, s.albumCredits, albumCredits, ofAlbums, p, l);
    }
    c := Assemble(libraries, s, rows, albumCredits, ofAlbums, ofArtists);
    forall m ensures m in c.memberships <==> Belongs(c, m) {
      if m.of.entity == Artist && Belongs(c, m) {
        HolderIsMet(raw, rows, m.of.id, m.library);
      }
    }
    assert Firsts(c.artists) == s.artists;
    assert forall a :: a in c.albums ==> AlbumRowOk(raw, c, a);
  }

  method Normalize(raw: Raw) returns (r: Result<Catalog, ScanError>)
    ensures r.Ok? <==> Sound(raw.tracks, |raw.tracks|)
    ensures r.Ok? ==> Normalized(raw, r.value)
    ensures r.Err? ==> Refused(raw.tracks, r.error)
    decreases |raw.tracks|, 2
  {
    var libraries := ScanLibraries(raw.libraries);
    var rows, artists, credits := ScanAlbums(raw.albums);
    var scanned := ScanTracks(raw, rows, artists, credits);
    if scanned.Err? {
      return Err(scanned.error);
    }
    var c := Enrich(raw, libraries, scanned.value);
    r := Ok(c);
  }
}
