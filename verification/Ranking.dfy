// Choosing the albums to recommend: best first, in rounds that raise the cap per artist.

module Ranking {
  import opened Prelude

  // One scored candidate: its identity, its artist's identity, whether it is the source album,
  // and its place in the order of (score, artist, album, key).
  datatype Candidate = Candidate(key: nat, artist: nat, same: bool, score: nat)

  // ---------------------------------------------------------------- scoring order

  predicate Ordered(cs: seq<Candidate>) {
    forall i, j :: 0 <= i < j < |cs| ==> cs[i].score <= cs[j].score
  }

  // Inserts after everything that is not worse: equal candidates keep their order.
  function Insert(cs: seq<Candidate>, c: Candidate): (r: seq<Candidate>)
    requires Ordered(cs)
    ensures Ordered(r)
    ensures forall x :: x in r <==> x in cs || x == c
  {
    if cs == [] then [c]
    else if cs[|cs| - 1].score <= c.score then
      assert forall i :: 0 <= i < |cs| ==> cs[i].score <= cs[|cs| - 1].score;
      cs + [c]
    else
      var last := cs[|cs| - 1];
      var init := cs[..|cs| - 1];
      assert cs == init + [last] && Ordered(init);
      var r := Insert(init, c);
      assert forall x :: x in r ==> x.score <= last.score;
      r + [last]
  }

  lemma {:induction false} InsertKeepsAll(cs: seq<Candidate>, c: Candidate)
    requires Ordered(cs)
    ensures multiset(Insert(cs, c)) == multiset(cs) + multiset{c}
  {
    if cs != [] {
      var init, last := cs[..|cs| - 1], cs[|cs| - 1];
      assert cs == init + [last];
      if last.score > c.score { InsertKeepsAll(init, c); }
    }
  }

  function Scored(cs: seq<Candidate>): (r: seq<Candidate>)
    ensures Ordered(r)
    ensures forall x :: x in r <==> x in cs && !x.same
  {
    if cs == [] then []
    else
      var init, last := cs[..|cs| - 1], cs[|cs| - 1];
      assert cs == init + [last];
      if last.same then Scored(init) else Insert(Scored(init), last)
  }

  // Every candidate but the source album is scored, as often as it occurs.
  lemma {:induction false} ScoredKeepsAll(cs: seq<Candidate>, x: Candidate)
    ensures multiset(Scored(cs))[x] == if x.same then 0 else multiset(cs)[x]
    decreases |cs|
  {
    if cs != [] {
      var init, last := cs[..|cs| - 1], cs[|cs| - 1];
      assert cs == init + [last];
      ScoredKeepsAll(init, x);
      InsertKeepsAll(Scored(init), last);
    }
  }

  // ---------------------------------------------------------------- counting

  function Count(out: seq<Candidate>, artist: nat): nat {
    if out == [] then 0
    else Count(out[..|out| - 1], artist) + if out[|out| - 1].artist == artist then 1 else 0
  }

  ghost predicate HasKey(out: seq<Candidate>, key: nat) {
    exists i :: 0 <= i < |out| && out[i].key == key
  }

  lemma CountNext(out: seq<Candidate>, c: Candidate, artist: nat)
    ensures Count(out + [c], artist) == Count(out, artist) + if c.artist == artist then 1 else 0
  {
    assert (out + [c])[..|out|] == out;
  }

  lemma HasKeyNext(out: seq<Candidate>, c: Candidate, key: nat)
    ensures HasKey(out + [c], key) <==> HasKey(out, key) || c.key == key
  {
    if i :| 0 <= i < |out| && out[i].key == key { assert (out + [c])[i].key == key; }
    if c.key == key { assert (out + [c])[|out|].key == key; }
  }

  // ---------------------------------------------------------------- what a fair choice is

  // Candidates that were not chosen are duplicates of chosen ones, or their artist has its share.
  ghost predicate Served(cs: seq<Candidate>, n: nat, out: seq<Candidate>, share: int)
    requires n <= |cs|
  {
    forall i :: 0 <= i < n ==> HasKey(out, cs[i].key) || Count(out, cs[i].artist) >= share
  }

  // An album beyond an artist's first ones is taken only when no other artist has to wait for it.
  ghost predicate FairAt(cs: seq<Candidate>, out: seq<Candidate>, first: int, p: nat)
    requires p < |out|
  {
    var share := Count(out[..p], out[p].artist);
    share >= first ==> Served(cs, |cs|, out[..p], share)
  }

  // Each pick is a candidate, and better albums of its artist were taken before it.
  ghost predicate BestFirst(cs: seq<Candidate>, out: seq<Candidate>, picks: seq<nat>, p: nat)
    requires p < |out| && |picks| == |out|
  {
    picks[p] < |cs| && out[p] == cs[picks[p]]
    && forall i :: 0 <= i < picks[p] && cs[i].artist == out[p].artist ==> HasKey(out[..p], cs[i].key)
  }

  ghost predicate Chosen(cs: seq<Candidate>, out: seq<Candidate>, picks: seq<nat>, first: int, cap: int) {
    && |picks| == |out|
    && (forall p, q :: 0 <= p < q < |out| ==> out[p].key != out[q].key)
    && (forall p :: 0 <= p < |out| ==> FairAt(cs, out, first, p))
    && (forall p :: 0 <= p < |out| ==> BestFirst(cs, out, picks, p))
    && (forall artist :: Count(out, artist) <= Max(0, cap))
  }

  // The round in which a candidate may be taken: the first, unless its artist has more by then.
  function RoundOf(cs: seq<Candidate>, out: seq<Candidate>, i: nat, first: int): int
    requires i < |cs|
  {
    Max(first, Count(out, cs[i].artist) + 1)
  }

  // Of all candidates not taken yet, i comes in the earliest round, and best in that round.
  ghost predicate IsNext(cs: seq<Candidate>, out: seq<Candidate>, i: nat, first: int) {
    i < |cs| && !HasKey(out, cs[i].key)
    && forall j :: 0 <= j < |cs| && !HasKey(out, cs[j].key) ==>
         RoundOf(cs, out, i, first) < RoundOf(cs, out, j, first)
         || (RoundOf(cs, out, i, first) == RoundOf(cs, out, j, first) && i <= j)
  }

  // Every pick is the next one, across all artists.
  ghost predicate InRounds(cs: seq<Candidate>, out: seq<Candidate>, picks: seq<nat>, first: int) {
    |picks| == |out| && forall p :: 0 <= p < |out| ==> IsNext(cs, out[..p], picks[p], first) && out[p] == cs[picks[p]]
  }

  lemma {:induction false} InRoundsNext(cs: seq<Candidate>, out: seq<Candidate>, picks: seq<nat>, first: int, cap: int, i: nat)
    requires InRounds(cs, out, picks, first) && i < |cs| && first <= cap
    requires !HasKey(out, cs[i].key) && Count(out, cs[i].artist) < cap
    requires cap > first ==> Served(cs, |cs|, out, cap - 1)
    requires Served(cs, i, out, cap)
    ensures InRounds(cs, out + [cs[i]], picks + [i], first)
  {
    var more, longer := out + [cs[i]], picks + [i];
    assert IsNext(cs, out, i, first);
    forall p | 0 <= p < |more| ensures IsNext(cs, more[..p], longer[p], first) && more[p] == cs[longer[p]] {
      if p < |out| {
        assert more[..p] == out[..p];
      } else {
        assert more[..p] == out;
      }
    }
  }

  // So the scored order decides the ranking: of two rankings of the same candidates the shorter is
  // how the longer begins.
  lemma {:induction false} RankingIsDetermined(cs: seq<Candidate>, a: seq<Candidate>, picksA: seq<nat>, b: seq<Candidate>,
                                               picksB: seq<nat>, first: int)
    requires InRounds(cs, a, picksA, first) && InRounds(cs, b, picksB, first) && |a| <= |b|
    ensures a == b[..|a|] && picksA == picksB[..|a|]
    decreases |a|
  {
    hide IsNext;
    if a != [] {
      var n := |a| - 1;
      assert InRounds(cs, a[..n], picksA[..n], first) by {
        forall p | 0 <= p < n ensures IsNext(cs, a[..n][..p], picksA[..n][p], first) { assert a[..n][..p] == a[..p]; }
      }
      RankingIsDetermined(cs, a[..n], picksA[..n], b, picksB, first);
      assert b[..n] == a[..n];
      OneNext(cs, a[..n], picksA[n], picksB[n], first);
    }
  }

  lemma OneNext(cs: seq<Candidate>, out: seq<Candidate>, i: nat, j: nat, first: int)
    requires IsNext(cs, out, i, first) && IsNext(cs, out, j, first)
    ensures i == j
  {
  }

  lemma {:induction false} ChosenNext(cs: seq<Candidate>, out: seq<Candidate>, picks: seq<nat>, first: int, cap: int, i: nat)
    requires Chosen(cs, out, picks, first, cap) && i < |cs|
    requires !HasKey(out, cs[i].key) && Count(out, cs[i].artist) < cap
    requires cap > first ==> Served(cs, |cs|, out, cap - 1)
    requires Served(cs, i, out, cap)
    ensures Chosen(cs, out + [cs[i]], picks + [i], first, cap)
  {
    var c := cs[i];
    var more, longer := out + [c], picks + [i];
    forall p | 0 <= p < |more| ensures FairAt(cs, more, first, p) && BestFirst(cs, more, longer, p) {
      assert more[..p] == out[..p];
      if p < |out| {
        assert FairAt(cs, out, first, p) && BestFirst(cs, out, picks, p);
      } else {
        assert out[..p] == out;
      }
    }
    forall artist ensures Count(more, artist) <= Max(0, cap) {
      CountNext(out, c, artist);
    }
    forall p, q | 0 <= p < q < |more| ensures more[p].key != more[q].key {
      if q == |out| { assert out[p].key != c.key; }
    }
  }

  lemma {:induction false} ServedNext(cs: seq<Candidate>, n: nat, out: seq<Candidate>, share: int, c: Candidate)
    requires n <= |cs| && Served(cs, n, out, share)
    ensures Served(cs, n, out + [c], share)
  {
    forall i | 0 <= i < n ensures HasKey(out + [c], cs[i].key) || Count(out + [c], cs[i].artist) >= share {
      HasKeyNext(out, c, cs[i].key);
      CountNext(out, c, cs[i].artist);
    }
  }

  // ---------------------------------------------------------------- the rounds

  method ChooseCapped(cs: seq<Candidate>, limit: int, first: int, fallback: int)
    returns (out: seq<Candidate>, ghost picks: seq<nat>)
    ensures Chosen(cs, out, picks, first, Max(fallback, first))
    ensures InRounds(cs, out, picks, first)
    ensures |out| <= Max(1, limit)
    ensures |out| < Max(1, limit) ==> Served(cs, |cs|, out, Max(fallback, first))
    ensures limit <= 0 ==> (|out| == 1 <==> Max(fallback, first) >= 1 && cs != [])
  {
    hide InRounds, Chosen, Served, HasKey, Count;
    out, picks := [], [];
    NoPick(cs, out, picks, first);
    var chosen: set<nat> := {};
    var counts: map<nat, nat> := map[];
    var cap := first;
    var last := Max(fallback, first);
    while cap <= last
      invariant first <= cap <= last + 1
      invariant Chosen(cs, out, picks, first, cap - 1)
      invariant InRounds(cs, out, picks, first)
      invariant cap > first ==> Served(cs, |cs|, out, cap - 1)
      invariant forall k :: k in chosen <==> HasKey(out, k)
      invariant forall a: nat :: (if a in counts then counts[a] else 0) == Count(out, a)
      invariant |out| < Max(1, limit)
      decreases last + 1 - cap
    {
      WiderCap(cs, out, picks, first, cap - 1, cap);
      assert Served(cs, 0, out, cap) by { ServedNone(cs, out, cap); }
      for i := 0 to |cs|
        invariant Chosen(cs, out, picks, first, cap)
        invariant InRounds(cs, out, picks, first)
        invariant cap > first ==> Served(cs, |cs|, out, cap - 1)
        invariant Served(cs, i, out, cap)
        invariant forall k :: k in chosen <==> HasKey(out, k)
        invariant forall a: nat :: (if a in counts then counts[a] else 0) == Count(out, a)
        invariant |out| < Max(1, limit)
      {
        var c := cs[i];
        var count := if c.artist in counts then counts[c.artist] else 0;
        if c.key !in chosen && count < cap {
          TakeNext(cs, out, picks, first, cap, i);
          chosen := chosen + {c.key};
          counts := counts[c.artist := count + 1];
          out, picks := out + [c], picks + [i];
          if |out| >= limit {
            WiderCap(cs, out, picks, first, cap, last);
            return;
          }
        } else {
          ServedOne(cs, i, out, cap);
        }
      }
      cap := cap + 1;
    }
    if limit <= 0 && cs != [] { NothingServed(cs, out, last); }
  }

  lemma {:induction false} TakeNext(cs: seq<Candidate>, out: seq<Candidate>, picks: seq<nat>, first: int, cap: int, i: nat)
    requires Chosen(cs, out, picks, first, cap) && InRounds(cs, out, picks, first) && i < |cs| && first <= cap
    requires !HasKey(out, cs[i].key) && Count(out, cs[i].artist) < cap
    requires cap > first ==> Served(cs, |cs|, out, cap - 1)
    requires Served(cs, i, out, cap)
    ensures var more := out + [cs[i]];
      && Chosen(cs, more, picks + [i], first, cap) && InRounds(cs, more, picks + [i], first)
      && (cap > first ==> Served(cs, |cs|, more, cap - 1)) && Served(cs, i + 1, more, cap)
      && (forall k :: HasKey(more, k) <==> HasKey(out, k) || cs[i].key == k)
      && (forall a :: Count(more, a) == Count(out, a) + (if cs[i].artist == a then 1 else 0))
  {
    hide Chosen, InRounds, Count;
    var c := cs[i];
    ChosenNext(cs, out, picks, first, cap, i);
    InRoundsNext(cs, out, picks, first, cap, i);
    if cap > first { ServedNext(cs, |cs|, out, cap - 1, c); }
    ServedNext(cs, i, out, cap, c);
    forall k ensures HasKey(out + [c], k) <==> HasKey(out, k) || c.key == k { HasKeyNext(out, c, k); }
    forall a ensures Count(out + [c], a) == Count(out, a) + (if c.artist == a then 1 else 0) { CountNext(out, c, a); }
  }

  lemma ServedNone(cs: seq<Candidate>, out: seq<Candidate>, cap: int)
    ensures Served(cs, 0, out, cap)
  {
  }

  lemma ServedOne(cs: seq<Candidate>, i: nat, out: seq<Candidate>, cap: int)
    requires i < |cs| && Served(cs, i, out, cap) && (HasKey(out, cs[i].key) || Count(out, cs[i].artist) >= cap)
    ensures Served(cs, i + 1, out, cap)
  {
  }

  // When every candidate is served by nothing, there was no room for any.
  lemma NothingServed(cs: seq<Candidate>, out: seq<Candidate>, cap: int)
    requires cs != [] && Served(cs, |cs|, out, cap)
    ensures out == [] ==> cap <= 0
  {
    if out == [] { assert !HasKey(out, cs[0].key) && Count(out, cs[0].artist) == 0; }
  }

  lemma NoPick(cs: seq<Candidate>, out: seq<Candidate>, picks: seq<nat>, first: int)
    requires out == [] && picks == []
    ensures InRounds(cs, out, picks, first) && forall cap :: Chosen(cs, out, picks, first, cap) && Served(cs, 0, out, cap)
    ensures forall k :: !HasKey(out, k)
    ensures forall a :: Count(out, a) == 0
  {
  }

  lemma WiderCap(cs: seq<Candidate>, out: seq<Candidate>, picks: seq<nat>, first: int, cap: int, wider: int)
    requires Chosen(cs, out, picks, first, cap) && cap <= wider
    ensures Chosen(cs, out, picks, first, wider)
  {
  }

  // The recommendation: no source album, no album twice, no artist over the cap, best and
  // fairest first, and short of the limit only when nothing else may be taken.
  method RankSimilarAlbums(candidates: seq<Candidate>, limit: int, first: int, fallback: int)
    returns (out: seq<Candidate>, ghost picks: seq<nat>)
    ensures Chosen(Scored(candidates), out, picks, first, Max(fallback, first))
    ensures InRounds(Scored(candidates), out, picks, first)
    ensures forall p :: 0 <= p < |out| ==> out[p] in candidates && !out[p].same
    ensures |out| <= Max(1, limit)
    ensures |out| < Max(1, limit) ==>
      forall c :: c in candidates && !c.same ==> HasKey(out, c.key) || Count(out, c.artist) >= Max(fallback, first)
    ensures limit <= 0 ==>
      (|out| == 1 <==> Max(fallback, first) >= 1 && exists c :: c in candidates && !c.same)
  {
    var scored := Scored(candidates);
    assert scored != [] <==> exists c :: c in candidates && !c.same by {
      if scored != [] { assert scored[0] in scored; }
      if c :| c in candidates && !c.same { assert c in scored; }
    }
    out, picks := ChooseCapped(scored, limit, first, fallback);
    forall p | 0 <= p < |out| ensures out[p] in scored {
      assert BestFirst(scored, out, picks, p);
    }
    if |out| < Max(1, limit) {
      forall c | c in candidates && !c.same ensures HasKey(out, c.key) || Count(out, c.artist) >= Max(fallback, first) {
        assert c in scored;
        var i :| 0 <= i < |scored| && scored[i] == c;
      }
    }
  }

  // Asked for no album, a ranking of one album still returns it.
  method RankForNone() returns (out: seq<Candidate>)
    ensures |out| == 1
  {
    var album := Candidate(1, 1, false, 0);
    assert album in [album];
    ghost var picks;
    out, picks := RankSimilarAlbums([album], 0, 1, 3);
  }

  // ---------------------------------------------------------------- what each artist ends up with

  predicate DistinctKeys(cs: seq<Candidate>) {
    forall i, j :: 0 <= i < j < |cs| ==> cs[i].key != cs[j].key
  }

  function KeysBy(cs: seq<Candidate>, artist: nat): (r: set<nat>)
    ensures forall k :: k in r <==> exists i :: 0 <= i < |cs| && cs[i].artist == artist && cs[i].key == k
  {
    if cs == [] then {}
    else
      var last := cs[|cs| - 1];
      assert cs == cs[..|cs| - 1] + [last];
      KeysBy(cs[..|cs| - 1], artist) + if last.artist == artist then {last.key} else {}
  }

  lemma {:induction false} CountIsSize(cs: seq<Candidate>, artist: nat)
    requires DistinctKeys(cs)
    ensures Count(cs, artist) == |KeysBy(cs, artist)|
  {
    if cs != [] {
      var init, last := cs[..|cs| - 1], cs[|cs| - 1];
      CountIsSize(init, artist);
      assert last.key !in KeysBy(init, artist);
    }
  }

  // Among distinct albums, a ranking that was not cut by the limit gives every artist as many
  // places as it has albums, up to the cap.
  lemma {:induction false} EveryArtistGetsItsShare(cs: seq<Candidate>, out: seq<Candidate>, picks: seq<nat>, first: int, cap: int,
                                                   artist: nat)
    requires Chosen(cs, out, picks, first, cap) && Served(cs, |cs|, out, cap) && DistinctKeys(cs)
    ensures Count(out, artist) == Min(Max(0, cap), Count(cs, artist))
  {
    hide KeysBy, FairAt, Count, Served;
    CountIsSize(cs, artist);
    CountIsSize(out, artist);
    forall k | k in KeysBy(out, artist) ensures k in KeysBy(cs, artist) {
      var p :| 0 <= p < |out| && out[p].artist == artist && out[p].key == k;
      assert BestFirst(cs, out, picks, p);
    }
    SubsetSize(KeysBy(out, artist), KeysBy(cs, artist));
    if Count(out, artist) < cap {
      forall k | k in KeysBy(cs, artist) ensures k in KeysBy(out, artist) {
        var i :| 0 <= i < |cs| && cs[i].artist == artist && cs[i].key == k;
        ServedAt(cs, out, cap, i);
        PickedIs(cs, out, picks, first, cap, i);
      }
      assert KeysBy(out, artist) == KeysBy(cs, artist);
    }
  }

  lemma ServedAt(cs: seq<Candidate>, out: seq<Candidate>, cap: int, i: nat)
    requires Served(cs, |cs|, out, cap) && i < |cs|
    ensures HasKey(out, cs[i].key) || Count(out, cs[i].artist) >= cap
  {
  }

  // Among distinct albums, whatever has a candidate's key is that candidate.
  lemma {:induction false} PickedIs(cs: seq<Candidate>, out: seq<Candidate>, picks: seq<nat>, first: int, cap: int, i: nat)
    requires Chosen(cs, out, picks, first, cap) && DistinctKeys(cs) && i < |cs| && HasKey(out, cs[i].key)
    ensures exists p :: 0 <= p < |out| && out[p].artist == cs[i].artist && out[p].key == cs[i].key
  {
    var p :| 0 <= p < |out| && out[p].key == cs[i].key;
    assert BestFirst(cs, out, picks, p);
    assert picks[p] == i;
  }
}
