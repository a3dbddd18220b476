// Qualifying the links between provider tracks and analysis rows: which links carry complete
// evidence, and which shared analysis IDs are questionable.

module Evidence {
  import opened Prelude

  type Id = nat
  type Print = seq<nat>

  datatype Status = Ready | Pending | Missing

  // Conflict flags and review states, as clients read them.
  datatype Flag = ValidationUnavailable | EvidencePending | EvidenceInconclusive | Disagreement | ProviderConflict
  datatype Review = Provisional | NeedsRepair | NeedsReview

  // analysis is None for a track that has no mapping, or a mapping to nothing.
  datatype Link = Link(analysis: Option<Id>, status: Status, tier: Option<nat>,
                       complete: bool, flags: set<Flag>, review: Option<Review>)

  // The tracks in catalogue order, and a link for each.
  type Links = map<Id, Link>

  ghost predicate Covers(order: seq<Id>, links: Links) {
    Distinct(order) && forall t :: t in links <==> t in order
  }

  // What the mapping says of a track: its analysis ID, if any, and how it was matched.
  datatype Mapping = Mapping(analysis: Option<Id>, tier: Option<nat>)

  // A track's link before its evidence is weighed. compared holds the analysis rows that exist.
  function Mapped(mapping: map<Id, Mapping>, compared: set<Id>, t: Id): Link {
    if t !in mapping then Link(None, Missing, None, false, {}, None)
    else
      var m := mapping[t];
      var ready := m.analysis.Some? && m.analysis.value in compared;
      Link(m.analysis, if ready then Ready else Pending, m.tier, false, {}, None)
  }

  function InitialLinks(order: seq<Id>, mapping: map<Id, Mapping>, compared: set<Id>): Links {
    map t | t in order :: Mapped(mapping, compared, t)
  }

  method BuildLinks(order: seq<Id>, mapping: map<Id, Mapping>, compared: set<Id>) returns (links: Links)
    ensures links == InitialLinks(order, mapping, compared)
  {
    links := map[];
    for i := 0 to |order|
      invariant links == InitialLinks(order[..i], mapping, compared)
    {
      links := links[order[i] := Mapped(mapping, compared, order[i])];
    }
    assert order[..|order|] == order;
  }

  // ---------------------------------------------------------------- groups of one analysis ID

  predicate LinksTo(links: Links, t: Id, a: Id) {
    t in links && links[t].analysis == Some(a)
  }

  // The chosen tracks among the first n that link to an analysis ID, in order.
  function Members(order: seq<Id>, n: nat, links: Links, chosen: set<Id>, a: Id): seq<Id>
    requires n <= |order|
  {
    if n == 0 then []
    else
      var last := if order[n - 1] in chosen && LinksTo(links, order[n - 1], a) then [order[n - 1]] else [];
      Members(order, n - 1, links, chosen, a) + last
  }

  function Group(order: seq<Id>, links: Links, chosen: set<Id>, a: Id): seq<Id> {
    Members(order, |order|, links, chosen, a)
  }

  predicate ReadyFor(links: Links, t: Id) {
    t in links && links[t].status == Ready && links[t].analysis.Some?
  }

  function ReadyTracks(links: Links): set<Id> {
    set t | t in links && links[t].status == Ready
  }

  lemma {:induction false} MembersAre(order: seq<Id>, n: nat, links: Links, chosen: set<Id>, a: Id, t: Id)
    requires n <= |order|
    ensures t in Members(order, n, links, chosen, a) <==> t in order[..n] && t in chosen && LinksTo(links, t, a)
  {
    if n > 0 {
      MembersAre(order, n - 1, links, chosen, a, t);
      assert order[..n] == order[..n - 1] + [order[n - 1]];
    }
  }

  lemma {:induction false} InItsGroup(order: seq<Id>, links: Links, t: Id)
    requires Covers(order, links) && ReadyFor(links, t)
    ensures t in Group(order, links, ReadyTracks(links), links[t].analysis.value)
  {
    assert order[..|order|] == order;
    MembersAre(order, |order|, links, ReadyTracks(links), links[t].analysis.value, t);
  }

  lemma {:induction false} MembersDistinct(order: seq<Id>, n: nat, links: Links, chosen: set<Id>, a: Id)
    requires n <= |order| && Distinct(order)
    ensures Distinct(Members(order, n, links, chosen, a))
  {
    if n > 0 {
      MembersDistinct(order, n - 1, links, chosen, a);
      MembersAre(order, n - 1, links, chosen, a, order[n - 1]);
    }
  }

  // A group depends on which of its own tracks are chosen, and on nothing else.
  lemma {:induction false} MembersSame(order: seq<Id>, n: nat, links: Links, more: Links,
                                       chosen: set<Id>, other: set<Id>, a: Id)
    requires n <= |order|
    requires forall t :: t in order[..n] ==>
      (t in chosen && LinksTo(links, t, a) <==> t in other && LinksTo(more, t, a))
    ensures Members(order, n, links, chosen, a) == Members(order, n, more, other, a)
  {
    if n > 0 {
      assert order[..n] == order[..n - 1] + [order[n - 1]];
      MembersSame(order, n - 1, links, more, chosen, other, a);
    }
  }

  method Grouped(order: seq<Id>, links: Links, chosen: set<Id>) returns (groups: map<Id, seq<Id>>)
    ensures forall a :: a in groups <==> Group(order, links, chosen, a) != []
    ensures forall a :: a in groups ==> groups[a] == Group(order, links, chosen, a)
  {
    groups := map[];
    for i := 0 to |order|
      invariant forall a :: a in groups <==> Members(order, i, links, chosen, a) != []
      invariant forall a :: a in groups ==> groups[a] == Members(order, i, links, chosen, a)
    {
      var t := order[i];
      if t in links && t in chosen && links[t].analysis.Some? {
        var a := links[t].analysis.value;
        groups := groups[a := (if a in groups then groups[a] else []) + [t]];
      }
    }
  }

  // The tracks of groups with more than one member: the only ones whose evidence is read.
  ghost predicate InShared(order: seq<Id>, links: Links, chosen: set<Id>, t: Id) {
    t in links && t in order && t in chosen && links[t].analysis.Some?
    && |Group(order, links, chosen, links[t].analysis.value)| > 1
  }

  method Shared(order: seq<Id>, links: Links, chosen: set<Id>) returns (tracks: set<Id>)
    ensures forall t :: t in tracks <==> InShared(order, links, chosen, t)
  {
    var groups := Grouped(order, links, chosen);
    tracks := set a, t | a in groups && |groups[a]| > 1 && t in groups[a] :: t;
    forall t ensures t in tracks <==> InShared(order, links, chosen, t) {
      forall a: Id ensures t in Group(order, links, chosen, a) <==> t in order && t in chosen && LinksTo(links, t, a) {
        MembersAre(order, |order|, links, chosen, a, t);
        assert order[..|order|] == order;
      }
    }
  }

  // ---------------------------------------------------------------- recording evidence

  // None where links are direct and carry no probabilistic merge; a print may be absent or empty.
  type Prints = Option<map<Id, Print>>

  predicate HasPrint(prints: map<Id, Print>, t: Id) {
    t in prints && prints[t] != []
  }

  // A verdict compares two prints: they agree, they disagree, or it cannot tell.
  type Compare = (Print, Print) -> Option<bool>

  ghost predicate AllPrinted(group: seq<Id>, prints: map<Id, Print>) {
    forall i :: 0 <= i < |group| ==> HasPrint(prints, group[i])
  }

  ghost predicate SomePair(group: seq<Id>, prints: map<Id, Print>, compare: Compare, verdict: Option<bool>)
    requires AllPrinted(group, prints)
  {
    exists i, j :: 0 <= i < j < |group| && compare(prints[group[i]], prints[group[j]]) == verdict
  }

  datatype Judgement = Direct | Sole | Unvalidated | Incomplete | Disagrees | Inconclusive | Agrees

  // How a ready group is judged.
  ghost function Judge(group: seq<Id>, prints: Prints, progressive: bool, compare: Compare): Judgement {
    if prints.None? then Direct
    else if |group| == 1 then Sole
    else if !progressive then Unvalidated
    else if !AllPrinted(group, prints.value) then Incomplete
    else if SomePair(group, prints.value, compare, Some(false)) then Disagrees
    else if SomePair(group, prints.value, compare, None) then Inconclusive
    else Agrees
  }

  function Marked(link: Link, j: Judgement): Link {
    match j
    case Direct => link.(complete := true)
    case Sole => link.(complete := true)
    case Agrees => link.(complete := true)
    case Unvalidated => link.(status := Pending, flags := {ValidationUnavailable})
    case Incomplete => link.(flags := {EvidencePending}, review := Some(Provisional))
    case Inconclusive => link.(flags := {EvidenceInconclusive}, review := Some(Provisional))
    case Disagrees => link.(flags := {Disagreement}, review := Some(NeedsRepair))
  }

  ghost function Weighed(order: seq<Id>, links: Links, prints: Prints, progressive: bool, compare: Compare): Links {
    map t | t in links ::
      if ReadyFor(links, t)
      then Marked(links[t], Judge(Group(order, links, ReadyTracks(links), links[t].analysis.value), prints, progressive, compare))
      else links[t]
  }

  method Verdicts(group: seq<Id>, prints: map<Id, Print>, compare: Compare) returns (verdicts: set<Option<bool>>)
    requires AllPrinted(group, prints)
    ensures forall v :: v in verdicts <==> SomePair(group, prints, compare, v)
  {
    verdicts := {};
    for i := 0 to |group|
      invariant forall v :: v in verdicts <==>
        exists k, l :: 0 <= k < i && k < l < |group| && compare(prints[group[k]], prints[group[l]]) == v
    {
      ghost var before := verdicts;
      for j := i + 1 to |group|
        invariant forall v :: v in verdicts <==>
          v in before || exists l :: i < l < j && compare(prints[group[i]], prints[group[l]]) == v
      {
        verdicts := verdicts + {compare(prints[group[i]], prints[group[j]])};
      }
    }
  }

  // The judgement of one group, by the loops that reach it.
  method JudgeGroup(group: seq<Id>, prints: Prints, progressive: bool, compare: Compare) returns (j: Judgement)
    ensures j == Judge(group, prints, progressive, compare)
  {
    if prints.None? { return Direct; }
    if |group| == 1 { return Sole; }
    if !progressive { return Unvalidated; }
    var missing := false;
    for i := 0 to |group|
      invariant missing <==> exists k :: 0 <= k < i && !HasPrint(prints.value, group[k])
    {
      missing := missing || !HasPrint(prints.value, group[i]);
    }
    if missing { return Incomplete; }
    var verdicts := Verdicts(group, prints.value, compare);
    j := if Some(false) in verdicts then Disagrees else if None in verdicts then Inconclusive else Agrees;
  }

  method ApplyProgressiveEvidence(order: seq<Id>, links: Links, prints: Prints, progressive: bool, compare: Compare)
    returns (r: Links)
    requires Covers(order, links)
    ensures r == Weighed(order, links, prints, progressive, compare)
  {
    hide Group, Judge, Marked, ReadyTracks;
    var candidates := Grouped(order, links, ReadyTracks(links));
    r := links;
    var rest := candidates.Keys;
    forall t, a {:trigger t in Group(order, links, ReadyTracks(links), a)}
      ensures t in Group(order, links, ReadyTracks(links), a) <==> ReadyFor(links, t) && links[t].analysis.value == a
    {
      ReadyGroup(order, links, a, t);
    }
    forall t | ReadyFor(links, t) ensures links[t].analysis.value in candidates {
      assert t in Group(order, links, ReadyTracks(links), links[t].analysis.value);
    }
    while rest != {}
      invariant rest <= candidates.Keys
      invariant r.Keys == links.Keys
      invariant forall t :: t in links ==>
        r[t] == (if ReadyFor(links, t) && links[t].analysis.value !in rest
                 then Marked(links[t], Judge(Group(order, links, ReadyTracks(links), links[t].analysis.value), prints, progressive, compare))
                 else links[t])
      decreases |rest|
    {
      var a :| a in rest;
      MembersDistinctReady(order, links, a);
      var j := JudgeGroup(candidates[a], prints, progressive, compare);
      assert forall t :: t in candidates[a] <==> ReadyFor(links, t) && links[t].analysis.value == a;
      assert forall i :: 0 <= i < |candidates[a]| ==> candidates[a][i] in candidates[a];
      r := MarkAll(r, candidates[a], j);
      rest := rest - {a};
    }
  }

  lemma ReadyGroup(order: seq<Id>, links: Links, a: Id, t: Id)
    requires Covers(order, links)
    ensures t in Group(order, links, ReadyTracks(links), a) <==> ReadyFor(links, t) && links[t].analysis.value == a
  {
    assert order[..|order|] == order;
    MembersAre(order, |order|, links, ReadyTracks(links), a, t);
  }

  lemma MembersDistinctReady(order: seq<Id>, links: Links, a: Id)
    requires Covers(order, links)
    ensures Distinct(Group(order, links, ReadyTracks(links), a))
  {
    MembersDistinct(order, |order|, links, ReadyTracks(links), a);
  }

  method MarkAll(links: Links, group: seq<Id>, j: Judgement) returns (r: Links)
    requires Distinct(group) && forall i :: 0 <= i < |group| ==> group[i] in links
    ensures r.Keys == links.Keys
    ensures forall t :: t in links ==> r[t] == if t in group then Marked(links[t], j) else links[t]
  {
    r := links;
    for i := 0 to |group|
      invariant r.Keys == links.Keys
      invariant forall t :: t in links ==> r[t] == if t in group[..i] then Marked(links[t], j) else links[t]
    {
      assert group[i] !in group[..i];
      r := r[group[i] := Marked(r[group[i]], j)];
    }
    assert group[..|group|] == group;
  }

  // ---------------------------------------------------------------- questionable groups

  // A track as the catalogue describes it: recording IDs, duration, normalized title and artist.
  datatype Detail = Detail(recordings: set<nat>, duration: Option<int>, title: nat, artist: Option<nat>)

  type Details = map<Id, Detail>

  function Tolerance(seconds: Option<int>): nat {
    if seconds.None? then 3000 else Max(0, seconds.value * 1000)
  }

  // Two occurrences carry recording IDs, and none is carried by all that carry any.
  ghost predicate RecordingConflict(ds: seq<Detail>) {
    (exists i, j :: 0 <= i < j < |ds| && ds[i].recordings != {} && ds[j].recordings != {})
    && !exists r :: SharedRecording(ds, |ds|, r)
  }

  ghost predicate SharedRecording(ds: seq<Detail>, n: nat, r: nat)
    requires n <= |ds|
  {
    forall i :: 0 <= i < n && ds[i].recordings != {} ==> r in ds[i].recordings
  }

  ghost predicate DurationConflict(ds: seq<Detail>, tolerance: nat) {
    exists i, j :: 0 <= i < |ds| && 0 <= j < |ds| && ds[i].duration.Some? && ds[j].duration.Some?
                && ds[i].duration.value - ds[j].duration.value > tolerance
  }

  ghost predicate TextConflict(ds: seq<Detail>) {
    (exists i, j :: 0 <= i < |ds| && 0 <= j < |ds| && ds[i].title != ds[j].title)
    && exists i, j :: 0 <= i < |ds| && 0 <= j < |ds| && ds[i].artist.Some? && ds[j].artist.Some?
                   && ds[i].artist != ds[j].artist
  }

  ghost predicate Questionable(ds: seq<Detail>, tolerance: nat) {
    RecordingConflict(ds) || DurationConflict(ds, tolerance) || TextConflict(ds)
  }

  lemma ManyMeansTwo(s: set<nat>)
    ensures |s| > 1 <==> exists x, y :: x in s && y in s && x != y
  {
    if |s| > 1 {
      var x :| x in s;
      assert |s - {x}| == |s| - 1;
      var y :| y in s - {x};
    }
    if x, y :| x in s && y in s && x != y {
      assert {x, y} <= s && |{x, y}| == 2;
      SubsetSize({x, y}, s);
    }
  }

  method RecordingsConflict(ds: seq<Detail>) returns (conflict: bool)
    ensures conflict <==> RecordingConflict(ds)
  {
    var count := 0;
    ghost var one := 0;
    var common: set<nat> := {};
    for i := 0 to |ds|
      invariant count == 0 ==> forall k :: 0 <= k < i ==> ds[k].recordings == {}
      invariant count >= 1 ==> 0 <= one < i && ds[one].recordings != {}
      invariant count >= 1 ==> forall r :: r in common <==> SharedRecording(ds, i, r)
      invariant count == 1 ==> forall k :: 0 <= k < i && k != one ==> ds[k].recordings == {}
      invariant count > 1 ==> exists k, l :: 0 <= k < l < i && ds[k].recordings != {} && ds[l].recordings != {}
    {
      if ds[i].recordings != {} {
        if count == 0 {
          common, one := ds[i].recordings, i;
        } else {
          assert ds[one].recordings != {};
          common := common * ds[i].recordings;
        }
        count := count + 1;
      }
    }
    conflict := count > 1 && common == {};
    if count > 1 {
      assert common == {} <==> !exists r :: SharedRecording(ds, |ds|, r);
    }
  }

  method DurationsConflict(ds: seq<Detail>, tolerance: nat) returns (conflict: bool)
    ensures conflict <==> DurationConflict(ds, tolerance)
  {
    var low, high: Option<int> := None, None;
    for i := 0 to |ds|
      invariant low.None? <==> forall k :: 0 <= k < i ==> ds[k].duration.None?
      invariant low.Some? <==> high.Some?
      invariant low.Some? ==>
        (exists k :: 0 <= k < i && ds[k].duration == low) && (exists k :: 0 <= k < i && ds[k].duration == high)
      invariant forall k :: 0 <= k < i && ds[k].duration.Some? ==> low.value <= ds[k].duration.value <= high.value
    {
      if ds[i].duration.Some? {
        var d := ds[i].duration.value;
        low := if low.Some? then Some(Min(low.value, d)) else Some(d);
        high := if high.Some? then Some(Max(high.value, d)) else Some(d);
      }
    }
    conflict := low.Some? && high.value - low.value > tolerance;
  }

  method TextsConflict(ds: seq<Detail>) returns (conflict: bool)
    ensures conflict <==> TextConflict(ds)
  {
    var titles := set i | 0 <= i < |ds| :: ds[i].title;
    var artists := set i | 0 <= i < |ds| && ds[i].artist.Some? :: ds[i].artist.value;
    ManyMeansTwo(titles);
    ManyMeansTwo(artists);
    conflict := |titles| > 1 && |artists| > 1;
    assert (exists x, y :: x in titles && y in titles && x != y)
      <==> exists i, j :: 0 <= i < |ds| && 0 <= j < |ds| && ds[i].title != ds[j].title by {
      if i, j :| 0 <= i < |ds| && 0 <= j < |ds| && ds[i].title != ds[j].title {
        assert ds[i].title in titles && ds[j].title in titles;
      }
    }
    assert (exists x, y :: x in artists && y in artists && x != y)
      <==> exists i, j :: 0 <= i < |ds| && 0 <= j < |ds| && ds[i].artist.Some? && ds[j].artist.Some?
                       && ds[i].artist != ds[j].artist by {
      if i, j :| 0 <= i < |ds| && 0 <= j < |ds| && ds[i].artist.Some? && ds[j].artist.Some? && ds[i].artist != ds[j].artist {
        assert ds[i].artist.value in artists && ds[j].artist.value in artists;
      }
    }
  }

  function Described(group: seq<Id>, details: Details): seq<Detail>
    requires forall i :: 0 <= i < |group| ==> group[i] in details
  {
    seq(|group|, i requires 0 <= i < |group| => details[group[i]])
  }

  lemma {:induction false} GroupWithin(order: seq<Id>, links: Links, chosen: set<Id>, a: Id)
    ensures forall i :: 0 <= i < |Group(order, links, chosen, a)| ==> Group(order, links, chosen, a)[i] in chosen
    ensures forall i :: 0 <= i < |Group(order, links, chosen, a)| ==> Group(order, links, chosen, a)[i] in order
    ensures forall i :: 0 <= i < |Group(order, links, chosen, a)| ==> LinksTo(links, Group(order, links, chosen, a)[i], a)
  {
    assert order[..|order|] == order;
    forall t | t in Group(order, links, chosen, a) ensures t in chosen && t in order && LinksTo(links, t, a) {
      MembersAre(order, |order|, links, chosen, a, t);
    }
  }

  // A described group of at least two occurrences that contradict each other.
  ghost predicate Suspect(order: seq<Id>, links: Links, details: Details, tolerance: nat, a: Id) {
    GroupWithin(order, links, details.Keys, a);
    var group := Group(order, links, details.Keys, a);
    |group| >= 2 && Questionable(Described(group, details), tolerance)
  }

  method SuspectAnalysisIds(order: seq<Id>, links: Links, details: Details, tolerance: nat) returns (suspects: set<Id>)
    ensures forall a :: a in suspects <==> Suspect(order, links, details, tolerance, a)
  {
    var grouped := Grouped(order, links, details.Keys);
    suspects := {};
    var rest := grouped.Keys;
    while rest != {}
      invariant rest <= grouped.Keys
      invariant forall a :: a in suspects <==> a in grouped && a !in rest && Suspect(order, links, details, tolerance, a)
      decreases |rest|
    {
      var a :| a in rest;
      GroupWithin(order, links, details.Keys, a);
      if |grouped[a]| >= 2 {
        var occurrences := Described(grouped[a], details);
        var recordings := RecordingsConflict(occurrences);
        var durations := DurationsConflict(occurrences, tolerance);
        var texts := TextsConflict(occurrences);
        if recordings || durations || texts {
          suspects := suspects + {a};
        }
      }
      rest := rest - {a};
    }
  }

  function Conflicted(link: Link): Link {
    link.(complete := false, flags := link.flags + {ProviderConflict},
          review := Some(if Disagreement in link.flags then NeedsRepair else NeedsReview))
  }

  method ApplyProviderConflicts(links: Links, suspects: set<Id>) returns (r: Links)
    ensures r.Keys == links.Keys
    ensures forall t :: t in links ==>
      r[t] == if links[t].analysis.Some? && links[t].analysis.value in suspects then Conflicted(links[t]) else links[t]
  {
    r := links;
    var rest := links.Keys;
    while rest != {}
      invariant rest <= links.Keys && r.Keys == links.Keys
      invariant forall t :: t in links ==>
        r[t] == if t !in rest && links[t].analysis.Some? && links[t].analysis.value in suspects
                then Conflicted(links[t]) else links[t]
      decreases |rest|
    {
      var t :| t in rest;
      if r[t].analysis.Some? && r[t].analysis.value in suspects {
        r := r[t := Conflicted(r[t])];
      }
      rest := rest - {t};
    }
  }

  // ---------------------------------------------------------------- the whole, with restricted reads

  // The links as they would be with every print and every track's details read.
  ghost predicate Qualified(order: seq<Id>, links: Links, prints: Prints, progressive: bool, compare: Compare,
                            details: Details, tolerance: nat, r: Links) {
    var weighed := Weighed(order, links, prints, progressive, compare);
    && r.Keys == links.Keys
    && forall t :: t in links ==>
         r[t] == if weighed[t].analysis.Some? && Suspect(order, weighed, details, tolerance, weighed[t].analysis.value)
                 then Conflicted(weighed[t]) else weighed[t]
  }

  // Weighing looks only at the prints of groups with more than one ready member.
  lemma {:induction false} OnlySharedPrints(order: seq<Id>, links: Links, progressive: bool, compare: Compare,
                                            all: map<Id, Print>, some: map<Id, Print>)
    requires Covers(order, links)
    requires progressive ==> forall t :: InShared(order, links, ReadyTracks(links), t) ==>
      (t in some <==> t in all) && (t in all ==> some[t] == all[t])
    ensures Weighed(order, links, Some(some), progressive, compare)
         == Weighed(order, links, Some(all), progressive, compare)
  {
    forall t | ReadyFor(links, t)
      ensures Judge(Group(order, links, ReadyTracks(links), links[t].analysis.value), Some(some), progressive, compare)
           == Judge(Group(order, links, ReadyTracks(links), links[t].analysis.value), Some(all), progressive, compare)
    {
      var a := links[t].analysis.value;
      var group := Group(order, links, ReadyTracks(links), a);
      InItsGroup(order, links, t);
      GroupWithin(order, links, ReadyTracks(links), a);
      if |group| > 1 && progressive {
        forall i | 0 <= i < |group|
          ensures (group[i] in some <==> group[i] in all) && (group[i] in all ==> some[group[i]] == all[group[i]])
        {
          assert InShared(order, links, ReadyTracks(links), group[i]);
        }
        SamePairs(group, all, some, compare);
      }
    }
  }

  lemma {:induction false} SamePairs(group: seq<Id>, all: map<Id, Print>, some: map<Id, Print>, compare: Compare)
    requires forall i :: 0 <= i < |group| ==>
      (group[i] in some <==> group[i] in all) && (group[i] in all ==> some[group[i]] == all[group[i]])
    ensures AllPrinted(group, some) <==> AllPrinted(group, all)
    ensures AllPrinted(group, all) ==>
      forall v :: SomePair(group, some, compare, v) <==> SomePair(group, all, compare, v)
  {
    if AllPrinted(group, all) {
      forall i | 0 <= i < |group| ensures HasPrint(some, group[i]) { assert HasPrint(all, group[i]); }
    }
    if AllPrinted(group, some) {
      forall i | 0 <= i < |group| ensures HasPrint(all, group[i]) { assert HasPrint(some, group[i]); }
      forall v ensures SomePair(group, some, compare, v) <==> SomePair(group, all, compare, v) {
        assert forall i :: 0 <= i < |group| ==> some[group[i]] == all[group[i]] by {
          assert forall i :: 0 <= i < |group| ==> HasPrint(all, group[i]);
        }
      }
    }
  }

  // Suspicion looks only at the details of groups with more than one member.
  lemma {:induction false} OnlySharedDetails(order: seq<Id>, links: Links, tolerance: nat, all: Details, some: Details, a: Id)
    requires Covers(order, links)
    requires forall t :: InShared(order, links, links.Keys, t) ==> t in all
    requires forall t :: t in some <==> InShared(order, links, links.Keys, t)
    requires forall t :: t in some ==> some[t] == all[t]
    ensures Suspect(order, links, some, tolerance, a) <==> Suspect(order, links, all, tolerance, a)
  {
    var whole := Group(order, links, links.Keys, a);
    var g, h := Group(order, links, some.Keys, a), Group(order, links, all.Keys, a);
    GroupWithin(order, links, links.Keys, a);
    GroupWithin(order, links, some.Keys, a);
    GroupWithin(order, links, all.Keys, a);
    if |whole| > 1 {
      forall t | t in order && LinksTo(links, t, a) ensures t in some && t in all {
        assert InShared(order, links, links.Keys, t);
      }
      assert order[..|order|] == order;
      MembersSame(order, |order|, links, links, some.Keys, links.Keys, a);
      MembersSame(order, |order|, links, links, all.Keys, links.Keys, a);
      assert Described(g, some) == Described(h, all);
    } else {
      MembersFewer(order, |order|, links, some.Keys, a);
      MembersFewer(order, |order|, links, all.Keys, a);
    }
  }

  lemma {:induction false} MembersFewer(order: seq<Id>, n: nat, links: Links, chosen: set<Id>, a: Id)
    requires n <= |order|
    ensures |Members(order, n, links, chosen, a)| <= |Members(order, n, links, links.Keys, a)|
  {
    if n > 0 { MembersFewer(order, n - 1, links, chosen, a); }
  }

  function ReadDetails(all: Details, tracks: set<Id>): Details {
    map t | t in tracks && t in all :: all[t]
  }

  function ReadPrints(v3: bool, mapped: bool, progressive: bool, table: map<Id, Print>, tracks: set<Id>): Prints {
    if !v3 || !mapped then None
    else if tracks != {} && progressive then Some(map t | t in tracks && t in table :: table[t])
    else Some(map[])
  }

  lemma {:induction false} WeighedKeepsAnalysis(order: seq<Id>, links: Links, prints: Prints, progressive: bool, compare: Compare)
    ensures var w := Weighed(order, links, prints, progressive, compare);
      w.Keys == links.Keys && forall t :: t in links ==> w[t].analysis == links[t].analysis
  {
  }

  lemma {:induction false} SharedSame(order: seq<Id>, links: Links, more: Links)
    requires links.Keys == more.Keys && forall t :: t in links ==> links[t].analysis == more[t].analysis
    ensures forall t :: InShared(order, links, links.Keys, t) <==> InShared(order, more, more.Keys, t)
  {
    forall a: Id ensures Group(order, links, links.Keys, a) == Group(order, more, more.Keys, a) {
      MembersSame(order, |order|, links, more, links.Keys, more.Keys, a);
    }
  }

  // Without a mapping no link is ready, so there is nothing to weigh.
  lemma UnmappedWeighed(order: seq<Id>, mapping: map<Id, Mapping>, compared: set<Id>, prints: Prints,
                        progressive: bool, compare: Compare)
    requires mapping == map[]
    ensures var links := InitialLinks(order, mapping, compared);
      Weighed(order, links, prints, progressive, compare) == links
  {
  }

  // Qualifies all links, reading prints and details of shared groups only. None: the catalogue
  // generation was replaced meanwhile, so a track that had to be described no longer is.
  method QualifyLinks(order: seq<Id>, mapping: map<Id, Mapping>, compared: set<Id>, v3: bool, progressive: bool,
                      table: map<Id, Print>, all: Details, tolerance: nat, compare: Compare) returns (r: Option<Links>)
    requires Distinct(order)
    ensures var links := InitialLinks(order, mapping, compared);
      r.Some? <==> forall t :: InShared(order, links, links.Keys, t) ==> t in all
    ensures var links := InitialLinks(order, mapping, compared);
      r.Some? ==> Qualified(order, links, if v3 then Some(table) else None, progressive, compare, all, tolerance, r.value)
  {
    hide Weighed, Suspect, InShared, Group, Mapped, Tolerance;
    var links := BuildLinks(order, mapping, compared);
    var shared := Shared(order, links, links.Keys);
    var sharedReady := Shared(order, links, ReadyTracks(links));
    var prints := ReadPrints(v3, mapping != map[], progressive, table, sharedReady);
    ghost var everything := if v3 then Some(table) else None;
    var weighed := ApplyProgressiveEvidence(order, links, prints, progressive, compare);
    if v3 && mapping != map[] {
      OnlySharedPrints(order, links, progressive, compare, table, prints.value);
    } else if v3 {
      UnmappedWeighed(order, mapping, compared, prints, progressive, compare);
      UnmappedWeighed(order, mapping, compared, everything, progressive, compare);
    }
    WeighedKeepsAnalysis(order, links, everything, progressive, compare);
    SharedSame(order, links, weighed);
    var details := ReadDetails(all, shared);
    if details.Keys != shared {
      return None;
    }
    forall a ensures Suspect(order, weighed, details, tolerance, a) <==> Suspect(order, weighed, all, tolerance, a) {
      OnlySharedDetails(order, weighed, tolerance, all, details, a);
    }
    var suspects := SuspectAnalysisIds(order, weighed, details, tolerance);
    var final := ApplyProviderConflicts(weighed, suspects);
    r := Some(final);
  }

  // ---------------------------------------------------------------- what a final link means

  ghost predicate GroupAgrees(order: seq<Id>, links: Links, t: Id, prints: Prints, progressive: bool, compare: Compare)
    requires ReadyFor(links, t)
  {
    var group := Group(order, links, ReadyTracks(links), links[t].analysis.value);
    prints.None?
    || |group| == 1
    || (progressive && AllPrinted(group, prints.value)
        && forall i, j :: 0 <= i < j < |group| ==> compare(prints.value[group[i]], prints.value[group[j]]) == Some(true))
  }

  ghost predicate InConflict(order: seq<Id>, links: Links, t: Id, details: Details, tolerance: nat)
    requires t in links
  {
    links[t].analysis.Some? && Suspect(order, links, details, tolerance, links[t].analysis.value)
  }

  lemma PairVerdict(group: seq<Id>, prints: map<Id, Print>, compare: Compare, i: nat, j: nat)
    requires i < j < |group| && AllPrinted(group, prints)
    ensures SomePair(group, prints, compare, compare(prints[group[i]], prints[group[j]]))
  {
  }

  lemma {:induction false} AgreesMeaning(order: seq<Id>, links: Links, t: Id, prints: Prints, progressive: bool, compare: Compare)
    requires ReadyFor(links, t)
    ensures GroupAgrees(order, links, t, prints, progressive, compare)
        <==> Judge(Group(order, links, ReadyTracks(links), links[t].analysis.value), prints, progressive, compare)
             in {Direct, Sole, Agrees}
  {
    var group := Group(order, links, ReadyTracks(links), links[t].analysis.value);
    if prints.Some? && AllPrinted(group, prints.value)
       && !SomePair(group, prints.value, compare, Some(false)) && !SomePair(group, prints.value, compare, None) {
      forall i, j | 0 <= i < j < |group| ensures compare(prints.value[group[i]], prints.value[group[j]]) == Some(true) {
        PairVerdict(group, prints.value, compare, i, j);
        var verdict := compare(prints.value[group[i]], prints.value[group[j]]);
        assert verdict != None && verdict != Some(false);
        assert verdict == Some(true) by { assert verdict.Some? && verdict.value; }
      }
    }
  }

  // Final evidence is complete exactly for ready links outside conflicting groups that are direct,
  // sole occurrences, or in a progressively checked group whose prints all agree.
  lemma {:induction false} CompleteExactlyWhen(order: seq<Id>, mapping: map<Id, Mapping>, compared: set<Id>, prints: Prints,
                                               progressive: bool, compare: Compare, details: Details, tolerance: nat,
                                               r: Links, t: Id)
    requires var links := InitialLinks(order, mapping, compared);
      Qualified(order, links, prints, progressive, compare, details, tolerance, r)
    requires t in order
    ensures var links := InitialLinks(order, mapping, compared);
      t in r && (r[t].complete <==> ReadyFor(links, t) && GroupAgrees(order, links, t, prints, progressive, compare)
                                    && !InConflict(order, links, t, details, tolerance))
    ensures t in r && (r[t].complete ==> r[t].flags == {} && r[t].status == Ready && r[t].review.None?)
  {
    var links := InitialLinks(order, mapping, compared);
    WeighedKeepsAnalysis(order, links, prints, progressive, compare);
    var weighed := Weighed(order, links, prints, progressive, compare);
    if links[t].analysis.Some? {
      SuspectSame(order, links, weighed, details, tolerance, links[t].analysis.value);
    }
    if ReadyFor(links, t) {
      AgreesMeaning(order, links, t, prints, progressive, compare);
    }
  }

  lemma {:induction false} SuspectSame(order: seq<Id>, links: Links, more: Links, details: Details, tolerance: nat, a: Id)
    requires links.Keys == more.Keys && forall t :: t in links ==> links[t].analysis == more[t].analysis
    ensures Suspect(order, links, details, tolerance, a) <==> Suspect(order, more, details, tolerance, a)
  {
    MembersSame(order, |order|, links, more, details.Keys, details.Keys, a);
  }

  predicate RequiresRepair(link: Link) {
    Disagreement in link.flags || ProviderConflict in link.flags
  }

  // A link needs repair exactly when its group contradicts itself, in the catalogue or in its
  // recordings. It stays usable all the same: only an unvalidated shared group is withheld.
  lemma {:induction false} RepairExactlyWhen(order: seq<Id>, mapping: map<Id, Mapping>, compared: set<Id>, prints: Prints,
                                             progressive: bool, compare: Compare, details: Details, tolerance: nat,
                                             r: Links, t: Id)
    requires var links := InitialLinks(order, mapping, compared);
      Qualified(order, links, prints, progressive, compare, details, tolerance, r)
    requires t in order
    ensures var links := InitialLinks(order, mapping, compared);
      var group := if links[t].analysis.Some? then Group(order, links, ReadyTracks(links), links[t].analysis.value) else [];
      t in r
      && (RequiresRepair(r[t]) <==>
            InConflict(order, links, t, details, tolerance)
            || (ReadyFor(links, t) && prints.Some? && |group| != 1 && progressive && AllPrinted(group, prints.value)
                && SomePair(group, prints.value, compare, Some(false))))
      && (r[t].status != links[t].status <==> ReadyFor(links, t) && prints.Some? && |group| != 1 && !progressive)
  {
    hide Group, Suspect, SomePair, AllPrinted;
    var links := InitialLinks(order, mapping, compared);
    WeighedKeepsAnalysis(order, links, prints, progressive, compare);
    if links[t].analysis.Some? {
      SuspectSame(order, links, Weighed(order, links, prints, progressive, compare), details, tolerance, links[t].analysis.value);
    }
  }

  // A group whose members' recordings have to agree.
  ghost predicate Shareable(group: seq<Id>, prints: Prints) { prints.Some? && |group| != 1 }

  // Every value of a final link, from the mapping, the analysis rows that exist and the evidence: it
  // keeps its analysis and tier, is ready when its analysis row exists and its group need not be
  // withheld, carries a flag for exactly what is wrong with its group, and asks for the review
  // that the flags call for.
  lemma {:induction false} FinalLink(order: seq<Id>, mapping: map<Id, Mapping>, compared: set<Id>, prints: Prints,
                                     progressive: bool, compare: Compare, details: Details, tolerance: nat,
                                     r: Links, t: Id)
    requires var links := InitialLinks(order, mapping, compared);
      Qualified(order, links, prints, progressive, compare, details, tolerance, r)
    requires t in order
    ensures var links := InitialLinks(order, mapping, compared);
      var mapped := t in mapping && mapping[t].analysis.Some? && mapping[t].analysis.value in compared;
      var group := if mapped then Group(order, links, ReadyTracks(links), mapping[t].analysis.value) else [];
      var shared := mapped && Shareable(group, prints);
      var checked := shared && progressive && AllPrinted(group, prints.value);
      t in links && t in r
      && var link := r[t];
         && link.analysis == (if t in mapping then mapping[t].analysis else None)
         && link.tier == (if t in mapping then mapping[t].tier else None)
         && (link.status == Missing <==> t !in mapping)
         && (link.status == Ready <==> mapped && !(shared && !progressive))
         && (ValidationUnavailable in link.flags <==> shared && !progressive)
         && (EvidencePending in link.flags <==> shared && progressive && !AllPrinted(group, prints.value))
         && (Disagreement in link.flags <==> checked && SomePair(group, prints.value, compare, Some(false)))
         && (EvidenceInconclusive in link.flags <==>
               checked && !SomePair(group, prints.value, compare, Some(false)) && SomePair(group, prints.value, compare, None))
         && (ProviderConflict in link.flags <==> InConflict(order, links, t, details, tolerance))
         && link.review == ReviewFor(link.flags)
  {
    hide Group, Suspect, SomePair, AllPrinted;
    var links := InitialLinks(order, mapping, compared);
    WeighedKeepsAnalysis(order, links, prints, progressive, compare);
    if links[t].analysis.Some? {
      SuspectSame(order, links, Weighed(order, links, prints, progressive, compare), details, tolerance, links[t].analysis.value);
    }
  }

  function ReviewFor(flags: set<Flag>): Option<Review> {
    if Disagreement in flags then Some(NeedsRepair)
    else if ProviderConflict in flags then Some(NeedsReview)
    else if EvidencePending in flags || EvidenceInconclusive in flags then Some(Provisional)
    else None
  }
}
