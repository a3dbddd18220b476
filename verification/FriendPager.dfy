// Fetching a friend's whole catalogue page by page, and the endpoint that serves the pages.

module FriendPager {
  import opened Prelude

  const PAGE_SIZE: nat := 250
  const MAX_REQUESTS: nat := 400
  const MAX_ALBUMS: nat := 100_000
  const MAX_RESPONSE_BYTES: nat := 6 * 1024 * 1024
  const TRANSFER_BUDGET: nat := 64 * 1024 * 1024
  const MAX_KEY_LENGTH: nat := 256
  const MAX_CURSOR_LENGTH: nat := 512

  // An album key is its rank in the database's text order; 0 stands for the empty text, which is
  // also the cursor of the first page. length is that of the key's text; parses tells whether the
  // fingerprint does.
  datatype Item = Item(key: nat, length: nat, parses: bool, body: nat)

  // What the client accepts of an album, besides that it has not come before.
  predicate Good(item: Item) { item.length <= MAX_KEY_LENGTH && item.parses }

  datatype Next = Last | Cursor(key: nat, length: nat) | NotText

  // What one request yields. albums is None when the answer's list is not a list.
  datatype Response =
    | Refused
    | TimedOut
    | Answer(capable: bool, instance: nat, albums: Option<seq<Item>>, next: Next, bytes: nat)

  // Any server: what it answers to the n-th request, which carries a cursor.
  type Server = (nat, nat) -> Response

  datatype Error = BadAnswer | BadInstance | BadPage | BadAlbum | TooManyAlbums | NoProgress | TooManyPages

  // The client's variables between two requests; instance 0 is not known yet.
  datatype State = State(cursor: nat, albums: seq<Item>, instance: nat, cursors: set<nat>, keys: set<nat>, budget: int)

  const START := State(0, [], 0, {}, {}, TRANSFER_BUDGET)

  // ---------------------------------------------------------------- one page

  // Accepts the first n items of a page.
  function AddItems(s: State, page: seq<Item>, n: nat): Result<State, Error>
    requires n <= |page|
  {
    if n == 0 then Ok(s)
    else
      match AddItems(s, page, n - 1)
      case Err(e) => Err(e)
      case Ok(t) =>
        var item := page[n - 1];
        if item.key == 0 || item.key in t.keys || !Good(item) then Err(BadAlbum)
        else if |t.albums| + 1 > MAX_ALBUMS then Err(TooManyAlbums)
        else Ok(t.(albums := t.albums + [item], keys := t.keys + {item.key}))
  }

  datatype Turn = Failed(error: Error) | Finished(state: State) | Onward(state: State)

  function OnAnswer(s: State, a: Response): Turn {
    if !a.Answer? || a.bytes > MAX_RESPONSE_BYTES || a.bytes > s.budget || !a.capable then Failed(BadAnswer)
    else if a.instance == 0 || (s.instance != 0 && a.instance != s.instance) then Failed(BadInstance)
    else if a.albums.None? || |a.albums.value| > PAGE_SIZE then Failed(BadPage)
    else
      var page := a.albums.value;
      match AddItems(s.(instance := a.instance, budget := s.budget - a.bytes), page, |page|)
      case Err(e) => Failed(e)
      case Ok(t) =>
        if a.next.Last? || (a.next.Cursor? && a.next.key == 0) then Finished(t)
        else if a.next.NotText? || a.next.length > MAX_CURSOR_LENGTH || a.next.key in t.cursors || page == []
        then Failed(NoProgress)
        else Onward(t.(cursor := a.next.key, cursors := t.cursors + {a.next.key}))
  }

  method AcceptPage(s: State, page: seq<Item>) returns (r: Result<State, Error>)
    ensures r == AddItems(s, page, |page|)
  {
    var t := s;
    for i := 0 to |page|
      invariant AddItems(s, page, i) == Ok(t)
    {
      var item := page[i];
      if item.key == 0 || item.key in t.keys || !Good(item) {
        StopsAt(s, page, i, |page|, BadAlbum);
        return Err(BadAlbum);
      }
      t := t.(keys := t.keys + {item.key}, albums := t.albums + [item]);
      if |t.albums| > MAX_ALBUMS {
        StopsAt(s, page, i, |page|, TooManyAlbums);
        return Err(TooManyAlbums);
      }
    }
    r := Ok(t);
  }

  lemma {:induction false} StopsAt(s: State, page: seq<Item>, i: nat, n: nat, e: Error)
    requires i < n <= |page| && AddItems(s, page, i + 1) == Err(e)
    ensures AddItems(s, page, n) == Err(e)
  {
    if i + 1 < n { StopsAt(s, page, i, n - 1, e); }
  }

  // ---------------------------------------------------------------- all pages

  // The fetch from its n-th request on.
  function From(server: Server, s: State, n: nat): Result<(nat, seq<Item>), Error>
    requires n <= MAX_REQUESTS
    decreases MAX_REQUESTS - n
  {
    if n == MAX_REQUESTS then Err(TooManyPages)
    else
      match OnAnswer(s, server(n, s.cursor))
      case Failed(e) => Err(e)
      case Finished(t) => Ok((t.instance, t.albums))
      case Onward(t) => From(server, t, n + 1)
  }

  method FetchRemoteCatalog(server: Server) returns (r: Result<(nat, seq<Item>), Error>, requests: nat)
    ensures r == From(server, START, 0)
    ensures requests <= MAX_REQUESTS
  {
    hide OnAnswer;
    var s := START;
    requests := 0;
    while requests < MAX_REQUESTS
      invariant requests <= MAX_REQUESTS
      invariant From(server, START, 0) == From(server, s, requests)
    {
      var answer := server(requests, s.cursor);
      requests := requests + 1;
      var turn := TakeAnswer(s, answer);
      match turn
      case Failed(e) => return Err(e), requests;
      case Finished(t) => return Ok((t.instance, t.albums)), requests;
      case Onward(t) => s := t;
    }
    r := Err(TooManyPages);
  }

  method TakeAnswer(s: State, a: Response) returns (turn: Turn)
    ensures turn == OnAnswer(s, a)
  {
    if !a.Answer? || a.bytes > MAX_RESPONSE_BYTES || a.bytes > s.budget || !a.capable {
      return Failed(BadAnswer);
    }
    if a.instance == 0 || (s.instance != 0 && a.instance != s.instance) {
      return Failed(BadInstance);
    }
    if a.albums.None? || |a.albums.value| > PAGE_SIZE {
      return Failed(BadPage);
    }
    var page := a.albums.value;
    var r := AcceptPage(s.(instance := a.instance, budget := s.budget - a.bytes), page);
    if r.Err? {
      return Failed(r.error);
    }
    var t := r.value;
    if a.next.Last? || (a.next.Cursor? && a.next.key == 0) {
      return Finished(t);
    }
    if a.next.NotText? || a.next.length > MAX_CURSOR_LENGTH || a.next.key in t.cursors || page == [] {
      return Failed(NoProgress);
    }
    turn := Onward(t.(cursor := a.next.key, cursors := t.cursors + {a.next.key}));
  }

  // ---------------------------------------------------------------- against any server

  // No repeated, empty or malformed album, and not too many.
  ghost predicate Acceptable(albums: seq<Item>) {
    && (forall i, j :: 0 <= i < j < |albums| ==> albums[i].key != albums[j].key)
    && (forall i :: 0 <= i < |albums| ==> Good(albums[i]) && albums[i].key != 0)
    && |albums| <= MAX_ALBUMS
  }

  ghost predicate Collected(s: State) {
    Acceptable(s.albums) && forall k :: k in s.keys <==> exists i :: 0 <= i < |s.albums| && s.albums[i].key == k
  }

  lemma {:induction false} AddKeepsCollected(s: State, page: seq<Item>, n: nat)
    requires n <= |page| && Collected(s) && AddItems(s, page, n).Ok?
    ensures Collected(AddItems(s, page, n).value)
    ensures AddItems(s, page, n).value.instance == s.instance
  {
    if n > 0 {
      AddKeepsCollected(s, page, n - 1);
      AddOne(AddItems(s, page, n - 1).value, page[n - 1]);
    }
  }

  lemma AddOne(t: State, item: Item)
    requires Collected(t) && item.key != 0 && item.key !in t.keys && Good(item) && |t.albums| < MAX_ALBUMS
    ensures Collected(t.(albums := t.albums + [item], keys := t.keys + {item.key}))
  {
    var u := t.(albums := t.albums + [item], keys := t.keys + {item.key});
    forall k ensures k in u.keys <==> exists i :: 0 <= i < |u.albums| && u.albums[i].key == k {
      if k == item.key { assert u.albums[|t.albums|].key == k; }
      if i :| 0 <= i < |t.albums| && t.albums[i].key == k { assert u.albums[i].key == k; }
    }
  }

  // Against any server the fetch makes at most 400 requests, and what it returns is acceptable
  // and comes from one named instance.
  lemma {:induction false} AnyServer(server: Server, s: State, n: nat)
    requires n <= MAX_REQUESTS && Collected(s)
    ensures From(server, s, n).Ok? ==> From(server, s, n).value.0 != 0 && Acceptable(From(server, s, n).value.1)
    decreases MAX_REQUESTS - n
  {
    hide Collected, Acceptable;
    if n < MAX_REQUESTS {
      var turn := OnAnswer(s, server(n, s.cursor));
      TurnKeepsCollected(s, server(n, s.cursor));
      if turn.Onward? { AnyServer(server, turn.state, n + 1); }
    }
  }

  lemma {:induction false} TurnKeepsCollected(s: State, a: Response)
    requires Collected(s)
    ensures !OnAnswer(s, a).Failed? ==>
      Collected(OnAnswer(s, a).state) && Acceptable(OnAnswer(s, a).state.albums) && OnAnswer(s, a).state.instance != 0
  {
    if !OnAnswer(s, a).Failed? {
      AddKeepsCollected(s.(instance := a.instance, budget := s.budget - a.bytes), a.albums.value, |a.albums.value|);
    }
  }

  // ---------------------------------------------------------------- exactly what is fetched

  // An answer the client takes as a page of the given instance.
  predicate GoodPage(a: Response, instance: nat) {
    a.Answer? && a.capable && a.bytes <= 6 * 1024 * 1024 && a.instance == instance && instance != 0
    && a.albums.Some? && |a.albums.value| <= 250
  }

  predicate Leads(a: Response, cursor: nat) {
    a.Answer? && a.next.Cursor? && a.next.key == cursor && cursor != 0 && a.next.length <= 512
    && a.albums.Some? && a.albums.value != []
  }

  predicate Ends(a: Response) { a.Answer? && (a.next == Last || (a.next.Cursor? && a.next.key == 0)) }

  // The answers to the requests with these cursors, from the n-th on, form one catalogue.
  ghost predicate Serves(server: Server, n: nat, cursors: seq<nat>, instance: nat) {
    && cursors != []
    && (forall i :: 0 <= i < |cursors| ==> GoodPage(server(n + i, cursors[i]), instance))
    && (forall i :: 0 <= i < |cursors| - 1 ==> Leads(server(n + i, cursors[i]), cursors[i + 1]))
    && Ends(server(n + |cursors| - 1, cursors[|cursors| - 1]))
  }

  function Page(a: Response): seq<Item> { if a.Answer? && a.albums.Some? then a.albums.value else [] }

  ghost function Pages(server: Server, n: nat, cursors: seq<nat>): seq<Item>
    decreases |cursors|
  {
    if cursors == [] then [] else Page(server(n, cursors[0])) + Pages(server, n + 1, cursors[1..])
  }

  ghost function Bytes(server: Server, n: nat, cursors: seq<nat>): nat
    decreases |cursors|
  {
    if cursors == [] then 0
    else (if server(n, cursors[0]).Answer? then server(n, cursors[0]).bytes else 0) + Bytes(server, n + 1, cursors[1..])
  }

  // Items are taken exactly when they can all be had besides what was collected.
  lemma {:induction false} AddExactly(s: State, page: seq<Item>, n: nat)
    requires Collected(s) && n <= |page|
    ensures AddItems(s, page, n).Ok? <==> Acceptable(s.albums + page[..n])
    ensures AddItems(s, page, n).Ok? ==>
      var t := AddItems(s, page, n).value;
      Collected(t) && t == s.(albums := s.albums + page[..n], keys := t.keys)
  {
    if n == 0 {
      assert s.albums + page[..0] == s.albums;
    } else {
      AddExactly(s, page, n - 1);
      AddKeepsExactly(s, page, n);
    }
  }

  lemma {:induction false} AddKeepsExactly(s: State, page: seq<Item>, n: nat)
    requires Collected(s) && 0 < n <= |page|
    requires var r := AddItems(s, page, n - 1);
      && (r.Ok? <==> Acceptable(s.albums + page[..n - 1]))
      && (r.Ok? ==> Collected(r.value) && r.value == s.(albums := s.albums + page[..n - 1], keys := r.value.keys))
    ensures AddItems(s, page, n).Ok? <==> Acceptable(s.albums + page[..n])
    ensures AddItems(s, page, n).Ok? ==>
      var t := AddItems(s, page, n).value;
      Collected(t) && t == s.(albums := s.albums + page[..n], keys := t.keys)
  {
    var before, after := s.albums + page[..n - 1], s.albums + page[..n];
    var item := page[n - 1];
    assert after == before + [item];
    if Acceptable(after) {
      assert Acceptable(before) by { FewerAcceptable(before, item); }
      var t := AddItems(s, page, n - 1).value;
      LastIsNew(before, item);
      AddOne(t, item);
    }
    if AddItems(s, page, n).Ok? { AddOne(AddItems(s, page, n - 1).value, item); }
  }

  lemma FewerAcceptable(albums: seq<Item>, item: Item)
    requires Acceptable(albums + [item])
    ensures Acceptable(albums)
  {
    var more := albums + [item];
    assert forall i :: 0 <= i < |albums| ==> more[i] == albums[i];
  }

  lemma LastIsNew(albums: seq<Item>, item: Item)
    requires Acceptable(albums + [item])
    ensures Good(item) && item.key != 0 && |albums| < MAX_ALBUMS
    ensures forall i :: 0 <= i < |albums| ==> albums[i].key != item.key
  {
    var more := albums + [item];
    assert more[|albums|] == item;
    assert forall i :: 0 <= i < |albums| ==> more[i] == albums[i];
  }

  // Whether an answer can be taken in a state.
  predicate Takes(s: State, a: Response) {
    a.Answer? && GoodPage(a, a.instance) && a.bytes <= s.budget && (s.instance == 0 || s.instance == a.instance)
  }

  // One turn, in terms of what was collected.
  lemma {:induction false} TurnExactly(s: State, a: Response)
    requires Collected(s)
    ensures var turn := OnAnswer(s, a);
      var ok := Takes(s, a) && Acceptable(s.albums + Page(a));
      && (turn.Finished? <==> ok && Ends(a))
      && (turn.Onward? <==> ok && !Ends(a) && a.next.Cursor? && Leads(a, a.next.key) && a.next.key !in s.cursors)
      && (!turn.Failed? ==>
            && Collected(turn.state) && turn.state.albums == s.albums + Page(a)
            && turn.state.instance == a.instance && turn.state.budget == s.budget - a.bytes)
      && (turn.Onward? ==> turn.state.cursor == a.next.key && turn.state.cursors == s.cursors + {a.next.key})
  {
    hide Collected, Acceptable, AddItems;
    if Takes(s, a) {
      var page := a.albums.value;
      var t := s.(instance := a.instance, budget := s.budget - a.bytes);
      assert Collected(t) by { CollectedSame(s, t); }
      AddExactly(t, page, |page|);
      assert page[..|page|] == page;
      if AddItems(t, page, |page|).Ok? && a.next.Cursor? {
        var u := AddItems(t, page, |page|).value;
        CollectedSame(u, u.(cursor := a.next.key, cursors := u.cursors + {a.next.key}));
      }
    }
  }

  lemma CollectedSame(s: State, t: State)
    requires Collected(s) && t.albums == s.albums && t.keys == s.keys
    ensures Collected(t)
  {
  }

  // The requests still to come from a state: new cursors, and room for what they bring.
  ghost predicate Completes(server: Server, s: State, n: nat, cursors: seq<nat>, instance: nat, albums: seq<Item>) {
    && Serves(server, n, cursors, instance) && cursors[0] == s.cursor && n + |cursors| <= MAX_REQUESTS
    && (s.instance == 0 || s.instance == instance)
    && (forall i, j :: 1 <= i < j < |cursors| ==> cursors[i] != cursors[j])
    && (forall i :: 1 <= i < |cursors| ==> cursors[i] !in s.cursors)
    && Bytes(server, n, cursors) <= s.budget
    && albums == s.albums + Pages(server, n, cursors) && Acceptable(albums)
  }

  lemma {:induction false} OneMore(server: Server, n: nat, cursors: seq<nat>, instance: nat)
    requires |cursors| > 1
    ensures Serves(server, n, cursors, instance) <==>
      GoodPage(server(n, cursors[0]), instance) && Leads(server(n, cursors[0]), cursors[1])
      && Serves(server, n + 1, cursors[1..], instance)
  {
    var rest := cursors[1..];
    forall i | 0 <= i < |rest| ensures server(n + 1 + i, rest[i]) == server(n + (i + 1), cursors[i + 1]) {
    }
    if Serves(server, n + 1, rest, instance) && GoodPage(server(n, cursors[0]), instance)
       && Leads(server(n, cursors[0]), cursors[1]) {
      forall i | 0 <= i < |cursors| ensures GoodPage(server(n + i, cursors[i]), instance) {
        if i > 0 { assert GoodPage(server(n + 1 + (i - 1), rest[i - 1]), instance); }
      }
      forall i | 0 <= i < |cursors| - 1 ensures Leads(server(n + i, cursors[i]), cursors[i + 1]) {
        if i > 0 { assert Leads(server(n + 1 + (i - 1), rest[i - 1]), rest[i]); }
      }
    }
    if Serves(server, n, cursors, instance) {
      forall i | 0 <= i < |rest| ensures GoodPage(server(n + 1 + i, rest[i]), instance) {
        assert GoodPage(server(n + (i + 1), cursors[i + 1]), instance);
      }
      forall i | 0 <= i < |rest| - 1 ensures Leads(server(n + 1 + i, rest[i]), rest[i + 1]) {
        assert Leads(server(n + (i + 1), cursors[i + 1]), cursors[i + 2]);
      }
    }
  }

  lemma {:induction false} OneOnly(server: Server, n: nat, cursor: nat, instance: nat)
    ensures Serves(server, n, [cursor], instance) <==> GoodPage(server(n, cursor), instance) && Ends(server(n, cursor))
    ensures Pages(server, n, [cursor]) == Page(server(n, cursor))
    ensures server(n, cursor).Answer? ==> Bytes(server, n, [cursor]) == server(n, cursor).bytes
  {
    assert [cursor][1..] == [];
    assert server(n + 0, [cursor][0]) == server(n, cursor);
  }

  // What is fetched was served by such requests.
  lemma {:induction false} FetchedIsServed(server: Server, s: State, n: nat, instance: nat, albums: seq<Item>)
    requires n <= MAX_REQUESTS && Collected(s) && From(server, s, n) == Ok((instance, albums))
    ensures exists cursors :: Completes(server, s, n, cursors, instance, albums)
    decreases MAX_REQUESTS - n
  {
    hide Collected, Acceptable, OnAnswer, Serves, Pages, Bytes;
    var a := server(n, s.cursor);
    TurnExactly(s, a);
    var turn := OnAnswer(s, a);
    if turn.Finished? {
      OneOnly(server, n, s.cursor, instance);
      assert Completes(server, s, n, [s.cursor], instance, albums);
    } else {
      FetchedIsServed(server, turn.state, n + 1, instance, albums);
      var rest :| Completes(server, turn.state, n + 1, rest, instance, albums);
      Prepend(server, s, n, turn.state, rest, instance, albums);
    }
  }

  lemma {:induction false} Prepend(server: Server, s: State, n: nat, t: State, rest: seq<nat>, instance: nat, albums: seq<Item>)
    requires Collected(s) && n < MAX_REQUESTS && OnAnswer(s, server(n, s.cursor)) == Onward(t)
    requires Completes(server, t, n + 1, rest, instance, albums)
    ensures Completes(server, s, n, [s.cursor] + rest, instance, albums)
  {
    hide Collected, Acceptable, OnAnswer, Pages, Bytes;
    var a := server(n, s.cursor);
    TurnExactly(s, a);
    var cursors := [s.cursor] + rest;
    assert cursors[1..] == rest;
    OneMore(server, n, cursors, instance);
    FirstPage(server, n, cursors);
    ConcatAssociative(s.albums, Page(a), Pages(server, n + 1, rest));
    assert a.instance == instance by { FirstGood(server, n + 1, rest, instance); }
  }

  lemma FirstGood(server: Server, n: nat, cursors: seq<nat>, instance: nat)
    requires Serves(server, n, cursors, instance)
    ensures instance != 0 && GoodPage(server(n, cursors[0]), instance)
  {
    assert server(n + 0, cursors[0]) == server(n, cursors[0]);
  }

  lemma FirstPage(server: Server, n: nat, cursors: seq<nat>)
    requires cursors != []
    ensures Pages(server, n, cursors) == Page(server(n, cursors[0])) + Pages(server, n + 1, cursors[1..])
    ensures server(n, cursors[0]).Answer? ==>
      Bytes(server, n, cursors) == server(n, cursors[0]).bytes + Bytes(server, n + 1, cursors[1..])
  {
  }

  lemma {:induction false} PrefixAcceptable(a: seq<Item>, b: seq<Item>)
    requires Acceptable(a + b)
    ensures Acceptable(a)
  {
    assert forall i :: 0 <= i < |a| ==> (a + b)[i] == a[i];
  }

  // What is served by such requests is fetched.
  lemma {:induction false} ServedIsFetched(server: Server, s: State, n: nat, cursors: seq<nat>, instance: nat, albums: seq<Item>)
    requires n <= MAX_REQUESTS && Collected(s) && Completes(server, s, n, cursors, instance, albums)
    ensures From(server, s, n) == Ok((instance, albums))
    decreases |cursors|
  {
    hide Collected, Acceptable, OnAnswer, Serves, Pages, Bytes;
    assert cursors != [] && n < MAX_REQUESTS by { ServesSomething(server, n, cursors, instance); }
    var a := server(n, s.cursor);
    FirstGood(server, n, cursors, instance);
    FirstPage(server, n, cursors);
    var rest := cursors[1..];
    ConcatAssociative(s.albums, Page(a), Pages(server, n + 1, rest));
    PrefixAcceptable(s.albums + Page(a), Pages(server, n + 1, rest));
    TurnExactly(s, a);
    if |cursors| == 1 {
      assert cursors == [s.cursor];
      OneOnly(server, n, s.cursor, instance);
    } else {
      OneMore(server, n, cursors, instance);
      var t := OnAnswer(s, a).state;
      assert rest[0] == cursors[1];
      ServedIsFetched(server, t, n + 1, rest, instance, albums);
    }
  }

  lemma ServesSomething(server: Server, n: nat, cursors: seq<nat>, instance: nat)
    requires Serves(server, n, cursors, instance)
    ensures cursors != []
  {
  }

  // A chain of at most 400 requests, no cursor twice, that is answered by pages of one instance,
  // within the sizes allowed for one answer and for all, with no album repeated, malformed or too many.
  ghost predicate Chain(server: Server, cursors: seq<nat>, instance: nat) {
    && Serves(server, 0, cursors, instance) && cursors[0] == 0 && |cursors| <= 400
    && (forall i, j :: 0 <= i < j < |cursors| ==> cursors[i] != cursors[j])
    && Bytes(server, 0, cursors) <= 64 * 1024 * 1024
    && Acceptable(Pages(server, 0, cursors))
  }

  // A catalogue is fetched exactly when there is such a chain, and it is then its pages, in order.
  lemma {:induction false} FetchedExactlyWhen(server: Server, instance: nat, albums: seq<Item>)
    ensures From(server, START, 0) == Ok((instance, albums)) <==>
      exists cursors :: Chain(server, cursors, instance) && albums == Pages(server, 0, cursors)
  {
    hide From, Acceptable, Serves, Pages, Bytes;
    assert Collected(START) by { NothingCollected(); }
    if From(server, START, 0) == Ok((instance, albums)) {
      FetchedIsServed(server, START, 0, instance, albums);
      var cursors :| Completes(server, START, 0, cursors, instance, albums);
      LaterCursors(server, 0, cursors, instance);
      assert START.albums + Pages(server, 0, cursors) == Pages(server, 0, cursors);
      assert Chain(server, cursors, instance);
    }
    if cursors :| Chain(server, cursors, instance) && albums == Pages(server, 0, cursors) {
      assert START.albums + Pages(server, 0, cursors) == Pages(server, 0, cursors);
      ServedIsFetched(server, START, 0, cursors, instance, albums);
    }
  }

  lemma NothingCollected()
    ensures Collected(START)
  {
  }

  lemma LaterCursors(server: Server, n: nat, cursors: seq<nat>, instance: nat)
    requires Serves(server, n, cursors, instance)
    ensures cursors != [] && forall i :: 1 <= i < |cursors| ==> cursors[i] != 0
  {
    forall i | 1 <= i < |cursors| ensures cursors[i] != 0 {
      assert Leads(server(n + (i - 1), cursors[i - 1]), cursors[(i - 1) + 1]);
    }
  }

  // ---------------------------------------------------------------- the visible endpoint

  // The keys after a cursor, in order.
  function Above(keys: set<nat>, cursor: nat): set<nat> { set k | k in keys && k > cursor }

  function KeysAfter(albums: map<nat, Item>, cursor: nat): seq<nat> {
    Ascending(Above(albums.Keys, cursor))
  }

  function Rows(albums: map<nat, Item>, keys: seq<nat>): seq<Item>
    requires forall k :: k in keys ==> k in albums
  {
    seq(|keys|, i requires 0 <= i < |keys| => albums[keys[i]])
  }

  // GET /api/fingerprints on an unchanging catalogue.
  function Fingerprints(albums: map<nat, Item>, cursor: nat, limit: int, instance: nat, bytes: nat): Response
  {
    var size := Clamp(1, limit, PAGE_SIZE);
    var keys := KeysAfter(albums, cursor);
    assert forall k :: k in keys ==> k in albums;
    var page := if |keys| > size then keys[..size] else keys;
    assert forall k :: k in page ==> k in keys;
    Answer(true, instance, Some(Rows(albums, page)),
           if |keys| > size then Cursor(page[size - 1], albums[page[size - 1]].length) else Last, bytes)
  }

  // Rows are stored under their own key, which is not the empty text.
  ghost predicate Servable(albums: map<nat, Item>) {
    forall k :: k in albums ==> albums[k].key == k && k > 0
  }

  ghost function Total(bytes: nat -> nat, n: nat): nat {
    if n == 0 then 0 else Total(bytes, n - 1) + bytes(n - 1)
  }

  ghost predicate WithinBudget(bytes: nat -> nat) {
    (forall n :: bytes(n) <= MAX_RESPONSE_BYTES) && forall n: nat :: n <= MAX_REQUESTS ==> Total(bytes, n) <= TRANSFER_BUDGET
  }

  function All(albums: map<nat, Item>): seq<Item> {
    var keys := Ascending(albums.Keys);
    assert forall k :: k in keys ==> k in albums;
    Rows(albums, keys)
  }

  function Endpoint(albums: map<nat, Item>, instance: nat, bytes: nat -> nat): Server {
    (n: nat, cursor: nat) => Fingerprints(albums, cursor, PAGE_SIZE, instance, bytes(n))
  }

  lemma {:induction false} AfterNth(keyset: set<nat>, keys: seq<nat>, n: nat)
    requires keys == Ascending(keyset) && n <= |keys| && forall k :: k in keyset ==> k > 0
    ensures Ascending(Above(keyset, if n == 0 then 0 else keys[n - 1])) == keys[n..]
  {
    hide Ascending;
    AscendingIncreases(keyset);
    if n == 0 {
      assert Above(keyset, 0) == keyset;
    } else {
      IncreasingTail(keys, n, Above(keyset, keys[n - 1]));
    }
  }

  function FirstKeys(page: seq<Item>, n: nat): set<nat>
    requires n <= |page|
  {
    if n == 0 then {} else FirstKeys(page, n - 1) + {page[n - 1].key}
  }

  lemma {:induction false} InFirstKeys(page: seq<Item>, n: nat, k: nat)
    requires n <= |page|
    ensures k in FirstKeys(page, n) <==> exists i :: 0 <= i < n && page[i].key == k
  {
    if n > 0 { InFirstKeys(page, n - 1, k); }
  }

  // Items with new keys are all taken.
  lemma {:induction false} AddFresh(s: State, page: seq<Item>, n: nat)
    requires n <= |page| && |s.albums| + |page| <= MAX_ALBUMS
    requires forall i :: 0 <= i < |page| ==> Good(page[i]) && page[i].key != 0 && page[i].key !in s.keys
    requires forall i, j :: 0 <= i < j < |page| ==> page[i].key != page[j].key
    ensures AddItems(s, page, n) == Ok(s.(albums := s.albums + page[..n], keys := s.keys + FirstKeys(page, n)))
  {
    if n == 0 {
      assert s.albums + page[..0] == s.albums && s.keys + FirstKeys(page, 0) == s.keys;
    } else {
      AddFresh(s, page, n - 1);
      InFirstKeys(page, n - 1, page[n - 1].key);
      assert (s.albums + page[..n - 1]) + [page[n - 1]] == s.albums + page[..n];
      assert (s.keys + FirstKeys(page, n - 1)) + {page[n - 1].key} == s.keys + FirstKeys(page, n);
    }
  }

  // A page of new items is taken whole, and its cursor is new.
  lemma {:induction false} TakenWhole(s: State, page: seq<Item>, next: Next, instance: nat, bytes: nat)
    requires bytes <= MAX_RESPONSE_BYTES && bytes <= s.budget && instance != 0 && (s.instance == 0 || s.instance == instance)
    requires |page| <= PAGE_SIZE && |s.albums| + |page| <= MAX_ALBUMS
    requires forall i :: 0 <= i < |page| ==> Good(page[i]) && page[i].key != 0 && page[i].key !in s.keys
    requires forall i, j :: 0 <= i < j < |page| ==> page[i].key != page[j].key
    requires next.Last?
          || (next.Cursor? && next.key != 0 && next.length <= MAX_CURSOR_LENGTH && next.key !in s.cursors && page != [])
    ensures var t := s.(instance := instance, budget := s.budget - bytes, albums := s.albums + page,
                        keys := s.keys + FirstKeys(page, |page|));
      OnAnswer(s, Answer(true, instance, Some(page), next, bytes))
      == if next.Last? then Finished(t) else Onward(t.(cursor := next.key, cursors := t.cursors + {next.key}))
  {
    AddFresh(s.(instance := instance, budget := s.budget - bytes), page, |page|);
    assert page[..|page|] == page;
    hide AddItems, FirstKeys;
  }

  // The client after its n-th request to the endpoint.
  ghost predicate Reached(s: State, keys: seq<nat>, albums: map<nat, Item>, instance: nat, bytes: nat -> nat, n: nat)
    requires forall k :: k in keys ==> k in albums
  {
    var done := n * PAGE_SIZE;
    && (n > 0 ==> done < |keys|)
    && s.cursor == (if n == 0 then 0 else keys[done - 1])
    && s.albums == Rows(albums, keys)[..done]
    && s.instance == (if n == 0 then 0 else instance)
    && (forall c :: c in s.cursors ==> c <= s.cursor)
    && (forall k :: k in s.keys ==> k <= s.cursor)
    && s.budget == TRANSFER_BUDGET - Total(bytes, n)
  }

  // The endpoint's answer to a client that has the first done keys.
  lemma {:induction false} EndpointPage(albums: map<nat, Item>, keys: seq<nat>, done: nat, instance: nat, bytes: nat)
    requires Servable(albums) && keys == Ascending(albums.Keys) && done <= |keys|
    ensures forall k :: k in keys ==> k in albums
    ensures var cursor := if done == 0 then 0 else keys[done - 1];
      var left := |keys| - done;
      var page := keys[done..done + if left > PAGE_SIZE then PAGE_SIZE else left];
      Fingerprints(albums, cursor, PAGE_SIZE, instance, bytes)
      == Answer(true, instance, Some(Rows(albums, page)),
                if left > PAGE_SIZE then Cursor(page[PAGE_SIZE - 1], albums[page[PAGE_SIZE - 1]].length) else Last, bytes)
  {
    hide Ascending;
    AfterNth(albums.Keys, keys, done);
    var rest := keys[done..];
    assert |rest| > PAGE_SIZE ==> rest[..PAGE_SIZE] == keys[done..done + PAGE_SIZE];
    assert rest == keys[done..done + |rest|];
  }

  // One request: the next page is taken whole.
  lemma {:induction false} OneRequest(albums: map<nat, Item>, keys: seq<nat>, s: State, instance: nat, bytes: nat -> nat,
                                      n: nat)
    requires Servable(albums) && keys == Ascending(albums.Keys) && Increasing(keys)
    requires forall k :: k in keys ==> k in albums && Good(albums[k])
    requires WithinBudget(bytes) && instance != 0 && n < MAX_REQUESTS && |keys| <= MAX_ALBUMS
    requires Reached(s, keys, albums, instance, bytes, n)
    ensures var turn := OnAnswer(s, Fingerprints(albums, s.cursor, PAGE_SIZE, instance, bytes(n)));
      if |keys| - n * PAGE_SIZE > PAGE_SIZE
      then turn.Onward? && Reached(turn.state, keys, albums, instance, bytes, n + 1)
      else turn.Finished? && turn.state.instance == instance && turn.state.albums == Rows(albums, keys)
  {
    hide Ascending, Fingerprints, OnAnswer, FirstKeys, Rows;
    var done := n * PAGE_SIZE;
    EndpointPage(albums, keys, done, instance, bytes(n));
    var left := |keys| - done;
    var size: nat := if left > PAGE_SIZE then PAGE_SIZE else left;
    var page := keys[done..done + size];
    var rows := Rows(albums, page);
    PageRows(albums, keys, done, size);
    assert Total(bytes, n + 1) == Total(bytes, n) + bytes(n);
    var next := if left > PAGE_SIZE then Cursor(page[PAGE_SIZE - 1], albums[page[PAGE_SIZE - 1]].length) else Last;
    TakenWhole(s, rows, next, instance, bytes(n));
    forall k | k in FirstKeys(rows, |rows|) ensures size > 0 && k <= keys[done + size - 1] {
      InFirstKeys(rows, |rows|, k);
    }
  }

  lemma {:induction false} PageRows(albums: map<nat, Item>, keys: seq<nat>, done: nat, size: nat)
    requires forall k :: k in keys ==> k in albums && Good(albums[k]) && albums[k].key == k && k > 0
    requires done + size <= |keys| && Increasing(keys)
    ensures var rows := Rows(albums, keys[done..done + size]);
      && |rows| == size && |Rows(albums, keys)| == |keys|
      && (forall i :: 0 <= i < size ==> rows[i].key == keys[done + i] && Good(rows[i]) && rows[i].key != 0)
      && (forall i, j :: 0 <= i < j < size ==> rows[i].key != rows[j].key)
      && Rows(albums, keys)[..done] + rows == Rows(albums, keys)[..done + size]
      && (done + size == |keys| ==> Rows(albums, keys)[..done + size] == Rows(albums, keys))
  {
    var rows := Rows(albums, keys[done..done + size]);
    forall i | 0 <= i < size ensures rows[i] == albums[keys[done + i]] {
      assert keys[done + i] in keys;
    }
  }

  // Fetching an unchanging catalogue from the endpoint returns every album exactly once, in key
  // order, if and only if it has at most 100,000 albums and all of them are well-formed.
  lemma {:induction false} EndpointIsFetchedWhole(albums: map<nat, Item>, instance: nat, bytes: nat -> nat)
    requires Servable(albums) && WithinBudget(bytes) && instance != 0
    ensures From(Endpoint(albums, instance, bytes), START, 0) == Ok((instance, All(albums)))
        <==> |albums| <= MAX_ALBUMS && forall k :: k in albums ==> Good(albums[k])
  {
    hide Ascending, From, OnAnswer, Increasing;
    var keys := Ascending(albums.Keys);
    AscendingIncreases(albums.Keys);
    assert forall k :: k in keys <==> k in albums;
    assert |keys| == |albums|;
    if |albums| <= MAX_ALBUMS && forall k :: k in albums ==> Good(albums[k]) {
      FetchRest(albums, keys, START, instance, bytes, 0);
    }
    if From(Endpoint(albums, instance, bytes), START, 0) == Ok((instance, All(albums))) {
      AnyServer(Endpoint(albums, instance, bytes), START, 0);
      assert Acceptable(All(albums));
      forall k | k in albums ensures Good(albums[k]) {
        var i :| 0 <= i < |keys| && keys[i] == k;
        assert All(albums)[i] == albums[k];
      }
    }
  }

  lemma {:induction false} FetchRest(albums: map<nat, Item>, keys: seq<nat>, s: State, instance: nat, bytes: nat -> nat,
                                     n: nat)
    requires Servable(albums) && keys == Ascending(albums.Keys) && Increasing(keys)
    requires forall k :: k in keys ==> k in albums && Good(albums[k])
    requires WithinBudget(bytes) && instance != 0 && n <= MAX_REQUESTS && |keys| <= MAX_ALBUMS
    requires Reached(s, keys, albums, instance, bytes, n)
    ensures From(Endpoint(albums, instance, bytes), s, n) == Ok((instance, Rows(albums, keys)))
    decreases MAX_REQUESTS - n
  {
    hide Ascending, OnAnswer, Reached, Increasing, Servable, WithinBudget;
    assert n < MAX_REQUESTS by { ReachedEarly(s, keys, albums, instance, bytes, n); }
    OneRequest(albums, keys, s, instance, bytes, n);
    var server := Endpoint(albums, instance, bytes);
    assert server(n, s.cursor) == Fingerprints(albums, s.cursor, PAGE_SIZE, instance, bytes(n));
    var turn := OnAnswer(s, server(n, s.cursor));
    if turn.Onward? { FetchRest(albums, keys, turn.state, instance, bytes, n + 1); }
  }

  lemma ReachedEarly(s: State, keys: seq<nat>, albums: map<nat, Item>, instance: nat, bytes: nat -> nat, n: nat)
    requires forall k :: k in keys ==> k in albums
    requires Reached(s, keys, albums, instance, bytes, n) && |keys| <= MAX_ALBUMS
    ensures n < MAX_REQUESTS
  {
  }
}
