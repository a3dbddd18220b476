// Reading a worker's messages from its pipe: one line at a time, whatever pieces they arrive in,
// as long as the pieces stay within the size limit.

module LineReader {
  import opened Prelude

  type Byte = x: nat | x < 256

  const NEWLINE: Byte := 10
  const MAX_MESSAGE_BYTES: nat := 16 * 1024 * 1024

  // What the pipe yields next: some bytes, its end, or nothing before the deadline.
  datatype Event = Chunk(bytes: seq<Byte>) | End | Deadline

  // Overrun: the worker broke the protocol by sending too much without a line end.
  datatype Outcome = Line(text: seq<Byte>) | Late | Ended | Overrun

  predicate HasLine(b: seq<Byte>) { NEWLINE in b }

  function FirstEnd(b: seq<Byte>): (i: nat)
    requires HasLine(b)
    ensures i < |b| && b[i] == NEWLINE && NEWLINE !in b[..i]
  {
    if b[0] == NEWLINE then 0
    else
      assert b == [b[0]] + b[1..];
      var j := FirstEnd(b[1..]);
      assert b[..j + 1] == [b[0]] + b[1..][..j];
      j + 1
  }

  // ---------------------------------------------------------------- one read

  datatype Got = Got(outcome: Outcome, buffer: seq<Byte>, used: nat)

  // One read: what it yields, what it keeps and how many events it takes. A pipe that yields
  // nothing more before the deadline is late.
  function ReadOne(buffer: seq<Byte>, pipe: seq<Event>): (g: Got)
    ensures g.used <= |pipe|
    ensures g.outcome.Line? && g.used == 0 ==> |g.buffer| < |buffer|
    decreases |pipe|
  {
    if HasLine(buffer) then Got(Line(buffer[..FirstEnd(buffer)]), buffer[FirstEnd(buffer) + 1..], 0)
    else if pipe == [] then Got(Late, buffer, 0)
    else
      match pipe[0]
      case Deadline => Got(Late, buffer, 1)
      case End => Got(Ended, buffer, 1)
      case Chunk(bytes) =>
        if bytes == [] then Got(Ended, buffer, 1)
        else if |buffer + bytes| > MAX_MESSAGE_BYTES then Got(Overrun, buffer + bytes, 1)
        else
          var g := ReadOne(buffer + bytes, pipe[1..]);
          g.(used := g.used + 1)
  }

  class Reader {
    var buffer: seq<Byte>

    constructor ()
      ensures buffer == []
    {
      buffer := [];
    }

    // The next message. used events are taken from the pipe; what follows the line is kept.
    method Read(pipe: seq<Event>) returns (r: Outcome, used: nat)
      modifies this
      ensures Got(r, buffer, used) == ReadOne(old(buffer), pipe)
    {
      used := 0;
      while !HasLine(buffer)
        invariant used <= |pipe|
        invariant var g := ReadOne(buffer, pipe[used..]);
          ReadOne(old(buffer), pipe) == g.(used := g.used + used)
        decreases |pipe| - used
      {
        if used == |pipe| {
          return Late, used;
        }
        var event := pipe[used];
        assert pipe[used..][1..] == pipe[used + 1..];
        used := used + 1;
        match event
        case Deadline => return Late, used;
        case End => return Ended, used;
        case Chunk(bytes) =>
          if bytes == [] {
            return Ended, used;
          }
          buffer := buffer + bytes;
          if |buffer| > MAX_MESSAGE_BYTES {
            return Overrun, used;
          }
      }
      var i := FirstEnd(buffer);
      r := Line(buffer[..i]);
      buffer := buffer[i + 1..];
    }
  }

  // ---------------------------------------------------------------- successive reads

  // The messages read until a read yields something else, and what that is.
  datatype Session = Session(lines: seq<seq<Byte>>, last: Outcome)

  function ReadAll(buffer: seq<Byte>, pipe: seq<Event>): Session
    decreases |pipe|, |buffer|
  {
    var g := ReadOne(buffer, pipe);
    if !g.outcome.Line? then Session([], g.outcome)
    else
      var rest := ReadAll(g.buffer, pipe[g.used..]);
      Session([g.outcome.text] + rest.lines, rest.last)
  }

  // The complete lines of some bytes, and what follows the last of them.
  function Lines(b: seq<Byte>): seq<seq<Byte>>
    decreases |b|
  {
    if !HasLine(b) then [] else [b[..FirstEnd(b)]] + Lines(b[FirstEnd(b) + 1..])
  }

  function Tail(b: seq<Byte>): seq<Byte>
    decreases |b|
  {
    if !HasLine(b) then b else Tail(b[FirstEnd(b) + 1..])
  }

  lemma FirstEndIs(b: seq<Byte>, i: nat)
    requires i < |b| && b[i] == NEWLINE && NEWLINE !in b[..i]
    ensures HasLine(b) && FirstEnd(b) == i
  {
    var j := FirstEnd(b);
    assert forall k :: 0 <= k < i ==> b[..i][k] == b[k];
    assert forall k :: 0 <= k < j ==> b[..j][k] == b[k];
  }

  lemma {:induction false} FirstEndPrefix(b: seq<Byte>, c: seq<Byte>)
    requires HasLine(b)
    ensures HasLine(b + c) && FirstEnd(b + c) == FirstEnd(b)
    ensures (b + c)[..FirstEnd(b)] == b[..FirstEnd(b)]
    ensures (b + c)[FirstEnd(b) + 1..] == b[FirstEnd(b) + 1..] + c
  {
    assert (b + c)[..FirstEnd(b)] == b[..FirstEnd(b)];
    FirstEndIs(b + c, FirstEnd(b));
  }

  lemma FirstLine(b: seq<Byte>)
    requires HasLine(b)
    ensures Lines(b) == [b[..FirstEnd(b)]] + Lines(b[FirstEnd(b) + 1..])
    ensures Tail(b) == Tail(b[FirstEnd(b) + 1..])
  {
    hide FirstEnd;
  }

  lemma NoLine(b: seq<Byte>)
    requires !HasLine(b)
    ensures Lines(b) == [] && Tail(b) == b
  {
  }

  // Bytes that arrive later add the lines they complete.
  lemma {:induction false} LinesConcat(b: seq<Byte>, c: seq<Byte>)
    ensures Lines(b + c) == Lines(b) + Lines(Tail(b) + c)
    ensures Tail(b + c) == Tail(Tail(b) + c)
    decreases |b|
  {
    hide Lines, Tail, FirstEnd, HasLine;
    if HasLine(b) {
      var rest := b[FirstEnd(b) + 1..];
      FirstEndPrefix(b, c);
      FirstLine(b);
      FirstLine(b + c);
      LinesConcat(rest, c);
      ConcatAssociative([b[..FirstEnd(b)]], Lines(rest), Lines(Tail(rest) + c));
    } else {
      NoLine(b);
      assert [] + Lines(b + c) == Lines(b + c);
    }
  }

  lemma {:induction false} TailHasNoLine(b: seq<Byte>)
    ensures !HasLine(Tail(b))
    decreases |b|
  {
    if HasLine(b) { TailHasNoLine(b[FirstEnd(b) + 1..]); }
  }

  lemma ReadsFirst(buffer: seq<Byte>, pipe: seq<Event>)
    requires HasLine(buffer)
    ensures var rest := ReadAll(buffer[FirstEnd(buffer) + 1..], pipe);
      ReadAll(buffer, pipe) == Session([buffer[..FirstEnd(buffer)]] + rest.lines, rest.last)
  {
    assert pipe[0..] == pipe;
  }

  // Reading first takes every line the buffer completes.
  lemma {:induction false} ReadsBuffered(buffer: seq<Byte>, pipe: seq<Event>)
    ensures var rest := ReadAll(Tail(buffer), pipe);
      ReadAll(buffer, pipe) == Session(Lines(buffer) + rest.lines, rest.last)
    decreases |buffer|
  {
    hide Lines, Tail, FirstEnd, ReadAll;
    if HasLine(buffer) {
      FirstLine(buffer);
      ReadsFirst(buffer, pipe);
      ReadsBuffered(buffer[FirstEnd(buffer) + 1..], pipe);
    } else {
      NoLine(buffer);
    }
  }

  // One more piece is as good as having had it in the buffer, unless it overruns what is pending.
  lemma {:induction false} ReadsPiece(buffer: seq<Byte>, piece: seq<Byte>, pipe: seq<Event>)
    requires !HasLine(buffer) && piece != []
    ensures ReadAll(buffer, [Chunk(piece)] + pipe) ==
      if |buffer + piece| > MAX_MESSAGE_BYTES then Session([], Overrun) else ReadAll(buffer + piece, pipe)
  {
    var all := [Chunk(piece)] + pipe;
    assert all[1..] == pipe;
    if |buffer + piece| <= MAX_MESSAGE_BYTES {
      var g := ReadOne(buffer + piece, pipe);
      assert ReadOne(buffer, all) == g.(used := g.used + 1);
      assert all[g.used + 1..] == pipe[g.used..];
    }
  }

  // ---------------------------------------------------------------- however the bytes are cut

  function Joined(pieces: seq<seq<Byte>>): seq<Byte> {
    if pieces == [] then [] else pieces[0] + Joined(pieces[1..])
  }

  function Piped(pieces: seq<seq<Byte>>, end: Event): seq<Event> {
    if pieces == [] then [end] else [Chunk(pieces[0])] + Piped(pieces[1..], end)
  }

  predicate Cut(pieces: seq<seq<Byte>>) {
    forall i :: 0 <= i < |pieces| ==> pieces[i] != []
  }

  // How many pieces are taken: all of them, or those before the first that is over the limit
  // together with the unfinished line before it.
  function Taken(pending: seq<Byte>, pieces: seq<seq<Byte>>): (n: nat)
    ensures n <= |pieces|
    decreases |pieces|
  {
    if pieces == [] || |Tail(pending)| + |pieces[0]| > MAX_MESSAGE_BYTES then 0
    else 1 + Taken(Tail(pending) + pieces[0], pieces[1..])
  }

  predicate Fits(pieces: seq<seq<Byte>>) { Taken([], pieces) == |pieces| }

  function EndOf(end: Event): Outcome {
    if end.Deadline? then Late else Ended
  }

  // What is read from a stream that arrives in pieces: the complete lines of the pieces that are
  // taken, and then the end of the stream or an overrun.
  lemma {:induction false} ReadsLines(buffer: seq<Byte>, pieces: seq<seq<Byte>>, end: Event)
    requires Cut(pieces) && !end.Chunk?
    ensures var n := Taken(buffer, pieces);
      ReadAll(buffer, Piped(pieces, end))
      == Session(Lines(buffer + Joined(pieces[..n])), if n == |pieces| then EndOf(end) else Overrun)
    decreases |pieces|
  {
    hide ReadAll, Lines;
    var pending := Tail(buffer);
    TailHasNoLine(buffer);
    ReadsBuffered(buffer, Piped(pieces, end));
    var n := Taken(buffer, pieces);
    if n == 0 {
      assert buffer + Joined(pieces[..0]) == buffer;
      if pieces == [] {
        ReadsEnd(pending, end);
      } else {
        ReadsPiece(pending, pieces[0], Piped(pieces[1..], end));
      }
      assert Lines(buffer) + [] == Lines(buffer);
    } else {
      var rest := pieces[1..];
      assert Cut(rest) by {
        forall i | 0 <= i < |rest| ensures rest[i] != [] { assert rest[i] == pieces[i + 1]; }
      }
      ReadsPiece(pending, pieces[0], Piped(rest, end));
      ReadsLines(pending + pieces[0], rest, end);
      assert pieces[..n][1..] == rest[..n - 1];
      var later := Joined(rest[..n - 1]);
      LinesConcat(buffer, pieces[0] + later);
      assert pending + (pieces[0] + later) == (pending + pieces[0]) + later;
    }
  }

  lemma ReadsEnd(pending: seq<Byte>, end: Event)
    requires !HasLine(pending) && !end.Chunk?
    ensures ReadAll(pending, [end]) == Session([], EndOf(end))
  {
  }

  // ---------------------------------------------------------------- which bytes can be lost

  // What one read of the pipe asks for at most.
  const READ_SIZE: nat := 65536

  // The ways reads of the pipe can cut some bytes.
  ghost predicate CutOf(pieces: seq<seq<Byte>>, b: seq<Byte>) {
    Joined(pieces) == b && forall i :: 0 <= i < |pieces| ==> 0 < |pieces[i]| <= READ_SIZE
  }

  // A read that starts after i bytes can be too much together with the unfinished line before it.
  predicate MayOverrun(b: seq<Byte>, i: nat) {
    i < |b| && |Tail(b[..i])| + Min(READ_SIZE, |b| - i) > MAX_MESSAGE_BYTES
  }

  // How far reading can get at all: to the end, or to where a line is as long as the limit.
  function Reach(b: seq<Byte>, from: nat := 0): (n: nat)
    requires from <= |b|
    ensures from <= n <= |b|
    ensures forall i :: from <= i < n ==> |Tail(b[..i])| < MAX_MESSAGE_BYTES
    ensures n < |b| ==> |Tail(b[..n])| >= MAX_MESSAGE_BYTES
    decreases |b| - from
  {
    if from == |b| || |Tail(b[..from])| >= MAX_MESSAGE_BYTES then from else Reach(b, from + 1)
  }

  // What is read when reading stops after n bytes.
  function StoppedAt(b: seq<Byte>, n: nat, end: Event): Session
    requires n <= |b|
  {
    Session(Lines(b[..n]), if n == |b| then EndOf(end) else Overrun)
  }

  // Every way to cut the bytes fits if and only if no read can overrun. All their lines are then
  // read, and otherwise some way to cut them loses them.
  lemma {:induction false} FitsExactlyWhen(b: seq<Byte>, end: Event)
    requires !end.Chunk?
    ensures (forall pieces :: CutOf(pieces, b) ==> Fits(pieces)) <==> (forall i: nat :: !MayOverrun(b, i))
    ensures (forall pieces :: CutOf(pieces, b) ==> ReadAll([], Piped(pieces, end)) == Session(Lines(b), EndOf(end)))
        <==> forall i: nat :: !MayOverrun(b, i)
  {
    hide ReadAll, Piped, Lines, Tail, Reach, CutOf, MayOverrun;
    forall pieces | CutOf(pieces, b)
      ensures Fits(pieces) <==> ReadAll([], Piped(pieces, end)) == Session(Lines(b), EndOf(end))
      ensures !Fits(pieces) ==> exists i: nat :: MayOverrun(b, i)
    {
      CutStops(pieces, b, end);
    }
    if i: nat :| MayOverrun(b, i) {
      assert i < |b| by { OverrunsInside(b, i); }
      if i <= Reach(b) {
        CutAtStops(b, i);
        assert !Fits(CutAt(b, i));
      } else {
        SinglesStop(b);
        assert !Fits(Singles(b));
      }
    }
  }

  lemma OverrunsInside(b: seq<Byte>, i: nat)
    requires MayOverrun(b, i)
    ensures i < |b|
  {
  }

  // How the bytes are cut matters if and only if a read can overrun before the point that can be
  // reached, and there is more to read up to that point: the end of the stream or a line's end.
  lemma {:induction false} CutMattersExactlyWhen(b: seq<Byte>, end: Event)
    requires !end.Chunk?
    ensures
      (exists one, two ::
         CutOf(one, b) && CutOf(two, b) && ReadAll([], Piped(one, end)) != ReadAll([], Piped(two, end)))
      <==> exists i: nat :: MayOverrun(b, i) && i < Reach(b) && (Reach(b) == |b| || NEWLINE in b[i..Reach(b)])
  {
    hide ReadAll, Piped, Lines, Tail, Reach, CutOf, MayOverrun;
    var n := Reach(b);
    SinglesStop(b);
    CutStops(Singles(b), b, end);
    forall pieces | CutOf(pieces, b) && ReadAll([], Piped(pieces, end)) != StoppedAt(b, n, end)
      ensures exists i: nat :: MayOverrun(b, i) && i < n && (n == |b| || NEWLINE in b[i..n])
    {
      CutStops(pieces, b, end);
      StopMatters(b, Stop(pieces), end);
    }
    if i: nat :| MayOverrun(b, i) && i < n && (n == |b| || NEWLINE in b[i..n]) {
      OverrunsInside(b, i);
      CutAtStops(b, i);
      CutStops(CutAt(b, i), b, end);
      StopMatters(b, i, end);
    }
  }

  // Stopping earlier reads something else exactly when a line ends in between, or the end was in reach.
  lemma {:induction false} StopMatters(b: seq<Byte>, i: nat, end: Event)
    requires i <= Reach(b) && !end.Chunk?
    ensures var n := Reach(b);
      StoppedAt(b, i, end) != StoppedAt(b, n, end) <==> i < n && (n == |b| || NEWLINE in b[i..n])
  {
    hide Lines, Tail, Reach;
    var n := Reach(b);
    var more := b[i..n];
    assert b[..n] == b[..i] + more;
    LinesConcat(b[..i], more);
    TailHasNoLine(b[..i]);
    if NEWLINE in more {
      assert HasLine(Tail(b[..i]) + more);
      FirstLine(Tail(b[..i]) + more);
      assert |Lines(b[..n])| > |Lines(b[..i])|;
    } else {
      NoLine(Tail(b[..i]) + more);
    }
  }

  // How many bytes are taken.
  function Stop(pieces: seq<seq<Byte>>): nat { |Joined(pieces[..Taken([], pieces)])| }

  // Whatever way they are cut, reading stops within reach: at the end, or where a read overruns.
  lemma {:induction false} CutStops(pieces: seq<seq<Byte>>, b: seq<Byte>, end: Event)
    requires CutOf(pieces, b) && !end.Chunk?
    ensures Stop(pieces) <= Reach(b) && (Fits(pieces) <==> Stop(pieces) == |b|)
    ensures ReadAll([], Piped(pieces, end)) == StoppedAt(b, Stop(pieces), end)
    ensures !Fits(pieces) ==> MayOverrun(b, Stop(pieces))
    ensures Fits(pieces) <==> ReadAll([], Piped(pieces, end)) == Session(Lines(b), EndOf(end))
  {
    hide ReadAll, Piped, Lines, Tail, Reach, Taken, Joined;
    ReadsLines([], pieces, end);
    TakenMeaning([], pieces);
    var n := Taken([], pieces);
    JoinedPrefix(pieces, n);
    WithinReach(pieces, b, n);
    assert [] + Joined(pieces[..n]) == Joined(pieces[..n]) == b[..Stop(pieces)];
    if n < |pieces| {
      JoinedPrefix(pieces, n + 1);
      JoinedNext(pieces, n);
    } else {
      assert pieces[..n] == pieces;
    }
    assert b[..|b|] == b;
  }

  lemma {:induction false} JoinedConcat(a: seq<seq<Byte>>, c: seq<seq<Byte>>)
    ensures Joined(a + c) == Joined(a) + Joined(c)
    decreases |a|
  {
    if a == [] {
      assert a + c == c;
    } else {
      assert (a + c)[1..] == a[1..] + c;
      JoinedConcat(a[1..], c);
    }
  }

  lemma {:induction false} JoinedPrefix(pieces: seq<seq<Byte>>, n: nat)
    requires n <= |pieces|
    ensures Joined(pieces[..n]) <= Joined(pieces)
  {
    assert pieces == pieces[..n] + pieces[n..];
    JoinedConcat(pieces[..n], pieces[n..]);
  }

  lemma {:induction false} JoinedNext(pieces: seq<seq<Byte>>, n: nat)
    requires n < |pieces|
    ensures Joined(pieces[..n + 1]) == Joined(pieces[..n]) + pieces[n]
  {
    assert pieces[..n + 1] == pieces[..n] + [pieces[n]];
    JoinedConcat(pieces[..n], [pieces[n]]);
    assert Joined([pieces[n]]) == pieces[n] + Joined([]);
  }

  predicate FitsNext(pending: seq<Byte>, pieces: seq<seq<Byte>>, k: nat)
    requires k < |pieces|
  {
    |Tail(pending + Joined(pieces[..k]))| + |pieces[k]| <= MAX_MESSAGE_BYTES
  }

  // The pieces that are taken are those before the first that does not fit.
  lemma {:induction false} TakenMeaning(pending: seq<Byte>, pieces: seq<seq<Byte>>)
    ensures var n := Taken(pending, pieces);
      (forall k :: 0 <= k < n ==> FitsNext(pending, pieces, k)) && (n < |pieces| ==> !FitsNext(pending, pieces, n))
    decreases |pieces|
  {
    hide Tail;
    var n := Taken(pending, pieces);
    if pieces != [] {
      assert pending + Joined(pieces[..0]) == pending;
      var rest := pieces[1..];
      var next := Tail(pending) + pieces[0];
      TakenMeaning(next, rest);
      forall k: nat | k < |rest| ensures FitsNext(pending, pieces, k + 1) <==> FitsNext(next, rest, k) {
        assert pieces[..k + 1][1..] == rest[..k];
        var later := Joined(rest[..k]);
        LinesConcat(pending, pieces[0] + later);
        assert Tail(pending) + (pieces[0] + later) == next + later;
      }
      forall k | 0 < k < n ensures FitsNext(pending, pieces, k) {
        assert FitsNext(next, rest, k - 1);
      }
      if 0 < n < |pieces| { assert !FitsNext(next, rest, n - 1); }
    }
  }

  lemma {:induction false} TakenIs(pieces: seq<seq<Byte>>, n: nat)
    requires n <= |pieces| && forall k :: 0 <= k < n ==> FitsNext([], pieces, k)
    requires n < |pieces| ==> !FitsNext([], pieces, n)
    ensures Taken([], pieces) == n
  {
    TakenMeaning([], pieces);
  }

  lemma {:induction false} TailIsShort(b: seq<Byte>)
    ensures |Tail(b)| <= |b|
    decreases |b|
  {
    if HasLine(b) { TailIsShort(b[FirstEnd(b) + 1..]); }
  }

  lemma {:induction false} WithinReach(pieces: seq<seq<Byte>>, b: seq<Byte>, k: nat)
    requires Joined(pieces) == b && k <= Taken([], pieces)
    ensures |Joined(pieces[..k])| <= Reach(b)
    decreases k
  {
    hide Tail, Reach, Joined, Taken;
    var n := Reach(b);
    JoinedPrefix(pieces, k);
    if k > 0 {
      WithinReach(pieces, b, k - 1);
      JoinedNext(pieces, k - 1);
      TakenMeaning([], pieces);
      assert FitsNext([], pieces, k - 1);
      JoinedPrefix(pieces, k - 1);
      var before := Joined(pieces[..k - 1]);
      assert [] + before == before == b[..|before|];
      if n < |b| {
        var more := b[|before|..n];
        assert b[..n] == before + more;
        LinesConcat(before, more);
        TailIsShort(Tail(before) + more);
      }
    } else {
      assert Joined(pieces[..0]) == [] by { JoinedNothing(); }
    }
  }

  lemma JoinedNothing()
    ensures Joined([]) == []
  {
  }

  // One byte at a time.
  function Singles(b: seq<Byte>): (pieces: seq<seq<Byte>>)
    ensures |pieces| == |b| && forall i :: 0 <= i < |b| ==> pieces[i] == [b[i]]
  {
    seq(|b|, i requires 0 <= i < |b| => [b[i]])
  }

  lemma {:induction false} SinglesJoined(b: seq<Byte>, n: nat)
    requires n <= |b|
    ensures Joined(Singles(b)[..n]) == b[..n]
    decreases n
  {
    if n == 0 {
      JoinedNothing();
    } else {
      SinglesJoined(b, n - 1);
      JoinedNext(Singles(b), n - 1);
    }
  }

  lemma {:induction false} SinglesStop(b: seq<Byte>)
    ensures CutOf(Singles(b), b) && Taken([], Singles(b)) == Reach(b) == Stop(Singles(b))
  {
    hide Tail, Reach, Joined, Taken;
    var pieces := Singles(b);
    SinglesJoined(b, |b|);
    assert pieces[..|b|] == pieces && b[..|b|] == b;
    forall k: nat | k < |b| ensures FitsNext([], pieces, k) <==> |Tail(b[..k])| < MAX_MESSAGE_BYTES {
      SinglesJoined(b, k);
      assert [] + b[..k] == b[..k];
    }
    TakenIs(pieces, Reach(b));
    SinglesJoined(b, Reach(b));
  }

  // One byte at a time up to i, then as much as a read yields.
  function CutAt(b: seq<Byte>, i: nat): seq<seq<Byte>>
    requires i < |b|
  {
    var j := i + Min(READ_SIZE, |b| - i);
    Singles(b[..i]) + [b[i..j]] + Singles(b[j..])
  }

  lemma {:induction false} CutAtStops(b: seq<Byte>, i: nat)
    requires MayOverrun(b, i) && i <= Reach(b)
    ensures CutOf(CutAt(b, i), b) && !Fits(CutAt(b, i)) && Stop(CutAt(b, i)) == i
  {
    hide Tail, Reach, Joined, Taken;
    var pieces := CutAt(b, i);
    var j := i + Min(READ_SIZE, |b| - i);
    CutAtJoined(b, i, j);
    forall k: nat | k <= i ensures Joined(pieces[..k]) == b[..k] && [] + b[..k] == b[..k] {
      SinglesJoined(b[..i], k);
      assert pieces[..k] == Singles(b[..i])[..k] && b[..i][..k] == b[..k];
    }
    assert pieces[i] == b[i..j];
    TakenIs(pieces, i);
  }

  lemma {:induction false} CutAtJoined(b: seq<Byte>, i: nat, j: nat)
    requires i < j <= |b|
    ensures Joined(Singles(b[..i]) + [b[i..j]] + Singles(b[j..])) == b
  {
    hide Joined;
    var first, last := Singles(b[..i]), Singles(b[j..]);
    SinglesJoined(b[..i], i);
    SinglesJoined(b[j..], |b| - j);
    assert first[..i] == first && last[..|b| - j] == last && b[..i][..i] == b[..i] && b[j..][..|b| - j] == b[j..];
    JoinedConcat(first + [b[i..j]], last);
    JoinedConcat(first, [b[i..j]]);
    JoinedOne(b[i..j]);
    assert b == b[..i] + b[i..j] + b[j..];
  }

  lemma JoinedOne(piece: seq<Byte>)
    ensures Joined([piece]) == piece
  {
    assert [piece][1..] == [];
  }

  // ---------------------------------------------------------------- a message that is lost

  function Zeros(n: nat): seq<Byte> { seq(n, i => 0) }

  // A message one byte short of the limit, as full reads yield it.
  const FULL_READS: nat := 255
  const LONG_READS: seq<seq<Byte>> := Blocks(FULL_READS) + [Zeros(READ_SIZE - 1)]

  function Blocks(n: nat): (pieces: seq<seq<Byte>>)
    ensures |pieces| == n && forall i :: 0 <= i < n ==> pieces[i] == Zeros(READ_SIZE)
  {
    if n == 0 then [] else [Zeros(READ_SIZE)] + Blocks(n - 1)
  }

  lemma {:induction false} BlocksJoined(n: nat)
    ensures |Joined(Blocks(n))| == n * READ_SIZE && NEWLINE !in Joined(Blocks(n))
  {
    if n > 0 {
      BlocksJoined(n - 1);
      assert Blocks(n)[1..] == Blocks(n - 1);
    }
  }

  lemma {:induction false} LongMessage()
    ensures var long := Joined(LONG_READS);
      |long| == MAX_MESSAGE_BYTES - 1 && !HasLine(long) && |LONG_READS| == FULL_READS + 1
    ensures forall i :: 0 <= i < |LONG_READS| ==> 0 < |LONG_READS[i]| <= READ_SIZE
  {
    hide Joined;
    BlocksJoined(FULL_READS);
    JoinedConcat(Blocks(FULL_READS), [Zeros(READ_SIZE - 1)]);
    JoinedOne(Zeros(READ_SIZE - 1));
  }

  const NEXT: seq<Byte> := [0, 0, 0, 0, 0]

  // With its line end alone in the next read, the message is read; with the next bytes in the same
  // read, the worker is given up.
  lemma {:induction false} TheCutMatters()
    ensures var one, two := LONG_READS + [[NEWLINE], NEXT], LONG_READS + [[NEWLINE] + NEXT];
      var b := Joined(LONG_READS) + [NEWLINE] + NEXT;
      && CutOf(one, b) && CutOf(two, b)
      && ReadAll([], Piped(one, Deadline)) == Session([Joined(LONG_READS)], Late)
      && ReadAll([], Piped(two, Deadline)) == Session([], Overrun)
  {
    hide ReadAll, Piped, Joined, Lines, Tail, Taken, Reach, FirstEnd;
    var long := Joined(LONG_READS);
    var b := long + [NEWLINE] + NEXT;
    LongMessage();
    var one, two := LONG_READS + [[NEWLINE], NEXT], LONG_READS + [[NEWLINE] + NEXT];
    JoinedConcat(LONG_READS, [[NEWLINE], NEXT]);
    JoinedConcat(LONG_READS, [[NEWLINE] + NEXT]);
    JoinedTwo([NEWLINE], NEXT);
    JoinedOne([NEWLINE] + NEXT);
    assert long + ([NEWLINE] + NEXT) == b;
    assert CutOf(one, b) && CutOf(two, b);
    LongIsTaken([[NEWLINE], NEXT]);
    LongIsTaken([[NEWLINE] + NEXT]);
    EndIsTaken();
    TakenIs(one, FULL_READS + 3);
    TakenIs(two, FULL_READS + 1);
    assert two[..FULL_READS + 1] == LONG_READS;
    CutStops(one, b, Deadline);
    CutStops(two, b, Deadline);
    assert one[..FULL_READS + 3] == one;
    LinesOfLong(long, NEXT);
    NoLine(long);
    assert b[..|long|] == long;
  }

  // The reads of the long message are all taken; what comes next must be one byte.
  lemma {:induction false} LongIsTaken(more: seq<seq<Byte>>)
    requires more != []
    ensures var pieces := LONG_READS + more;
      (forall k :: 0 <= k <= FULL_READS ==> FitsNext([], pieces, k))
      && (FitsNext([], pieces, FULL_READS + 1) <==> |more[0]| <= 1)
  {
    hide Joined, Tail, FirstEnd;
    LongMessage();
    var pieces := LONG_READS + more;
    forall k | 0 <= k <= FULL_READS ensures FitsNext([], pieces, k) {
      assert pieces[..k] == LONG_READS[..k];
      JoinedNext(LONG_READS, k);
      JoinedPrefix(LONG_READS, k + 1);
      TailIsShort([] + Joined(LONG_READS[..k]));
    }
    assert pieces[..FULL_READS + 1] == LONG_READS;
    assert [] + Joined(LONG_READS) == Joined(LONG_READS);
    NoLine(Joined(LONG_READS));
  }

  lemma {:induction false} EndIsTaken()
    ensures FitsNext([], LONG_READS + [[NEWLINE], NEXT], FULL_READS + 2)
  {
    hide Joined, Tail, FirstEnd;
    LongMessage();
    var pieces := LONG_READS + [[NEWLINE], NEXT];
    var long := Joined(LONG_READS);
    assert pieces[..FULL_READS + 2] == LONG_READS + [[NEWLINE]];
    JoinedConcat(LONG_READS, [[NEWLINE]]);
    JoinedOne([NEWLINE]);
    EndOfFirst(long, []);
    assert long + [NEWLINE] + [] == [] + (long + [NEWLINE]) == long + [NEWLINE];
    FirstLine(long + [NEWLINE]);
    assert (long + [NEWLINE])[|long| + 1..] == [];
    TailIsShort([]);
  }

  lemma JoinedTwo(a: seq<Byte>, b: seq<Byte>)
    ensures Joined([a, b]) == a + b
  {
    assert [a, b][1..] == [b];
    JoinedOne(b);
  }

  lemma {:induction false} LinesOfLong(long: seq<Byte>, next: seq<Byte>)
    requires !HasLine(long) && !HasLine(next)
    ensures Lines(long + [NEWLINE] + next) == [long]
  {
    var b := long + [NEWLINE] + next;
    EndOfFirst(long, next);
    assert b[..|long|] == long && b[|long| + 1..] == next;
    assert Lines(next) == [];
  }

  lemma EndOfFirst(long: seq<Byte>, next: seq<Byte>)
    requires !HasLine(long)
    ensures HasLine(long + [NEWLINE] + next) && FirstEnd(long + [NEWLINE] + next) == |long|
  {
    var b := long + [NEWLINE] + next;
    assert b[..|long|] == long;
    FirstEndIs(b, |long|);
  }
}
