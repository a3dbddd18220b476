// What holds of covers in every reachable state.

module CoverTheorems {
  import opened Prelude
  import opened Covers
  import opened CoverProtocol

  // A reader holds the current value of every record of its scope numbered up to its cursor, and
  // when a page reports no more it holds the whole scope, whichever writers stood between their
  // lock, their number and their commit.
  lemma {:induction false} FeedIsComplete(steps: seq<Step>, r: Name, limit: int)
    requires r in Exec(steps).readers
    ensures var w := Exec(steps);
      var after := Next(w, Read(r, limit)).readers[r];
      && Follows(w.tables.records, w.readers[r])
      && Follows(w.tables.records, after)
      && (after.more ==> after.cursor > w.readers[r].cursor)
      && (!after.more ==> after.mirror == ScopeView(w.tables.records, after.scope))
  {
    hide Exec, ReadPage, Follows, ScopeView, Inv;
    EveryRunKeeps(steps);
    var w := Exec(steps);
    ReaderFollows(w, r);
    ReadKeepsFollowing(w.tables.records, w.readers[r], limit);
  }

  lemma ReaderFollows(w: World, r: Name)
    requires Inv(w) && r in w.readers
    ensures Follows(w.tables.records, w.readers[r])
  {
    assert ReaderOk(w.tables, w.txns, w.readers[r]);
  }

  // What a writer decided before it drew its number is still the decision when it commits.
  lemma {:induction false} DecisionsHoldAtCommit(steps: seq<Step>, t: Name)
    requires var w := Exec(steps); t in w.txns && w.txns[t].pending.Some?
    ensures var w := Exec(steps);
      var x := w.txns[t];
      x.kind.Writing? && Decide(w.tables, x.kind.scope, x.kind.mutation) == Accept(x.pending.value.record)
  {
    EveryRunKeeps(steps);
    var w := Exec(steps);
    var x := w.txns[t];
    assert PendingOk(w.tables, x.kind.scope, x.kind.mutation, x.pending.value);
    var m := x.kind.mutation;
    if m.operation.Put? && m.operation.cover.Photo? {
      assert Names(x.pending.value.record.value, m.operation.cover.image);
    }
  }

  // Among all mutations ever applied in a scope, none occurs twice.
  lemma {:induction false} AppliedAtMostOnce(steps: seq<Step>, c: Target, i: nat, d: Target, j: nat)
    requires var log := Exec(steps).log;
      c in log && d in log && i < |log[c]| && j < |log[d]| && c.scope == d.scope && log[c][i] == log[d][j]
    ensures c == d && i == j
  {
    EveryRunKeeps(steps);
    var w := Exec(steps);
    assert HistoryOk(w.tables.records[c], c, w.log[c]) && HistoryOk(w.tables.records[d], d, w.log[d]);
  }

  // Every accepted write raised the revision by one from the revision it was based on.
  lemma {:induction false} RevisionsCountWrites(steps: seq<Step>, k: Target)
    ensures var w := Exec(steps);
      Revision(w.tables.records, k) == |Logged(w.log, k)|
      && forall i :: 0 <= i < |Logged(w.log, k)| ==> Logged(w.log, k)[i].base == i
  {
    EveryRunKeeps(steps);
    var w := Exec(steps);
    if k in w.tables.records { assert HistoryOk(w.tables.records[k], k, w.log[k]); }
  }

  // A mutation that was applied once is never accepted again. While its receipt is kept, a retry
  // gets the record as it was written then; afterwards it is refused with the current one.
  lemma {:induction false} RetryIsNeverApplied(steps: seq<Step>, s: Scope, m: Mutation)
    requires m in Logged(Exec(steps).log, Target(s, m.cover))
    ensures var t := Exec(steps).tables;
      var d := Decide(t, s, m);
      var key := Target(s, m.id);
      && !d.Accept?
      && (key in t.receipts && t.receipts[key].mutation == m ==>
            d.Replay? && d.response.revision == m.base + 1 && Shows(d.response.value, m.operation))
      && (key !in t.receipts ==> d.Conflict? && d.current.Some? && d.current.value.revision > m.base)
  {
    hide Exec;
    EveryRunKeeps(steps);
    var w := Exec(steps);
    var k := Target(s, m.cover);
    assert HistoryOk(w.tables.records[k], k, w.log[k]);
    var key := Target(s, m.id);
    if key in w.tables.receipts {
      assert ReceiptOk(w.log, key, w.tables.receipts[key]);
      ValuesShow(ValueOf(m.operation), m.operation);
    }
  }

  // Every record shows what the last mutation of its log asked for, and every receipt answers with
  // what its own mutation asked for.
  lemma {:induction false} RecordsShowTheLastWrite(steps: seq<Step>, k: Target)
    ensures var w := Exec(steps);
      && (k in w.tables.records <==> Logged(w.log, k) != [])
      && (k in w.tables.records ==>
            var ms := w.log[k];
            w.tables.records[k].record.revision == |ms| && Shows(w.tables.records[k].record.value, ms[|ms| - 1].operation))
      && (k in w.tables.receipts ==>
            var r := w.tables.receipts[k];
            r.mutation.id == k.id && r.mutation in Logged(w.log, Target(k.scope, r.mutation.cover))
            && r.response.revision == r.mutation.base + 1 && Shows(r.response.value, r.mutation.operation))
  {
    EveryRunKeeps(steps);
    var w := Exec(steps);
    if k in w.log && k in w.tables.records {
      var ms := w.log[k];
      assert HistoryOk(w.tables.records[k], k, ms);
      ValuesShow(w.tables.records[k].record.value, ms[|ms| - 1].operation);
    }
    if k in w.tables.receipts {
      var r := w.tables.receipts[k];
      assert ReceiptOk(w.log, k, r);
      ValuesShow(r.response.value, r.mutation.operation);
    }
  }

  // A write that has its locks is decided and committed in two steps: if it is to be accepted, the
  // next record, the receipt and the log show it, and otherwise nothing changes but its leaving.
  lemma {:induction false} WritesArrive(steps: seq<Step>, t: Name)
    requires var w := Exec(steps); t in w.txns && w.txns[t].kind.Writing? && w.txns[t].want == [] && w.txns[t].pending.None?
    ensures var w := Exec(steps);
      var s, m := w.txns[t].kind.scope, w.txns[t].kind.mutation;
      var v := Next(Next(w, Draw(t)), Commit(t));
      var k, key := Target(s, m.cover), Target(s, m.id);
      if key !in w.tables.receipts && m.base == |Logged(w.log, k)| && KnowsPhoto(w.tables, s, m.operation)
      then
        && v.log == w.log[k := Logged(w.log, k) + [m]]
        && v.tables.records.Keys == w.tables.records.Keys + {k} && v.tables.receipts.Keys == w.tables.receipts.Keys + {key}
        && v.tables.records[k].record.revision == m.base + 1 && Shows(v.tables.records[k].record.value, m.operation)
        && v.tables.records[k].num > w.tables.sequence
        && v.tables.receipts[key] == Receipt(v.tables.records[k].record, m, w.txns[t].started)
        && (forall j :: j in w.tables.records && j != k ==> v.tables.records[j] == w.tables.records[j])
      else v == w.(txns := w.txns - {t})
  {
    var w := Exec(steps);
    var m := w.txns[t].kind.mutation;
    AcceptedExactlyWhen(w.tables, w.txns[t].kind.scope, m);
    RevisionsCountWrites(steps, Target(w.txns[t].kind.scope, m.cover));
    hide Exec, Decide;
  }

  // Every photo a live cover names is stored in the cover's scope.
  lemma {:induction false} PhotosAreStored(steps: seq<Step>, k: Target, image: Id)
    requires var t := Exec(steps).tables; k in t.records && Names(t.records[k].record.value, image)
    ensures Target(k.scope, image) in Exec(steps).tables.images
  {
    EveryRunKeeps(steps);
  }

  lemma {:induction false} QuotaHolds(steps: seq<Step>, s: Scope)
    ensures |ImagesOf(Exec(steps).tables.images, s)| <= MAX_IMAGES_PER_SCOPE
  {
    EveryRunKeeps(steps);
  }

  // An image leaves only when no live cover of its scope names it and its grace period is over.
  lemma {:induction false} ImagesLeaveUnusedAndOld(steps: seq<Step>, step: Step, k: Target)
    requires k in Exec(steps).tables.images && k !in Next(Exec(steps), step).tables.images
    ensures var w := Exec(steps);
      !Used(w.tables.records, k) && w.tables.images[k] + UNUSED_IMAGE_GRACE < w.now
      && step.Commit? && step.t in w.txns && k.scope in w.txns[step.t].held
  {
    hide Exec, ReadPage, Used;
    EveryRunKeeps(steps);
    var w := Exec(steps);
    var x := w.txns[step.t];
    assert TxnOk(x);
    assert x.kind.PurgingImages? && k in x.kind.candidates;
    assert k.scope in ScopesOf(x.kind);
  }

  // When a purge commits, exactly those of its candidates go that are unused and past their grace
  // period, or past the retention of receipts.
  lemma {:induction false} PurgesExactly(steps: seq<Step>, t: Name, k: Target)
    requires var w := Exec(steps); t in w.txns && w.txns[t].want == []
    ensures var w := Exec(steps);
      var x := w.txns[t];
      var v := Next(w, Commit(t));
      && (x.kind.PurgingImages? && k in w.tables.images ==>
            (k !in v.tables.images <==>
               k in x.kind.candidates && !Used(w.tables.records, k) && w.tables.images[k] + 2 * 86_400 < x.started))
      && (x.kind.PurgingReceipts? && k in w.tables.receipts ==>
            (k !in v.tables.receipts <==>
               k in x.kind.candidates && w.tables.receipts[k].created + 30 * 86_400 < x.started))
  {
    hide Exec, Used;
  }

  // An upload that has its lock is stored, or stored again, as of its own time; only a new image of a
  // scope that holds 2,000 is refused.
  lemma {:induction false} UploadsExactly(steps: seq<Step>, t: Name)
    requires var w := Exec(steps); t in w.txns && w.txns[t].kind.Uploading? && w.txns[t].want == []
    ensures var w := Exec(steps);
      var x := w.txns[t];
      var k := Target(x.kind.scope, x.kind.image);
      var full := k !in w.tables.images && |ImagesOf(w.tables.images, x.kind.scope)| >= 2_000;
      Next(w, Commit(t)) == w.(
        txns := w.txns - {t},
        tables := w.tables.(images := if full then w.tables.images else w.tables.images[k := x.started]))
  {
    hide Exec, ImagesOf;
  }

  // A receipt leaves only in a purge, and only when it is older than thirty days; until then a retry
  // is answered from it.
  lemma {:induction false} ReceiptsStay(steps: seq<Step>, step: Step, k: Target)
    requires k in Exec(steps).tables.receipts
    requires Exec(steps).now <= Exec(steps).tables.receipts[k].created + 30 * 86_400
    ensures var w := Exec(steps);
      k in Next(w, step).tables.receipts && Next(w, step).tables.receipts[k] == w.tables.receipts[k]
  {
    hide Exec, ReadPage, Inv, Committed, Decide;
    EveryRunKeeps(steps);
    var w := Exec(steps);
    if step.Commit? && step.t in w.txns { CommitKeepsReceipt(w, step.t, k); }
  }

  lemma {:induction false} CommitKeepsReceipt(w: World, t: Name, k: Target)
    requires Inv(w) && t in w.txns && k in w.tables.receipts && w.now <= w.tables.receipts[k].created + 30 * 86_400
    ensures k in Committed(w, t).tables.receipts && Committed(w, t).tables.receipts[k] == w.tables.receipts[k]
  {
    hide Inv, Decide, Names;
    TxnFacts(w, t);
  }

  lemma TxnFacts(w: World, t: Name)
    requires Inv(w) && t in w.txns
    ensures w.txns[t].started <= w.now
    ensures w.txns[t].pending.Some? ==>
      w.txns[t].kind.Writing? && PendingOk(w.tables, w.txns[t].kind.scope, w.txns[t].kind.mutation, w.txns[t].pending.value)
  {
  }

  // ---------------------------------------------------------------- no deadlock

  predicate Waits(txns: map<Name, Txn>, t: Name) {
    t in txns && txns[t].want != [] && IsHeld(txns, txns[t].want[0])
  }

  // The scope a transaction asks for next.
  function Wanted(txns: map<Name, Txn>, t: Name): Scope {
    if t in txns && txns[t].want != [] then txns[t].want[0] else 0
  }

  ghost predicate Highest(txns: map<Name, Txn>, s: set<Name>, t: Name) {
    t in s && forall u :: u in s ==> Wanted(txns, u) <= Wanted(txns, t)
  }

  lemma {:induction false} SomeHighest(txns: map<Name, Txn>, s: set<Name>)
    requires s != {}
    ensures exists t :: Highest(txns, s, t)
    decreases |s|
  {
    hide Wanted;
    var x :| x in s;
    var rest := s - {x};
    assert s == rest + {x};
    if rest == {} {
      assert Highest(txns, s, x);
    } else {
      SomeHighest(txns, rest);
      var t :| Highest(txns, rest, t);
      assert Highest(txns, s, if Wanted(txns, t) < Wanted(txns, x) then x else t);
    }
  }

  // Locks are taken in order, so the waiter for the highest scope waits for one that does not
  // wait: there is no deadlock.
  lemma {:induction false} SomeTransactionMoves(steps: seq<Step>)
    requires Exec(steps).txns != map[]
    ensures var txns := Exec(steps).txns; exists t :: t in txns && !Waits(txns, t)
  {
    EveryRunKeeps(steps);
    NotAllWait(Exec(steps).txns);
  }

  lemma {:induction false} NotAllWait(txns: map<Name, Txn>)
    requires LocksInv(txns) && txns != map[]
    ensures exists t :: t in txns && !Waits(txns, t)
  {
    if forall t :: t in txns ==> Waits(txns, t) {
      SomeHighest(txns, txns.Keys);
      var t :| Highest(txns, txns.Keys, t);
      assert IsHeld(txns, Wanted(txns, t)) by { assert Waits(txns, t); }
      HolderWantsMore(txns, t);
    }
  }

  lemma {:induction false} HolderWantsMore(txns: map<Name, Txn>, t: Name)
    requires LocksInv(txns) && IsHeld(txns, Wanted(txns, t))
    ensures exists h :: h in txns && (txns[h].want == [] || Wanted(txns, t) < Wanted(txns, h))
  {
    var h :| h in txns && Wanted(txns, t) in txns[h].held;
    assert TxnOk(txns[h]);
    if txns[h].want != [] {
      assert txns[h].want[0] in txns[h].want;
      assert Wanted(txns, t) < Wanted(txns, h);
    }
    assert h in txns && (txns[h].want == [] || Wanted(txns, t) < Wanted(txns, h));
  }
}
