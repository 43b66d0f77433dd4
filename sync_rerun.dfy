/**
 * What running the current sync's batch a second time does to the store
 * the first run left. Each outgoing transaction reads its payment record as
 * the store held it when the batch started, and the record id is the
 * destination address of the payment label. When no two payments of the
 * batch share a record, the second run leaves every record as it was; two
 * payments from one wallet to one address share one, and the second run
 * rewrites it.
 */
module SyncRerun {
  import opened Values
  import opened Store
  import opened Ledger
  import opened SyncCommon
  import opened Sync
  import opened SyncProperties

  /** `wallets/{w}/outgoing_txs` for some wallet. */
  predicate IsOutgoingColl(c: Coll)
  {
    c.Sub? && c.parent == "wallets" && c.name == "outgoing_txs"
  }

  /** The writes of a batch other than those to payment records. */
  function WithoutPayments(ws: seq<Write>): seq<Write>
    decreases |ws|
  {
    if ws == [] then []
    else
      var init := WithoutPayments(ws[..|ws| - 1]);
      if IsOutgoingColl(ws[|ws| - 1].coll) then init else init + [ws[|ws| - 1]]
  }

  lemma {:induction false} WithoutPaymentsAppend(a: seq<Write>, b: seq<Write>)
    ensures WithoutPayments(a + b) == WithoutPayments(a) + WithoutPayments(b)
    decreases |b|
  {
    if b == [] {
      assert a + b == a;
    } else {
      assert (a + b)[..|a + b| - 1] == a + b[..|b| - 1];
      assert (a + b)[|a + b| - 1] == b[|b| - 1];
      WithoutPaymentsAppend(a, b[..|b| - 1]);
    }
  }

  /** Dropping the payment writes leaves the last write to every other
      document as it was, and none to a payment record. */
  lemma {:induction false} LastWriteWithoutPayments(ws: seq<Write>, c: Coll, id: string)
    ensures LastWrite(WithoutPayments(ws), c, id) == if IsOutgoingColl(c) then None else LastWrite(ws, c, id)
    decreases |ws|
  {
    if ws != [] {
      var init := WithoutPayments(ws[..|ws| - 1]);
      LastWriteWithoutPayments(ws[..|ws| - 1], c, id);
      if !IsOutgoingColl(ws[|ws| - 1].coll) {
        assert (init + [ws[|ws| - 1]])[..|init + [ws[|ws| - 1]]| - 1] == init;
      }
    }
  }

  lemma {:induction false} LastWriteAppend(a: seq<Write>, b: seq<Write>, c: Coll, id: string)
    ensures LastWrite(a + b, c, id) == if LastWrite(b, c, id).Some? then LastWrite(b, c, id) else LastWrite(a, c, id)
    decreases |b|
  {
    if b == [] {
      assert a + b == a;
    } else {
      assert (a + b)[..|a + b| - 1] == a + b[..|b| - 1];
      assert (a + b)[|a + b| - 1] == b[|b| - 1];
      LastWriteAppend(a, b[..|b| - 1], c, id);
    }
  }

  /** The writes one transaction adds, which do not depend on the cursors. */
  function TxWrites(st: Store, r: Relevant): seq<Write>
  {
    WritesOf(TxStep(st, r, Cursors(0, 0)))
  }

  lemma TxStepCursorFree(st: Store, r: Relevant, cur: Cursors)
    ensures TxStep(st, r, cur).Ok? == TxStep(st, r, Cursors(0, 0)).Ok?
    ensures TxStep(st, r, cur).Ok? ==> TxStep(st, r, cur).value.writes == TxWrites(st, r)
  {
  }

  function AllWrites(st: Store, rs: seq<Relevant>): seq<Write>
    decreases |rs|
  {
    if rs == [] then [] else AllWrites(st, rs[..|rs| - 1]) + TxWrites(st, rs[|rs| - 1])
  }

  /** A batch that goes through writes what each transaction writes, in order. */
  lemma {:induction false} FoldWrites(st: Store, rs: seq<Relevant>, cur: Cursors)
    requires BatchFold(st, rs, cur).Ok?
    ensures BatchFold(st, rs, cur).value.writes == AllWrites(st, rs)
    ensures forall i :: 0 <= i < |rs| ==> TxStep(st, rs[i], Cursors(0, 0)).Ok?
    decreases |rs|
  {
    if rs != [] {
      var init := rs[..|rs| - 1];
      assert BatchFold(st, rs, cur) == BatchFoldLast(st, rs, cur);
      FoldWrites(st, init, cur);
      TxStepCursorFree(st, rs[|rs| - 1], BatchFold(st, init, cur).value.cur);
      assert forall i :: 0 <= i < |init| ==> rs[i] == init[i];
    }
  }

  lemma {:induction false} NoLastWrite(st: Store, rs: seq<Relevant>, c: Coll, id: string)
    requires forall j :: 0 <= j < |rs| ==> LastWrite(TxWrites(st, rs[j]), c, id).None?
    ensures LastWrite(AllWrites(st, rs), c, id).None?
    decreases |rs|
  {
    if rs != [] {
      var init := rs[..|rs| - 1];
      assert forall j :: 0 <= j < |init| ==> init[j] == rs[j];
      NoLastWrite(st, init, c, id);
      LastWriteAppend(AllWrites(st, init), TxWrites(st, rs[|rs| - 1]), c, id);
    }
  }

  /** When only transaction i of a batch writes a document, that document
      ends as transaction i leaves it. */
  lemma {:induction false} LastWriteOfOne(st: Store, rs: seq<Relevant>, i: nat, c: Coll, id: string)
    requires i < |rs|
    requires forall j :: 0 <= j < |rs| && j != i ==> LastWrite(TxWrites(st, rs[j]), c, id).None?
    ensures LastWrite(AllWrites(st, rs), c, id) == LastWrite(TxWrites(st, rs[i]), c, id)
    decreases |rs|
  {
    var init := rs[..|rs| - 1];
    assert forall j :: 0 <= j < |init| ==> init[j] == rs[j];
    LastWriteAppend(AllWrites(st, init), TxWrites(st, rs[|rs| - 1]), c, id);
    if i == |rs| - 1 {
      NoLastWrite(st, init, c, id);
    } else {
      LastWriteOfOne(st, init, i, c, id);
    }
  }

  /** No two payments of the batch name the same record. */
  predicate DistinctPayments(rs: seq<Relevant>)
  {
    forall i, j :: 0 <= i < j < |rs| && rs[i].tx.amount < 0 && rs[j].tx.amount < 0 ==>
      PaymentTarget(rs[i].tx.labelText) != PaymentTarget(rs[j].tx.labelText)
  }

  /** The store holds the payment's record with the ledger's status, so the
      sync leaves it alone. */
  predicate CurrentRecord(st: Store, tx: RawTx)
  {
    && PaymentTarget(tx.labelText).Some?
    && var (w, p) := PaymentTarget(tx.labelText).value;
    && Lookup(st, OutgoingTxs(w), p).Some?
    && Get(Lookup(st, OutgoingTxs(w), p).value, "status") == Some(Str(StatusOf(tx.numConfirmations)))
  }

  lemma LastWriteOfStep(st: Store, r: Relevant, w: string, p: string)
    requires r.tx.amount < 0 && PaymentTarget(r.tx.labelText) == Some((w, p))
    ensures LastWrite(TxWrites(st, r), OutgoingTxs(w), p).Some? ==>
              Get(LastWrite(TxWrites(st, r), OutgoingTxs(w), p).value, "status") == Some(Str(StatusOf(r.tx.numConfirmations)))
    ensures LastWrite(TxWrites(st, r), OutgoingTxs(w), p).None? ==>
              Lookup(st, OutgoingTxs(w), p).Some? &&
              Get(Lookup(st, OutgoingTxs(w), p).value, "status") == Some(Str(StatusOf(r.tx.numConfirmations)))
  {
    var stored := Lookup(st, OutgoingTxs(w), p);
    var rec := if stored.Some? then stored.value else SynthesizedRecord(r.tx);
    if NeedsWrite(rec, StatusOf(r.tx.numConfirmations)) {
      var ws := [SetDoc(OutgoingTxs(w), p, UpdatedRecord(rec, r.tx))];
      assert TxWrites(st, r) == ws;
      assert ws[..0] == [];
    } else {
      assert TxWrites(st, r) == [];
      assert Get(SynthesizedRecord(r.tx), "status").None?;
    }
  }

  /** A transaction other than the payment (w, p) does not write its record. */
  lemma OtherStepMissesRecord(st: Store, r: Relevant, w: string, p: string)
    requires TxStep(st, r, Cursors(0, 0)).Ok?
    requires r.tx.amount < 0 ==> PaymentTarget(r.tx.labelText) != Some((w, p))
    ensures LastWrite(TxWrites(st, r), OutgoingTxs(w), p).None?
  {
    var ws := TxWrites(st, r);
    if ws != [] {
      assert |ws| == 1;
      assert ws[..0] == [];
    }
  }

  /** After a batch that goes through, each of its payments has its record
      with the ledger's status, provided no two of them share a record. */
  lemma FirstRunMakesRecordsCurrent(st: Store, rs: seq<Relevant>, cur: Cursors)
    requires DistinctPayments(rs)
    requires RunBatchSpec(st, rs, cur).Ok?
    ensures forall i :: 0 <= i < |rs| && rs[i].tx.amount < 0 ==> CurrentRecord(RunBatchSpec(st, rs, cur).value.st, rs[i].tx)
  {
    FoldWrites(st, rs, cur);
    var f := BatchFold(st, rs, cur).value;
    var st1 := RunBatchSpec(st, rs, cur).value.st;
    forall i | 0 <= i < |rs| && rs[i].tx.amount < 0
      ensures CurrentRecord(st1, rs[i].tx)
    {
      assert TxStep(st, rs[i], Cursors(0, 0)).Ok?;
      var (w, p) := PaymentTarget(rs[i].tx.labelText).value;
      forall j | 0 <= j < |rs| && j != i
        ensures LastWrite(TxWrites(st, rs[j]), OutgoingTxs(w), p).None?
      {
        assert TxStep(st, rs[j], Cursors(0, 0)).Ok?;
        OtherStepMissesRecord(st, rs[j], w, p);
      }
      LastWriteOfOne(st, rs, i, OutgoingTxs(w), p);
      LastWriteOfStep(st, rs[i], w, p);
      ApplyAllLookup(st, f.writes, OutgoingTxs(w), p);
    }
  }

  /** Over a store where every payment of the batch is current, the batch
      goes through again and writes only its incoming records. */
  lemma {:induction false} RerunFold(st: Store, st1: Store, rs: seq<Relevant>, cur: Cursors, cur1: Cursors)
    requires BatchFold(st, rs, cur).Ok?
    requires forall i :: 0 <= i < |rs| && rs[i].tx.amount < 0 ==> CurrentRecord(st1, rs[i].tx)
    ensures BatchFold(st1, rs, cur1).Ok?
    ensures BatchFold(st1, rs, cur1).value.writes == WithoutPayments(BatchFold(st, rs, cur).value.writes)
    decreases |rs|
  {
    if rs != [] {
      var init, last := rs[..|rs| - 1], rs[|rs| - 1];
      assert forall i :: 0 <= i < |init| ==> init[i] == rs[i];
      assert BatchFold(st, rs, cur) == BatchFoldLast(st, rs, cur);
      assert BatchFold(st1, rs, cur1) == BatchFoldLast(st1, rs, cur1);
      RerunFold(st, st1, init, cur, cur1);
      var a := BatchFold(st, init, cur).value;
      var a1 := BatchFold(st1, init, cur1).value;
      var s := TxStep(st, last, a.cur).value;
      WithoutPaymentsAppend(a.writes, s.writes);
      if last.tx.amount > 0 {
        assert s.writes[..0] == [];
        assert WithoutPayments(s.writes) == s.writes;
        assert TxStep(st1, last, a1.cur).value.writes == s.writes;
      } else if last.tx.amount < 0 {
        assert CurrentRecord(st1, last.tx);
        if s.writes != [] {
          assert s.writes[..0] == [];
        }
        assert WithoutPayments(s.writes) == [];
      }
    }
  }

  lemma DocsFromLookup(a: Store, b: Store, c: Coll)
    requires forall id :: Lookup(a, c, id) == Lookup(b, c, id)
    ensures Docs(a, c) == Docs(b, c)
  {
    forall id | id in Docs(a, c) || id in Docs(b, c)
      ensures id in Docs(a, c) && id in Docs(b, c) && Docs(a, c)[id] == Docs(b, c)[id]
    {
      assert Lookup(a, c, id) == Lookup(b, c, id);
    }
  }

  /** Running a batch again, from any cursors, over the store its first run
      left: when no two of its payments share a record, it goes through and
      every record is as the first run left it (incoming records are written
      again unchanged, payment records already carry the ledger status). The
      cursor document can differ, since a payment that needs no write leaves
      the cursors where they were. */
  lemma RerunBatchRecords(st: Store, rs: seq<Relevant>, cur: Cursors, cur2: Cursors)
    requires DistinctPayments(rs)
    requires RunBatchSpec(st, rs, cur).Ok?
    ensures var first := RunBatchSpec(st, rs, cur).value.st;
            var again := RunBatchSpec(first, rs, cur2);
            && again.Ok?
            && forall c :: c != Config ==> Docs(again.value.st, c) == Docs(first, c)
  {
    var f := BatchFold(st, rs, cur).value;
    var st1 := RunBatchSpec(st, rs, cur).value.st;
    FirstRunMakesRecordsCurrent(st, rs, cur);
    RerunFold(st, st1, rs, cur, cur2);
    var g := BatchFold(st1, rs, cur2).value;
    var st2 := RunBatchSpec(st1, rs, cur2).value.st;
    forall c | c != Config
      ensures Docs(st2, c) == Docs(st1, c)
    {
      forall id
        ensures Lookup(st2, c, id) == Lookup(st1, c, id)
      {
        ApplyAllLookup(st1, g.writes, c, id);
        ApplyAllLookup(st, f.writes, c, id);
        LastWriteWithoutPayments(f.writes, c, id);
      }
      DocsFromLookup(st2, st1, c);
    }
  }

  /** A payment from wallet W to address A, confirmed at block 105. */
  const SharedPayFirst := Relevant(RawTx("h1", -5000, [], 6, 105, 1, 10, PaymentLabel("W", "A")), None)

  /** A second payment from W to A, unconfirmed at block 110. */
  const SharedPaySecond := Relevant(RawTx("h2", -7000, [], 1, 110, 2, 20, PaymentLabel("W", "A")), None)

  /** A payment whose record is missing writes the made-up record, updated. */
  lemma FreshPaymentStep(st: Store, tx: RawTx, cur: Cursors, w: string, p: string)
    requires PaymentTarget(tx.labelText) == Some((w, p))
    requires Lookup(st, OutgoingTxs(w), p).None?
    ensures OutgoingStep(st, tx, cur) ==
              Ok(Step(OutgoingCursors(tx, cur), [SetDoc(OutgoingTxs(w), p, UpdatedRecord(SynthesizedRecord(tx), tx))]))
  {
    assert Get(SynthesizedRecord(tx), "status").None?;
  }

  lemma SharedFirstRun(st: Store)
    requires Lookup(st, OutgoingTxs("W"), "A").None?
    ensures BatchFold(st, [SharedPayFirst, SharedPaySecond], Cursors(100, -1)) ==
              Ok(Step(Cursors(105, 110),
                      [SetDoc(OutgoingTxs("W"), "A", UpdatedRecord(SynthesizedRecord(SharedPayFirst.tx), SharedPayFirst.tx)),
                       SetDoc(OutgoingTxs("W"), "A", UpdatedRecord(SynthesizedRecord(SharedPaySecond.tx), SharedPaySecond.tx))]))
  {
    PaymentLabelTarget("W", "A");
    var t1, t2 := SharedPayFirst, SharedPaySecond;
    var ot := OutgoingTxs("W");
    var w1 := SetDoc(ot, "A", UpdatedRecord(SynthesizedRecord(t1.tx), t1.tx));
    var w2 := SetDoc(ot, "A", UpdatedRecord(SynthesizedRecord(t2.tx), t2.tx));
    FreshPaymentStep(st, t1.tx, Cursors(100, -1), "W", "A");
    FreshPaymentStep(st, t2.tx, Cursors(105, -1), "W", "A");
    BatchFoldOne(st, t1, Cursors(100, -1));
    assert TxStep(st, t1, Cursors(100, -1)) == Ok(Step(Cursors(105, -1), [w1]));
    assert TxStep(st, t2, Cursors(105, -1)) == Ok(Step(Cursors(105, 110), [w2]));
    BatchFoldSnoc(st, [t1], t2, Cursors(100, -1), Cursors(105, -1), [w1]);
    assert [t1] + [t2] == [t1, t2];
    assert [w1] + [w2] == [w1, w2];
  }

  lemma SharedSecondRun(st: Store)
    requires Lookup(st, OutgoingTxs("W"), "A") == Some(UpdatedRecord(SynthesizedRecord(SharedPaySecond.tx), SharedPaySecond.tx))
    ensures BatchFold(st, [SharedPayFirst, SharedPaySecond], Cursors(100, -1)) ==
              Ok(Step(Cursors(105, -1),
                      [SetDoc(OutgoingTxs("W"), "A",
                              UpdatedRecord(UpdatedRecord(SynthesizedRecord(SharedPaySecond.tx), SharedPaySecond.tx), SharedPayFirst.tx))]))
  {
    PaymentLabelTarget("W", "A");
    var t1, t2 := SharedPayFirst, SharedPaySecond;
    var ot := OutgoingTxs("W");
    var r2 := UpdatedRecord(SynthesizedRecord(t2.tx), t2.tx);
    var w1 := SetDoc(ot, "A", UpdatedRecord(r2, t1.tx));
    assert Get(r2, "status") == Some(Str("UNCONFIRMED"));
    BatchFoldOne(st, t1, Cursors(100, -1));
    assert TxStep(st, t1, Cursors(100, -1)) == Ok(Step(Cursors(105, -1), [w1]));
    assert TxStep(st, t2, Cursors(105, -1)) == Ok(Step(Cursors(105, -1), []));
    BatchFoldSnoc(st, [t1], t2, Cursors(100, -1), Cursors(105, -1), [w1]);
    assert [t1] + [t2] == [t1, t2];
    assert [w1] + [] == [w1];
  }

  /** The record the first run leaves: the second payment's, made up and
      marked UNCONFIRMED. */
  function SharedRecordAfterFirst(): Doc
  {
    UpdatedRecord(SynthesizedRecord(SharedPaySecond.tx), SharedPaySecond.tx)
  }

  /** The record the second run leaves: the first payment's refresh of it. */
  function SharedRecordAfterAgain(): Doc
  {
    UpdatedRecord(SharedRecordAfterFirst(), SharedPayFirst.tx)
  }

  lemma SharedRecordFields()
    ensures Get(SharedRecordAfterFirst(), "status") == Some(Str("UNCONFIRMED"))
    ensures Get(SharedRecordAfterAgain(), "status") == Some(Str("CONFIRMED"))
    ensures Get(SharedRecordAfterAgain(), "fee") == Some(Num(10))
  {
  }

  lemma SharedFirstRunStore(st: Store)
    requires Lookup(st, OutgoingTxs("W"), "A").None?
    ensures var first := RunBatchSpec(st, [SharedPayFirst, SharedPaySecond], Cursors(100, -1));
            && first.Ok?
            && first.value.out.updatedBlockHeight == 110
            && Lookup(first.value.st, OutgoingTxs("W"), "A") == Some(SharedRecordAfterFirst())
  {
    var ot := OutgoingTxs("W");
    SharedFirstRun(st);
    var ws := [SetDoc(ot, "A", UpdatedRecord(SynthesizedRecord(SharedPayFirst.tx), SharedPayFirst.tx)),
               SetDoc(ot, "A", SharedRecordAfterFirst())];
    ApplyAllLookup(st, ws, ot, "A");
    assert ws[..1] == [ws[0]];
    assert LastWrite(ws, ot, "A") == Some(SharedRecordAfterFirst());
  }

  lemma SharedSecondRunStore(st: Store)
    requires Lookup(st, OutgoingTxs("W"), "A") == Some(SharedRecordAfterFirst())
    ensures var again := RunBatchSpec(st, [SharedPayFirst, SharedPaySecond], Cursors(100, -1));
            && again.Ok?
            && again.value.out.updatedBlockHeight == 106
            && Lookup(again.value.st, OutgoingTxs("W"), "A") == Some(SharedRecordAfterAgain())
  {
    var ot := OutgoingTxs("W");
    SharedSecondRun(st);
    var ws := [SetDoc(ot, "A", SharedRecordAfterAgain())];
    ApplyAllLookup(st, ws, ot, "A");
    assert ws[..0] == [];
    assert LastWrite(ws, ot, "A") == Some(SharedRecordAfterAgain());
  }

  /** Two payments from wallet W to address A share the record
      `wallets/W/outgoing_txs/A`, and each reads it as the batch found it.
      The first, confirmed at block 105, and the second, unconfirmed at block
      110, both find no record: the batch leaves the second one's record,
      UNCONFIRMED, and cursor 110. Running the same batch again, the first
      now finds that UNCONFIRMED record and rewrites it as CONFIRMED with its
      own fee, the second finds its status unchanged and writes nothing, and
      the cursor becomes 106. */
  lemma RerunSharedPaymentRecord(st: Store)
    requires Lookup(st, OutgoingTxs("W"), "A").None?
    ensures !DistinctPayments([SharedPayFirst, SharedPaySecond])
    ensures var first := RunBatchSpec(st, [SharedPayFirst, SharedPaySecond], Cursors(100, -1));
            && first.Ok?
            && first.value.out.updatedBlockHeight == 110
            && Lookup(first.value.st, OutgoingTxs("W"), "A").Some?
            && Get(Lookup(first.value.st, OutgoingTxs("W"), "A").value, "status") == Some(Str("UNCONFIRMED"))
            && var again := RunBatchSpec(first.value.st, [SharedPayFirst, SharedPaySecond], Cursors(100, -1));
            && again.Ok?
            && again.value.out.updatedBlockHeight == 106
            && Lookup(again.value.st, OutgoingTxs("W"), "A").Some?
            && Get(Lookup(again.value.st, OutgoingTxs("W"), "A").value, "status") == Some(Str("CONFIRMED"))
            && Get(Lookup(again.value.st, OutgoingTxs("W"), "A").value, "fee") == Some(Num(10))
  {
    var rs := [SharedPayFirst, SharedPaySecond];
    assert rs[0].tx.labelText == rs[1].tx.labelText;
    SharedRecordFields();
    SharedFirstRunStore(st);
    SharedSecondRunStore(RunBatchSpec(st, rs, Cursors(100, -1)).value.st);
  }
}
