/**
 * What the current sync run guarantees, and where it falls short: the
 * shape of the records it writes, how the cursor moves inside a batch and
 * across batches, which parts of the store it leaves alone, and what a
 * second run over the same incoming transactions does.
 */
module SyncProperties {
  import opened Values
  import opened Store
  import opened Ledger
  import opened Batching
  import opened SyncCommon
  import opened Aggregates
  import opened Sync

  // ---------------------------------------------------------------------
  // Records.
  // ---------------------------------------------------------------------

  /** The incoming record is written, overwriting, at (address, tx_hash); the
      address fold counts it as confirmed exactly when it has six
      confirmations, with the ledger amount. An untagged transaction or an
      empty hash fails. */
  lemma IncomingStepWrites(tx: RawTx, address: Option<string>, cur: Cursors)
    ensures IncomingStep(tx, address, cur).Err? <==> address.None? || address.value == "" || tx.txHash == ""
    ensures IncomingStep(tx, address, cur).Ok? ==>
              |IncomingStep(tx, address, cur).value.writes| == 1 &&
              IncomingStep(tx, address, cur).value.writes[0].coll == IncomingTxs(address.value) &&
              IncomingStep(tx, address, cur).value.writes[0].id == tx.txHash &&
              (IsConfirmedDoc(IncomingStep(tx, address, cur).value.writes[0].doc) <==> tx.numConfirmations >= 6) &&
              FieldAmount("amount")(IncomingStep(tx, address, cur).value.writes[0].doc) == Finite(tx.amount) &&
              Get(IncomingStep(tx, address, cur).value.writes[0].doc, "block_height") == Some(Num(tx.blockHeight))
  {
    if IncomingStep(tx, address, cur).Ok? {
      var d := IncomingRecord(tx, address.value);
      assert Get(d, "status") == Some(Str(StatusOf(tx.numConfirmations)));
      assert Get(d, "amount") == Some(Num(tx.amount));
    }
  }

  /** The record an outgoing transaction is matched against: the stored one,
      or the synthesized one when there is none. */
  function MatchedRecord(st: Store, tx: RawTx, walletId: string, paymentId: string): Doc
  {
    var stored := Lookup(st, OutgoingTxs(walletId), paymentId);
    if stored.Some? then stored.value else SynthesizedRecord(tx)
  }

  /** An outgoing transaction fails exactly when its label does not name a
      wallet and a record. Otherwise its record is written iff the stored
      status differs from the ledger status (a NEW record always differs):
      on a write the status, fee and timestamp are refreshed, the block
      height is set when confirmed or when known, and every other field is
      kept; without a write the cursor variables do not move. */
  lemma OutgoingStepWrites(st: Store, tx: RawTx, cur: Cursors)
    ensures OutgoingStep(st, tx, cur).Err? <==> PaymentTarget(tx.labelText).None?
    ensures PaymentTarget(tx.labelText).Some? ==>
      var (w, p) := PaymentTarget(tx.labelText).value;
      var rec := MatchedRecord(st, tx, w, p);
      var s := OutgoingStep(st, tx, cur).value;
      && (s.writes == [] <==> Get(rec, "status") == Some(Str(StatusOf(tx.numConfirmations))))
      && (s.writes == [] ==> s.cur == cur)
      && (s.writes != [] ==>
            && |s.writes| == 1 && s.writes[0].coll == OutgoingTxs(w) && s.writes[0].id == p
            && var d := s.writes[0].doc;
            && Get(d, "status") == Some(Str(StatusOf(tx.numConfirmations)))
            && Get(d, "fee") == Some(Num(tx.totalFees))
            && Get(d, "timestamp") == Some(Time(LedgerTime(tx)))
            && (tx.numConfirmations >= 6 || tx.blockHeight > 0 ==> Get(d, "block_height") == Some(Num(tx.blockHeight)))
            && (tx.numConfirmations < 6 && tx.blockHeight <= 0 ==> Get(d, "block_height") == Get(rec, "block_height"))
            && (forall k :: k in rec && k !in {"status", "fee", "timestamp", "block_height"} ==> k in d && d[k] == rec[k])
            && d.Keys <= rec.Keys + {"status", "fee", "timestamp", "block_height"})
  {
    if PaymentTarget(tx.labelText).Some? {
      var (w, p) := PaymentTarget(tx.labelText).value;
      var rec := MatchedRecord(st, tx, w, p);
      assert StatusOf(tx.numConfirmations) != "NEW";
      assert NeedsWrite(rec, StatusOf(tx.numConfirmations)) <==> Get(rec, "status") != Some(Str(StatusOf(tx.numConfirmations)));
    }
  }

  /** A payment the store already holds as CONFIRMED is written back as
      UNCONFIRMED when the ledger reports fewer than six confirmations. */
  lemma ConfirmedCanRegress(st: Store, tx: RawTx, cur: Cursors, w: string, p: string)
    requires PaymentTarget(tx.labelText) == Some((w, p))
    requires Lookup(st, OutgoingTxs(w), p).Some? && Get(Lookup(st, OutgoingTxs(w), p).value, "status") == Some(Str("CONFIRMED"))
    requires tx.numConfirmations < 6
    ensures OutgoingStep(st, tx, cur).Ok?
    ensures OutgoingStep(st, tx, cur).value.writes != []
    ensures Get(OutgoingStep(st, tx, cur).value.writes[0].doc, "status") == Some(Str("UNCONFIRMED"))
  {
    OutgoingStepWrites(st, tx, cur);
  }

  /** A payment with no stored record gets one with the placeholder fields
      and the amount net of fees. */
  lemma MissingPaymentIsSynthesized(st: Store, tx: RawTx, cur: Cursors, w: string, p: string)
    requires PaymentTarget(tx.labelText) == Some((w, p))
    requires Lookup(st, OutgoingTxs(w), p).None?
    ensures OutgoingStep(st, tx, cur).Ok? && |OutgoingStep(st, tx, cur).value.writes| == 1
    ensures var d := OutgoingStep(st, tx, cur).value.writes[0].doc;
            Get(d, "to_address") == Some(Str("UNKNOWN")) && Get(d, "created") == Some(Str("UNKNOWN")) &&
            Get(d, "amount") == Some(Num(Abs(tx.amount) - tx.totalFees)) && Get(d, "txid") == Some(Str(tx.txHash))
  {
    var rec := SynthesizedRecord(tx);
    assert Get(rec, "status").None?;
    assert NeedsWrite(rec, StatusOf(tx.numConfirmations));
    assert OutgoingStep(st, tx, cur) == Ok(Step(OutgoingCursors(tx, cur), [SetDoc(OutgoingTxs(w), p, UpdatedRecord(rec, tx))]));
  }

  /** The label `makePayment` broadcasts names the paying wallet and the
      destination address; the sync takes that address as the record id
      under `outgoing_txs`, so two payments from one wallet to one address
      update the same record, and the record `makePayment` itself stores
      under `transactions` is never the one matched. */
  lemma PaymentLabelTarget(walletId: string, address: string)
    requires walletId != "" && address != ""
    requires ':' !in walletId && ':' !in address
    ensures PaymentTarget(PaymentLabel(walletId, address)) == Some((walletId, address))
    ensures StartsWith(PaymentLabel(walletId, address), "payment")
    ensures OutgoingTxs(walletId) != Transactions(walletId)
  {
    PaymentLabelSplits(walletId, address);
  }

  // ---------------------------------------------------------------------
  // Cursors within a batch.
  // ---------------------------------------------------------------------

  /** Running a batch over `a + b` is running it over `a` and then over `b`
      from where `a` left the cursors. */
  function Continue(st: Store, r: Result<Step>, b: seq<Relevant>): Result<Step>
  {
    if r.Err? then r
    else
      var q := BatchFold(st, b, r.value.cur);
      if q.Err? then q else Ok(Step(q.value.cur, r.value.writes + q.value.writes))
  }

  lemma {:induction false} BatchFoldAppend(st: Store, a: seq<Relevant>, b: seq<Relevant>, cur: Cursors)
    ensures BatchFold(st, a + b, cur) == Continue(st, BatchFold(st, a, cur), b)
    decreases |b|
  {
    if b == [] {
      assert a + b == a;
      var r := BatchFold(st, a, cur);
      if r.Ok? {
        assert r.value.writes + [] == r.value.writes;
      }
    } else {
      var b' := b[..|b| - 1];
      var last := b[|b| - 1];
      assert (a + b)[..|a + b| - 1] == a + b';
      assert (a + b)[|a + b| - 1] == last;
      assert BatchFold(st, a + b, cur) == BatchFoldLast(st, a + b, cur);
      BatchFoldAppend(st, a, b', cur);
      var r := BatchFold(st, a, cur);
      if r.Ok? {
        assert BatchFold(st, b, r.value.cur) == BatchFoldLast(st, b, r.value.cur);
        var q' := BatchFold(st, b', r.value.cur);
        if q'.Ok? {
          var t := TxStep(st, last, q'.value.cur);
          if t.Ok? {
            assert r.value.writes + (q'.value.writes + t.value.writes) == (r.value.writes + q'.value.writes) + t.value.writes;
          }
        }
      }
    }
  }

  /** Once an earliest unconfirmed block is set, nothing later in the batch
      changes it. */
  lemma {:induction false} StickyEarliest(st: Store, rs: seq<Relevant>, cur: Cursors)
    requires cur.earliest > 0
    ensures BatchFold(st, rs, cur).Ok? ==> BatchFold(st, rs, cur).value.cur.earliest == cur.earliest
    decreases |rs|
  {
    if rs != [] {
      StickyEarliest(st, rs[..|rs| - 1], cur);
    }
  }

  predicate IncomingOk(r: Relevant)
  {
    r.tx.amount > 0 && r.address.Some? && r.address.value != "" && r.tx.txHash != ""
  }

  /** The first unconfirmed incoming transaction of a batch with a known block
      fixes the earliest unconfirmed block for the rest of the batch. */
  lemma FirstUnconfirmedWins(st: Store, r: Relevant, rest: seq<Relevant>, cur: Cursors)
    requires IncomingOk(r) && r.tx.numConfirmations < 6 && r.tx.blockHeight > 0
    ensures BatchFold(st, [r] + rest, cur).Ok? ==>
              BatchFold(st, [r] + rest, cur).value.cur.earliest ==
                (if cur.earliest > 0 then cur.earliest else r.tx.blockHeight)
  {
    BatchFoldAppend(st, [r], rest, cur);
    BatchFoldOne(st, r, cur);
    var c1 := BatchFold(st, [r], cur).value.cur;
    StickyEarliest(st, rest, c1);
  }

  /** An unconfirmed incoming transaction still in the mempool (block 0)
      leaves an unset earliest block at -1. */
  lemma MempoolLeavesEarliestUnset(st: Store, r: Relevant, cur: Cursors)
    requires IncomingOk(r) && r.tx.numConfirmations < 6 && r.tx.blockHeight <= 0
    requires cur.earliest <= 0
    ensures BatchFold(st, [r], cur).Ok? && BatchFold(st, [r], cur).value.cur.earliest == -1
  {
    BatchFoldOne(st, r, cur);
  }

  predicate ConfirmedIncoming(r: Relevant)
  {
    IncomingOk(r) && r.tx.numConfirmations >= 6
  }

  /** A batch of confirmed incoming transactions succeeds and ends with the
      block of its last transaction as the last confirmed block, however the
      blocks are ordered. */
  lemma {:induction false} LastConfirmedIsLast(st: Store, rs: seq<Relevant>, cur: Cursors)
    requires forall i :: 0 <= i < |rs| ==> ConfirmedIncoming(rs[i])
    ensures BatchFold(st, rs, cur).Ok?
    ensures BatchFold(st, rs, cur).value.cur ==
              (if rs == [] then cur else Cursors(rs[|rs| - 1].tx.blockHeight, cur.earliest))
    decreases |rs|
  {
    if rs != [] {
      LastConfirmedIsLast(st, rs[..|rs| - 1], cur);
    }
  }

  /** So the last confirmed block is not the highest one: blocks 110 then
      105 leave 105, and the next sync starts at 106. */
  lemma LastConfirmedNotMax(st: Store, h: int)
    ensures var a := Relevant(RawTx("a", 1, ["x"], 6, 110, 0, 0, ""), Some("x"));
            var b := Relevant(RawTx("b", 1, ["x"], 6, 105, 0, 0, ""), Some("x"));
            RunBatchSpec(st, [a, b], Cursors(h, -1)).Ok? &&
            RunBatchSpec(st, [a, b], Cursors(h, -1)).value.out.updatedBlockHeight == 106
  {
    var a := Relevant(RawTx("a", 1, ["x"], 6, 110, 0, 0, ""), Some("x"));
    var b := Relevant(RawTx("b", 1, ["x"], 6, 105, 0, 0, ""), Some("x"));
    LastConfirmedIsLast(st, [a, b], Cursors(h, -1));
  }

  /** A batch whose transactions all have amount 0 writes only the cursor,
      and the cursor still moves one block on when no unconfirmed block is
      set. */
  lemma IdleBatchAdvancesCursor(st: Store, rs: seq<Relevant>, cur: Cursors)
    requires forall i :: 0 <= i < |rs| ==> rs[i].tx.amount == 0
    ensures BatchFold(st, rs, cur) == Ok(Step(cur, []))
    ensures RunBatchSpec(st, rs, cur) ==
              Ok(BatchDone(Put(st, Config, SyncDocId, CursorDoc(NextCursor(cur))), BatchOut(NextCursor(cur), cur.earliest)))
  {
    IdleFold(st, rs, cur);
  }

  lemma {:induction false} IdleFold(st: Store, rs: seq<Relevant>, cur: Cursors)
    requires forall i :: 0 <= i < |rs| ==> rs[i].tx.amount == 0
    ensures BatchFold(st, rs, cur) == Ok(Step(cur, []))
    decreases |rs|
  {
    if rs != [] {
      var init := rs[..|rs| - 1];
      assert forall i :: 0 <= i < |init| ==> init[i] == rs[i];
      IdleFold(st, init, cur);
      assert rs[|rs| - 1].tx.amount == 0;
      assert TxStep(st, rs[|rs| - 1], cur) == Ok(Step(cur, []));
      var none: seq<Write> := [];
      assert none + none == none;
    }
  }

  // ---------------------------------------------------------------------
  // What a batch and a run write.
  // ---------------------------------------------------------------------

  /** The record collections a batch writes to. */
  predicate RecordColl(c: Coll)
  {
    c.Sub? && ((c.parent == "addresses" && c.name == "incoming_txs") || (c.parent == "wallets" && c.name == "outgoing_txs"))
  }

  lemma {:induction false} BatchFoldWritesRecords(st: Store, rs: seq<Relevant>, cur: Cursors)
    ensures BatchFold(st, rs, cur).Ok? ==>
              forall i :: 0 <= i < |BatchFold(st, rs, cur).value.writes| ==> RecordColl(BatchFold(st, rs, cur).value.writes[i].coll)
    decreases |rs|
  {
    if rs != [] {
      assert BatchFold(st, rs, cur) == BatchFoldLast(st, rs, cur);
      BatchFoldWritesRecords(st, rs[..|rs| - 1], cur);
    }
  }

  /** A committed batch changes record collections and the cursor document
      only, and the cursor document then holds the height it returns. */
  lemma RunBatchEffect(st: Store, rs: seq<Relevant>, cur: Cursors)
    ensures RunBatchSpec(st, rs, cur).Ok? ==>
              var b := RunBatchSpec(st, rs, cur).value;
              && Lookup(b.st, Config, SyncDocId) == Some(CursorDoc(b.out.updatedBlockHeight))
              && CurrentBlockHeight(b.st) == b.out.updatedBlockHeight
              && (forall id :: id != SyncDocId ==> Lookup(b.st, Config, id) == Lookup(st, Config, id))
              && (forall c :: !RecordColl(c) && c != Config ==> Docs(b.st, c) == Docs(st, c))
  {
    var f := BatchFold(st, rs, cur);
    if f.Ok? {
      var init := f.value.writes;
      BatchFoldWritesRecords(st, rs, cur);
      forall c | !RecordColl(c) && c != Config
        ensures Docs(ApplyAll(st, init), c) == Docs(st, c)
      {
        ApplyAllFrame(st, init, c);
      }
      ApplyAllFrame(st, init, Config);
    }
  }

  /** The run: each batch as above; at the end the cursor document holds the
      height the run ends with, whether or not a batch failed. */
  lemma {:induction false} RunsEffect(st: Store, rs: seq<Relevant>, n: nat, run: nat, updated: int, earliest: int, field: string)
    requires n == NumberOfRuns(|rs|)
    requires CurrentBlockHeight(st) == updated
    ensures var e := Runs(st, rs, run, updated, earliest, field);
            && CurrentBlockHeight(e.st) == e.updated
            && (forall id :: id != SyncDocId ==> Lookup(e.st, Config, id) == Lookup(st, Config, id))
            && (forall c :: !RecordColl(c) && c != Config ==> Docs(e.st, c) == Docs(st, c))
    decreases n - run
  {
    if run < n {
      var slice := RunSlice(rs, run);
      var b := RunBatchSpec(st, slice, Cursors(updated, earliest));
      RunBatchEffect(st, slice, Cursors(updated, earliest));
      if b.Ok? {
        RunsEffect(b.value.st, rs, n, run + 1, b.value.out.updatedBlockHeight, Carried(b.value.out, field), field);
      }
    }
  }

  /** A sync changes only the incoming and outgoing record collections and
      the cursor document; wallets, addresses, users, the `transactions`
      collections and the other configuration documents are left as they
      were. The cursor document always holds the height the run reports. */
  lemma SyncEffect(st: Store, ledger: seq<RawTx>, active: bool, field: string)
    ensures var e := SyncSpec(st, ledger, active, field);
            && CurrentBlockHeight(e.st) == e.updated
            && (forall id :: id != SyncDocId ==> Lookup(e.st, Config, id) == Lookup(st, Config, id))
            && (forall c :: !RecordColl(c) && c != Config ==> Docs(e.st, c) == Docs(st, c))
  {
    var known := Docs(st, Addresses).Keys;
    if !(known == {} && Docs(st, Wallets) == map[]) && active {
      var rs := RelevantList(Reverse(ledger), known, true);
      if NumberOfRuns(|rs|) > 0 {
        RunsEffect(st, rs, NumberOfRuns(|rs|), 0, CurrentBlockHeight(st), -1, field);
      }
    }
  }

  /** The early exits: with no addresses and no wallets the run returns at
      once; with the node down it fails with ABORTED; in both cases nothing
      is written. With nothing relevant it rewrites the cursor with the
      height it read. */
  lemma SyncEarlyExits(st: Store, ledger: seq<RawTx>, active: bool, field: string)
    ensures Docs(st, Addresses) == map[] && Docs(st, Wallets) == map[] ==>
              SyncSpec(st, ledger, active, field) == SyncEnd(st, CurrentBlockHeight(st), None)
    ensures (Docs(st, Addresses) != map[] || Docs(st, Wallets) != map[]) && !active ==>
              SyncSpec(st, ledger, active, field) == SyncEnd(st, CurrentBlockHeight(st), Some(Aborted))
    ensures (Docs(st, Addresses) != map[] || Docs(st, Wallets) != map[]) && active &&
            RelevantList(Reverse(ledger), Docs(st, Addresses).Keys, true) == [] ==>
              SyncSpec(st, ledger, active, field).st == Put(st, Config, SyncDocId, CursorDoc(CurrentBlockHeight(st))) &&
              SyncSpec(st, ledger, active, field).failure == None
  {
    var m := Docs(st, Addresses);
    if m != map[] {
      var k :| k in m;
      assert k in m.Keys;
    }
  }

  // ---------------------------------------------------------------------
  // Running again.
  // ---------------------------------------------------------------------

  /** Incoming and zero-amount transactions do not read the store. */
  lemma {:induction false} IncomingFoldIgnoresStore(st1: Store, st2: Store, rs: seq<Relevant>, cur: Cursors)
    requires forall i :: 0 <= i < |rs| ==> rs[i].tx.amount >= 0
    ensures BatchFold(st1, rs, cur) == BatchFold(st2, rs, cur)
    decreases |rs|
  {
    if rs != [] {
      IncomingFoldIgnoresStore(st1, st2, rs[..|rs| - 1], cur);
    }
  }

  /** Running a batch of incoming transactions a second time, from the same
      cursors, over the store the first run left, changes nothing: the same
      records and the same cursor are written again. */
  lemma RerunIncomingBatch(st: Store, rs: seq<Relevant>, cur: Cursors)
    requires forall i :: 0 <= i < |rs| ==> rs[i].tx.amount >= 0
    requires RunBatchSpec(st, rs, cur).Ok?
    ensures RunBatchSpec(RunBatchSpec(st, rs, cur).value.st, rs, cur) == RunBatchSpec(st, rs, cur)
  {
    var b := RunBatchSpec(st, rs, cur).value;
    IncomingFoldIgnoresStore(st, b.st, rs, cur);
    var s := BatchFold(st, rs, cur).value;
    var ws := s.writes + [CursorWrite(s.cur)];
    ApplyAllSnoc(st, s.writes, CursorWrite(s.cur));
    ApplyAllSnoc(b.st, s.writes, CursorWrite(s.cur));
    ApplyAllTwice(st, ws);
  }

  // ---------------------------------------------------------------------
  // The carry between batches.
  // ---------------------------------------------------------------------

  /** The field `runBatch` actually returns the earliest block under. */
  const CorrectedField := "earliestBlockWithUnconfirmed"

  /** With the carry read from the field `runBatch` returns, an earliest
      unconfirmed block found in one batch is where the next sync starts,
      however many batches follow. */
  lemma {:induction false} CorrectedCarryKeepsEarliest(st: Store, rs: seq<Relevant>, n: nat, run: nat, updated: int, earliest: int)
    requires n == NumberOfRuns(|rs|)
    requires earliest > 0 && run < n
    ensures Runs(st, rs, run, updated, earliest, CorrectedField).failure.None? ==>
              Runs(st, rs, run, updated, earliest, CorrectedField).updated == earliest
    decreases n - run
  {
    var next := CorrectedCarryStep(st, rs, run, updated, earliest);
    if next.Some? {
      CorrectedCarryKeepsEarliest(next.value, rs, n, run + 1, earliest, earliest);
    }
  }

  /** One batch of the corrected run: the run stops here (failing, or
      ending at the earliest block), or it goes on from the next batch, in
      the store this one committed, with the earliest block as both cursors. */
  lemma CorrectedCarryStep(st: Store, rs: seq<Relevant>, run: nat, updated: int, earliest: int) returns (next: Option<Store>)
    requires earliest > 0 && run < NumberOfRuns(|rs|)
    ensures next.None? ==>
              (Runs(st, rs, run, updated, earliest, CorrectedField).failure.None? ==>
                 Runs(st, rs, run, updated, earliest, CorrectedField).updated == earliest)
    ensures next.Some? ==>
              run + 1 < NumberOfRuns(|rs|) &&
              Runs(st, rs, run, updated, earliest, CorrectedField) == Runs(next.value, rs, run + 1, earliest, earliest, CorrectedField)
  {
    RunsStep(st, rs, run, updated, earliest, CorrectedField);
    BatchKeepsEarliest(st, RunSlice(rs, run), updated, earliest);
    var b := RunBatchSpec(st, RunSlice(rs, run), Cursors(updated, earliest));
    next := if b.Ok? && run + 1 < NumberOfRuns(|rs|) then Some(b.value.st) else None;
  }

  /** A batch entered with an earliest unconfirmed block ends there and
      hands it on under the returned field. */
  lemma BatchKeepsEarliest(st: Store, rs: seq<Relevant>, updated: int, earliest: int)
    requires earliest > 0
    ensures RunBatchSpec(st, rs, Cursors(updated, earliest)).Ok? ==>
              RunBatchSpec(st, rs, Cursors(updated, earliest)).value.out == BatchOut(earliest, earliest) &&
              Carried(RunBatchSpec(st, rs, Cursors(updated, earliest)).value.out, CorrectedField) == earliest
  {
    StickyEarliest(st, rs, Cursors(updated, earliest));
  }

  /** The confirmed transactions of the example below: one unit at block
      105 to a known address, the i-th with a hash of its own. */
  function ConfirmedAt105(i: nat): (r: Relevant)
    ensures ConfirmedIncoming(r) && r.tx.blockHeight == 105 && |r.tx.txHash| == i + 1
  {
    Relevant(RawTx(seq(i + 1, _ => 'c'), 1, ["x"], 6, 105, 0, 0, ""), Some("x"))
  }

  /** The run as written reads a field `runBatch` does not return, so it
      carries "undefined" into every batch. Over 301 incoming transactions,
      the first unconfirmed at block 100 and the 300 others, all distinct,
      confirmed at block 105, the first batch ends at 100 but the second,
      having lost that, at 106: the next sync starts past the unconfirmed
      transaction's block. Carrying the returned field ends at 100. */
  lemma CarryDropsEarliest(st: Store, h: int)
    ensures forall out :: Carried(out, CarriedField) == Undefined
    ensures forall i, j :: 0 <= i < j < 300 ==> ConfirmedAt105(i).tx.txHash != ConfirmedAt105(j).tx.txHash
    ensures var u := Relevant(RawTx("u", 1, ["x"], 0, 100, 0, 0, ""), Some("x"));
            var rs := [u] + seq(300, i requires 0 <= i => ConfirmedAt105(i));
            && Runs(st, rs, 0, h, -1, CarriedField).failure == None
            && Runs(st, rs, 0, h, -1, CarriedField).updated == 106
            && Runs(st, rs, 0, h, -1, CorrectedField).failure == None
            && Runs(st, rs, 0, h, -1, CorrectedField).updated == 100
  {
    var u := Relevant(RawTx("u", 1, ["x"], 0, 100, 0, 0, ""), Some("x"));
    var cs := seq(300, i requires 0 <= i => ConfirmedAt105(i));
    var rs := [u] + cs;
    assert NumberOfRuns(|rs|) == 2;
    RunSliceIsSlice(rs, 0);
    RunSliceIsSlice(rs, 1);
    assert RunEnd(0, 301) == 300;
    assert RunSlice(rs, 0) == rs[RunStart(0)..RunEnd(0, 301)] == [u] + cs[..299];
    assert RunSlice(rs, 1) == rs[RunStart(1)..RunEnd(1, 301)] == [cs[299]];
    CarryFirstBatch(st, h, u, cs[..299]);
    var b0 := RunBatchSpec(st, [u] + cs[..299], Cursors(h, -1));
    assert Carried(b0.value.out, CarriedField) == -1;
    assert Carried(b0.value.out, CorrectedField) == 100;
    RunsStep(st, rs, 0, h, -1, CarriedField);
    RunsStep(st, rs, 0, h, -1, CorrectedField);
    var st1 := b0.value.st;
    CarrySecondBatch(st1, cs[299]);
    RunsStep(st1, rs, 1, 100, -1, CarriedField);
    RunsStep(st1, rs, 1, 100, 100, CorrectedField);
  }

  /** The first batch of that example: the unconfirmed transaction sets the
      earliest block, the confirmed ones after it move only the last
      confirmed block, and the batch reports 100 for both. */
  lemma CarryFirstBatch(st: Store, h: int, u: Relevant, cs: seq<Relevant>)
    requires u == Relevant(RawTx("u", 1, ["x"], 0, 100, 0, 0, ""), Some("x"))
    requires forall i :: 0 <= i < |cs| ==> ConfirmedIncoming(cs[i]) && cs[i].tx.blockHeight == 105
    ensures var b0 := RunBatchSpec(st, [u] + cs, Cursors(h, -1));
            b0.Ok? && b0.value.out == BatchOut(100, 100)
  {
    BatchFoldAppend(st, [u], cs, Cursors(h, -1));
    BatchFoldOne(st, u, Cursors(h, -1));
    assert BatchFold(st, [u], Cursors(h, -1)).value.cur == Cursors(h, 100);
    LastConfirmedIsLast(st, cs, Cursors(h, 100));
  }

  /** The second batch of that example, one confirmed transaction at block
      105: from an unset earliest block it reports 106, from 100 it keeps 100. */
  lemma CarrySecondBatch(st: Store, c: Relevant)
    requires ConfirmedIncoming(c) && c.tx.blockHeight == 105
    ensures RunBatchSpec(st, [c], Cursors(100, -1)).Ok?
    ensures RunBatchSpec(st, [c], Cursors(100, -1)).value.out.updatedBlockHeight == 106
    ensures RunBatchSpec(st, [c], Cursors(100, 100)).Ok?
    ensures RunBatchSpec(st, [c], Cursors(100, 100)).value.out.updatedBlockHeight == 100
  {
    LastConfirmedIsLast(st, [c], Cursors(100, -1));
    LastConfirmedIsLast(st, [c], Cursors(100, 100));
  }
}
