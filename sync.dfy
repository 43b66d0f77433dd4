/**
 * The current sync run: it keeps the ledger transactions that concern a
 * known address (incoming) or carry a payment label (outgoing), cuts them
 * into batches of 300, and commits each batch together with the block height
 * the next sync starts from.
 *
 * The operations are methods over the `Database` and a `WriteBatch`; each is
 * proved against a function of the store and the ledger, and the properties
 * of the run are lemmas about those functions.
 */
module Sync {
  import opened Values
  import opened Store
  import opened Ledger
  import opened Batching
  import opened SyncCommon

  // ---------------------------------------------------------------------
  // One transaction of a batch.
  // ---------------------------------------------------------------------

  /** The two cursor variables a batch threads through its transactions. */
  datatype Cursors = Cursors(lastConfirmed: int, earliest: int)

  /** What one transaction hands on: the new cursors and the writes it added
      to the batch. */
  datatype Step = Step(cur: Cursors, writes: seq<Write>)

  function CursorsOf(r: Result<Step>): Result<Cursors>
  {
    if r.Ok? then Ok(r.value.cur) else Err(r.code)
  }

  function WritesOf(r: Result<Step>): seq<Write>
  {
    if r.Ok? then r.value.writes else []
  }

  /** The record `processIncomingTransaction` writes. */
  function IncomingRecord(tx: RawTx, address: string): Doc
  {
    map["address" := Str(address), "tx_hash" := Str(tx.txHash), "block_height" := Num(tx.blockHeight),
        "timestamp" := Time(LedgerTime(tx)), "amount" := Num(tx.amount),
        "status" := Str(StatusOf(tx.numConfirmations))]
  }

  /** An unconfirmed incoming transaction sets the earliest unconfirmed block
      unless one is already set, to its block, or to -1 while it is in the
      mempool; a confirmed one makes its block the last confirmed. */
  function IncomingCursors(tx: RawTx, cur: Cursors): Cursors
  {
    if tx.numConfirmations < ConfirmationThreshold then
      cur.(earliest := if cur.earliest > 0 then cur.earliest
                       else if tx.blockHeight > 0 then tx.blockHeight else -1)
    else cur.(lastConfirmed := tx.blockHeight)
  }

  /** `processIncomingTransaction`: one overwriting write at
      `addresses/{address}/incoming_txs/{tx_hash}`; an untagged transaction
      or an empty hash cannot name a document. */
  function IncomingStep(tx: RawTx, address: Option<string>, cur: Cursors): Result<Step>
  {
    if address.None? || !ValidId(address.value) || !ValidId(tx.txHash) then Err(Internal)
    else Ok(Step(IncomingCursors(tx, cur), [SetDoc(IncomingTxs(address.value), tx.txHash, IncomingRecord(tx, address.value))]))
  }

  method ProcessIncoming(batch: WriteBatch, transaction: RawTx, address: Option<string>, cur: Cursors) returns (r: Result<Cursors>)
    modifies batch
    ensures r == CursorsOf(IncomingStep(transaction, address, cur))
    ensures batch.writes == old(batch.writes) + WritesOf(IncomingStep(transaction, address, cur))
  {
    if address.None? || !ValidId(address.value) || !ValidId(transaction.txHash) {
      return Err(Internal);
    }
    var tx := IncomingRecord(transaction, address.value);
    batch.Set(IncomingTxs(address.value), transaction.txHash, tx);
    var lastConfirmedBlock, earliest := cur.lastConfirmed, cur.earliest;
    if transaction.numConfirmations < ConfirmationThreshold {
      earliest := if earliest > 0 then earliest else (if transaction.blockHeight > 0 then transaction.blockHeight else -1);
    } else {
      lastConfirmedBlock := transaction.blockHeight;
    }
    r := Ok(Cursors(lastConfirmedBlock, earliest));
  }

  /** `label.split(":")`, fields 1 and 2: the wallet and the record id under
      `outgoing_txs`. Missing or empty fields cannot name a document. */
  function PaymentTarget(labelText: string): Option<(string, string)>
  {
    var parts := Split(labelText, ':');
    if |parts| < 3 || !ValidId(parts[1]) || !ValidId(parts[2]) then None else Some((parts[1], parts[2]))
  }

  /** The record made up when the payment is not in the store. */
  function SynthesizedRecord(tx: RawTx): Doc
  {
    map["to_address" := Str("UNKNOWN"), "created" := Str("UNKNOWN"),
        "amount" := Num(Abs(tx.amount) - tx.totalFees), "txid" := Str(tx.txHash)]
  }

  function Abs(n: int): nat
  {
    if n < 0 then -n else n
  }

  /** `tx["status"] == "NEW" || tx["status"] != newStatus` */
  predicate NeedsWrite(rec: Doc, newStatus: string)
  {
    Get(rec, "status") == Some(Str("NEW")) || Get(rec, "status") != Some(Str(newStatus))
  }

  /** The record after the refresh: timestamp and fee from the ledger, the
      ledger status, and the block height when confirmed or when it is known. */
  function UpdatedRecord(rec: Doc, tx: RawTx): Doc
  {
    var base := rec["timestamp" := Time(LedgerTime(tx))]["fee" := Num(tx.totalFees)];
    if tx.numConfirmations < ConfirmationThreshold then
      var u := base["status" := Str("UNCONFIRMED")];
      if tx.blockHeight > 0 then u["block_height" := Num(tx.blockHeight)] else u
    else base["status" := Str("CONFIRMED")]["block_height" := Num(tx.blockHeight)]
  }

  function OutgoingCursors(tx: RawTx, cur: Cursors): Cursors
  {
    if tx.numConfirmations < ConfirmationThreshold then
      (if tx.blockHeight > 0 then cur.(earliest := if cur.earliest > 0 then cur.earliest else tx.blockHeight) else cur)
    else cur.(lastConfirmed := tx.blockHeight)
  }

  /** `processOutgoingTransaction`, reading the record as committed at the
      start of the batch (`txRef.get()` does not see the batch's own writes). */
  function OutgoingStep(st: Store, tx: RawTx, cur: Cursors): Result<Step>
  {
    var target := PaymentTarget(tx.labelText);
    if target.None? then Err(Internal)
    else
      var (walletId, paymentId) := target.value;
      var stored := Lookup(st, OutgoingTxs(walletId), paymentId);
      var rec := if stored.Some? then stored.value else SynthesizedRecord(tx);
      if NeedsWrite(rec, StatusOf(tx.numConfirmations)) then
        Ok(Step(OutgoingCursors(tx, cur), [SetDoc(OutgoingTxs(walletId), paymentId, UpdatedRecord(rec, tx))]))
      else Ok(Step(cur, []))
  }

  method ProcessOutgoing(db: Database, batch: WriteBatch, transaction: RawTx, cur: Cursors) returns (r: Result<Cursors>)
    modifies batch
    ensures r == CursorsOf(OutgoingStep(db.docs, transaction, cur))
    ensures batch.writes == old(batch.writes) + WritesOf(OutgoingStep(db.docs, transaction, cur))
  {
    var labelSplit := Split(transaction.labelText, ':');
    if |labelSplit| < 3 || !ValidId(labelSplit[1]) || !ValidId(labelSplit[2]) {
      return Err(Internal);
    }
    var walletId, paymentId := labelSplit[1], labelSplit[2];
    var txSnap := db.Get(OutgoingTxs(walletId), paymentId);
    var tx := if txSnap.Some? then txSnap.value else SynthesizedRecord(transaction);
    var lastConfirmedBlock, earliest := cur.lastConfirmed, cur.earliest;
    var newStatus := StatusOf(transaction.numConfirmations);
    if Get(tx, "status") == Some(Str("NEW")) || Get(tx, "status") != Some(Str(newStatus)) {
      tx := tx["timestamp" := Time(LedgerTime(transaction))];
      tx := tx["fee" := Num(transaction.totalFees)];
      if transaction.numConfirmations < ConfirmationThreshold {
        tx := tx["status" := Str("UNCONFIRMED")];
        if transaction.blockHeight > 0 {
          tx := tx["block_height" := Num(transaction.blockHeight)];
          earliest := if earliest > 0 then earliest else transaction.blockHeight;
        }
        batch.Set(OutgoingTxs(walletId), paymentId, tx);
      } else {
        tx := tx["status" := Str("CONFIRMED")];
        tx := tx["block_height" := Num(transaction.blockHeight)];
        lastConfirmedBlock := transaction.blockHeight;
        batch.Set(OutgoingTxs(walletId), paymentId, tx);
      }
    }
    r := Ok(Cursors(lastConfirmedBlock, earliest));
  }

  /** `runBatch`'s dispatch: incoming for a positive amount, outgoing for a
      negative one, nothing for zero. */
  function TxStep(st: Store, r: Relevant, cur: Cursors): Result<Step>
  {
    if r.tx.amount > 0 then IncomingStep(r.tx, r.address, cur)
    else if r.tx.amount < 0 then OutgoingStep(st, r.tx, cur)
    else Ok(Step(cur, []))
  }

  /** The batch loop: the transactions in order, cursors threaded through,
      writes accumulated; the first failure ends it. */
  function BatchFold(st: Store, rs: seq<Relevant>, cur: Cursors): Result<Step>
    decreases |rs|, 1
  {
    if rs == [] then Ok(Step(cur, [])) else BatchFoldLast(st, rs, cur)
  }

  /** The fold of a non-empty batch: the fold of all but the last
      transaction, then the last one. */
  function BatchFoldLast(st: Store, rs: seq<Relevant>, cur: Cursors): Result<Step>
    requires rs != []
    decreases |rs|, 0
  {
    var acc := BatchFold(st, rs[..|rs| - 1], cur);
    if acc.Err? then acc
    else
      var s := TxStep(st, rs[|rs| - 1], acc.value.cur);
      if s.Err? then Err(s.code) else Ok(Step(s.value.cur, acc.value.writes + s.value.writes))
  }

  /** The next sync starts at the earliest unconfirmed block if there is
      one, else after the last confirmed block. */
  function NextCursor(cur: Cursors): int
  {
    if cur.earliest > 0 then cur.earliest else cur.lastConfirmed + 1
  }

  /** `{updatedBlockHeight, earliestBlockWithUnconfirmed}` */
  datatype BatchOut = BatchOut(updatedBlockHeight: int, earliestBlockWithUnconfirmed: int)

  /** Reading a field of the object `runBatch` returns; any other name is
      undefined. */
  function ResultField(out: BatchOut, name: string): Option<int>
  {
    if name == "updatedBlockHeight" then Some(out.updatedBlockHeight)
    else if name == "earliestBlockWithUnconfirmed" then Some(out.earliestBlockWithUnconfirmed)
    else None
  }

  /** `undefined` as a block height: it is only ever compared with `> 0`,
      where it behaves as -1. */
  const Undefined := -1

  datatype BatchDone = BatchDone(st: Store, out: BatchOut)

  /** The cursor document `runBatch` sets last on its batch. */
  function CursorWrite(cur: Cursors): Write
  {
    SetDoc(Config, SyncDocId, CursorDoc(NextCursor(cur)))
  }

  /** `runBatch`: the batch's writes and the cursor write, committed
      together; on a failure nothing is committed. */
  function RunBatchSpec(st: Store, rs: seq<Relevant>, cur: Cursors): Result<BatchDone>
  {
    var f := BatchFold(st, rs, cur);
    if f.Err? then Err(f.code)
    else
      Ok(BatchDone(Apply(ApplyAll(st, f.value.writes), CursorWrite(f.value.cur)),
                   BatchOut(NextCursor(f.value.cur), f.value.cur.earliest)))
  }

  function OutOf(r: Result<BatchDone>): Result<BatchOut>
  {
    if r.Ok? then Ok(r.value.out) else Err(r.code)
  }

  function StoreOf(st: Store, r: Result<BatchDone>): Store
  {
    if r.Ok? then r.value.st else st
  }

  /** One iteration of `runBatch`'s loop. */
  method ProcessTransaction(db: Database, batch: WriteBatch, transaction: Relevant, cur: Cursors) returns (r: Result<Cursors>)
    modifies batch
    ensures r == CursorsOf(TxStep(db.docs, transaction, cur))
    ensures batch.writes == old(batch.writes) + WritesOf(TxStep(db.docs, transaction, cur))
  {
    if transaction.tx.amount > 0 {
      r := ProcessIncoming(batch, transaction.tx, transaction.address, cur);
    } else if transaction.tx.amount < 0 {
      r := ProcessOutgoing(db, batch, transaction.tx, cur);
    } else {
      r := Ok(cur);
    }
  }

  /** The fold one transaction further. */
  lemma BatchFoldSnoc(st: Store, rs: seq<Relevant>, r: Relevant, cur0: Cursors, cur: Cursors, writes: seq<Write>)
    requires BatchFold(st, rs, cur0) == Ok(Step(cur, writes))
    ensures BatchFold(st, rs + [r], cur0) ==
              (if TxStep(st, r, cur).Err? then Err(TxStep(st, r, cur).code)
               else Ok(Step(TxStep(st, r, cur).value.cur, writes + TxStep(st, r, cur).value.writes)))
  {
    assert (rs + [r])[..|rs + [r]| - 1] == rs;
  }

  /** The fold of a one-transaction batch is that transaction's step. */
  lemma BatchFoldOne(st: Store, r: Relevant, cur: Cursors)
    ensures BatchFold(st, [r], cur) ==
              (if TxStep(st, r, cur).Err? then Err(TxStep(st, r, cur).code)
               else Ok(Step(TxStep(st, r, cur).value.cur, TxStep(st, r, cur).value.writes)))
  {
    assert [r][..0] == [];
    assert BatchFold(st, [r], cur) == BatchFoldLast(st, [r], cur);
    var none: seq<Write> := [];
    if TxStep(st, r, cur).Ok? {
      assert none + TxStep(st, r, cur).value.writes == TxStep(st, r, cur).value.writes;
    }
  }

  /** A failure is final: the later transactions do not change it. */
  lemma {:induction false} BatchFoldErrAbsorbs(st: Store, a: seq<Relevant>, b: seq<Relevant>, cur0: Cursors)
    requires BatchFold(st, a, cur0).Err?
    ensures BatchFold(st, a + b, cur0) == BatchFold(st, a, cur0)
    decreases |b|
  {
    if b == [] {
      assert a + b == a;
    } else {
      assert (a + b)[..|a + b| - 1] == a + b[..|b| - 1];
      BatchFoldErrAbsorbs(st, a, b[..|b| - 1], cur0);
    }
  }

  method RunBatch(db: Database, transactions: seq<Relevant>, start: nat, end: nat,
                  lastConfirmedBlock: int, earliestBlockWithUnconfirmed: int) returns (r: Result<BatchOut>)
    requires start <= end <= |transactions|
    modifies db
    ensures r == OutOf(RunBatchSpec(old(db.docs), transactions[start..end], Cursors(lastConfirmedBlock, earliestBlockWithUnconfirmed)))
    ensures db.docs == StoreOf(old(db.docs), RunBatchSpec(old(db.docs), transactions[start..end], Cursors(lastConfirmedBlock, earliestBlockWithUnconfirmed)))
  {
    var batch := new WriteBatch();
    var cur0 := Cursors(lastConfirmedBlock, earliestBlockWithUnconfirmed);
    var cur := cur0;
    var i := start;
    assert transactions[start..start] == [];
    while i < end
      invariant start <= i <= end
      invariant db.docs == old(db.docs)
      invariant BatchFold(db.docs, transactions[start..i], cur0) == Ok(Step(cur, batch.writes))
    {
      var transaction := transactions[i];
      assert transactions[start..i + 1] == transactions[start..i] + [transaction];
      var result := FoldTransaction(db, batch, transactions[start..i], transaction, cur0, cur);
      if result.Err? {
        assert transactions[start..end][..i + 1 - start] == transactions[start..i + 1];
        RunBatchSpecErr(db.docs, transactions[start..end], i + 1 - start, cur0);
        return Err(result.code);
      }
      cur := result.value;
      i := i + 1;
    }
    assert transactions[start..i] == transactions[start..end];
    r := CommitBatch(db, batch, transactions[start..end], cur0, cur);
  }

  /** One pass of `runBatch`'s loop, read as the fold one transaction further. */
  method FoldTransaction(db: Database, batch: WriteBatch, ghost rs: seq<Relevant>, transaction: Relevant,
                         ghost cur0: Cursors, cur: Cursors) returns (r: Result<Cursors>)
    requires BatchFold(db.docs, rs, cur0) == Ok(Step(cur, batch.writes))
    modifies batch
    ensures r.Err? ==> BatchFold(db.docs, rs + [transaction], cur0) == Err(r.code)
    ensures r.Ok? ==> BatchFold(db.docs, rs + [transaction], cur0) == Ok(Step(r.value, batch.writes))
  {
    BatchFoldSnoc(db.docs, rs, transaction, cur0, cur, batch.writes);
    r := ProcessTransaction(db, batch, transaction, cur);
  }

  /** The end of `runBatch` once every transaction went through: the cursor
      document joins the batch, which is committed. */
  method CommitBatch(db: Database, batch: WriteBatch, ghost rs: seq<Relevant>, ghost cur0: Cursors, cur: Cursors)
    returns (r: Result<BatchOut>)
    requires BatchFold(db.docs, rs, cur0) == Ok(Step(cur, batch.writes))
    modifies db, batch
    ensures r == OutOf(RunBatchSpec(old(db.docs), rs, cur0))
    ensures db.docs == StoreOf(old(db.docs), RunBatchSpec(old(db.docs), rs, cur0))
  {
    RunBatchSpecOk(db.docs, rs, cur0, Step(cur, batch.writes));
    var updatedBlockHeight := NextCursor(cur);
    ghost var writes := batch.writes;
    batch.Set(Config, SyncDocId, CursorDoc(updatedBlockHeight));
    db.Commit(batch);
    ApplyAllSnoc(old(db.docs), writes, CursorWrite(cur));
    r := Ok(BatchOut(updatedBlockHeight, cur.earliest));
  }

  /** A transaction that fails ends the batch: nothing is committed. */
  lemma RunBatchSpecErr(st: Store, rs: seq<Relevant>, n: nat, cur0: Cursors)
    requires n <= |rs| && BatchFold(st, rs[..n], cur0).Err?
    ensures RunBatchSpec(st, rs, cur0) == Err(BatchFold(st, rs[..n], cur0).code)
  {
    assert rs == rs[..n] + rs[n..];
    BatchFoldErrAbsorbs(st, rs[..n], rs[n..], cur0);
  }

  lemma RunBatchSpecOk(st: Store, rs: seq<Relevant>, cur: Cursors, s: Step)
    requires BatchFold(st, rs, cur) == Ok(s)
    ensures RunBatchSpec(st, rs, cur) ==
              Ok(BatchDone(Apply(ApplyAll(st, s.writes), CursorWrite(s.cur)),
                           BatchOut(NextCursor(s.cur), s.cur.earliest)))
  {
  }

  // ---------------------------------------------------------------------
  // The run.
  // ---------------------------------------------------------------------

  /** Where a run ends: the store, the last cursor, and the failure that
      stopped it, if any (batches committed before it stay committed). */
  datatype SyncEnd = SyncEnd(st: Store, updated: int, failure: Option<ErrorCode>)

  /** The value the run loop carries into the next batch as the earliest
      unconfirmed block: the returned object's field of the given name. */
  function Carried(out: BatchOut, field: string): int
  {
    var f := ResultField(out, field);
    if f.Some? then f.value else Undefined
  }

  /** The run loop from batch `run` on; each batch is seeded with the
      previous batch's cursor as last confirmed block. */
  function Runs(st: Store, rs: seq<Relevant>, run: nat, updated: int, earliest: int, field: string): SyncEnd
    decreases NumberOfRuns(|rs|) - run, 1
  {
    if run >= NumberOfRuns(|rs|) then SyncEnd(st, updated, None)
    else NextRun(st, rs, run, updated, earliest, field)
  }

  /** One pass of the loop body: batch `run`, then the loop goes on with its
      cursor unless it failed. */
  function NextRun(st: Store, rs: seq<Relevant>, run: nat, updated: int, earliest: int, field: string): SyncEnd
    requires run < NumberOfRuns(|rs|)
    decreases NumberOfRuns(|rs|) - run, 0
  {
    var b := RunBatchSpec(st, RunSlice(rs, run), Cursors(updated, earliest));
    if b.Err? then SyncEnd(st, updated, Some(b.code))
    else Runs(b.value.st, rs, run + 1, b.value.out.updatedBlockHeight, Carried(b.value.out, field), field)
  }

  /** The field the run loop reads back: `batchResult.firstUnconfirmedBlock`. */
  const CarriedField := "firstUnconfirmedBlock"

  /** `syncTransactions`, with the field it carries between batches as a
      parameter. */
  function SyncSpec(st: Store, ledger: seq<RawTx>, active: bool, field: string): SyncEnd
  {
    var known := Docs(st, Addresses).Keys;
    if known == {} && Docs(st, Wallets) == map[] then SyncEnd(st, CurrentBlockHeight(st), None)
    else if !active then SyncEnd(st, CurrentBlockHeight(st), Some(Aborted))
    else
      var h := CurrentBlockHeight(st);
      var rs := RelevantList(Reverse(ledger), known, true);
      if NumberOfRuns(|rs|) > 0 then Runs(st, rs, 0, h, -1, field)
      else SyncEnd(Put(st, Config, SyncDocId, CursorDoc(h)), h, None)
  }

  /** One batch of the run, unfolded. */
  lemma RunsStep(st: Store, rs: seq<Relevant>, run: nat, updated: int, earliest: int, field: string)
    requires run < NumberOfRuns(|rs|)
    ensures var b := RunBatchSpec(st, RunSlice(rs, run), Cursors(updated, earliest));
            Runs(st, rs, run, updated, earliest, field) ==
              if b.Err? then SyncEnd(st, updated, Some(b.code))
              else Runs(b.value.st, rs, run + 1, b.value.out.updatedBlockHeight, Carried(b.value.out, field), field)
  {
  }

  /** The `for` loop over the batch runs. */
  method RunAll(db: Database, relevantTxs: seq<Relevant>, blockHeight: int) returns (failure: Option<ErrorCode>)
    modifies db
    ensures db.docs == Runs(old(db.docs), relevantTxs, 0, blockHeight, -1, CarriedField).st
    ensures failure == Runs(old(db.docs), relevantTxs, 0, blockHeight, -1, CarriedField).failure
  {
    var earliestBlockWithUnconfirmed := -1;
    var updatedBlockHeight := blockHeight;
    var numberOfRuns := NumberOfRuns(|relevantTxs|);
    var run := 0;
    while run < numberOfRuns
      invariant 0 <= run <= numberOfRuns
      invariant Runs(db.docs, relevantTxs, run, updatedBlockHeight, earliestBlockWithUnconfirmed, CarriedField)
                == Runs(old(db.docs), relevantTxs, 0, blockHeight, -1, CarriedField)
      decreases numberOfRuns - run
    {
      RunSliceIsSlice(relevantTxs, run);
      var start, end := RunStart(run), RunEnd(run, |relevantTxs|);
      RunsStep(db.docs, relevantTxs, run, updatedBlockHeight, earliestBlockWithUnconfirmed, CarriedField);
      var batchResult := RunBatch(db, relevantTxs, start, end, updatedBlockHeight, earliestBlockWithUnconfirmed);
      if batchResult.Err? {
        return Some(batchResult.code);
      }
      updatedBlockHeight := batchResult.value.updatedBlockHeight;
      earliestBlockWithUnconfirmed := Carried(batchResult.value, CarriedField);
      run := run + 1;
    }
    failure := None;
  }

  /** `syncTransactions`: `ledger` is what `getTransactions` returns for the
      stored start height and `active` whether the node connection is up. */
  method SyncTransactions(db: Database, ledger: seq<RawTx>, active: bool) returns (failure: Option<ErrorCode>)
    modifies db
    ensures db.docs == SyncSpec(old(db.docs), ledger, active, CarriedField).st
    ensures failure == SyncSpec(old(db.docs), ledger, active, CarriedField).failure
  {
    var addresses := GetIds(db, Addresses);
    var wallets := GetIds(db, Wallets);
    var known := set a | a in addresses;
    assert known == Docs(db.docs, Addresses).Keys;
    if |addresses| == 0 && |wallets| == 0 {
      return None;
    }
    if !active {
      return Some(Aborted);
    }
    var blockHeight := CurrentBlockHeight(db.docs);
    var relevantTxs := FilterRelevant(ledger, known, true);
    if NumberOfRuns(|relevantTxs|) > 0 {
      failure := RunAll(db, relevantTxs, blockHeight);
    } else {
      db.Set(Config, SyncDocId, CursorDoc(blockHeight));
      failure := None;
    }
  }
}
