/**
 * The older sync run: incoming transactions only. Each batch restarts its
 * last confirmed block at -1, carries the first unconfirmed block on to the
 * next batch, and reports the records it wrote split into confirmed and
 * unconfirmed lists.
 */
module LegacySync {
  import opened Values
  import opened Store
  import opened Ledger
  import opened Batching
  import opened SyncCommon

  /** The record `runBatch` writes for a received transaction. */
  function LegacyRecord(tx: RawTx, address: string): Doc
  {
    map["address" := Str(address), "action" := Str("RECEIVE"), "tx_hash" := Str(tx.txHash),
        "block_height" := Num(tx.blockHeight), "timestamp" := Time(LedgerTime(tx)),
        "amount" := Num(tx.amount), "status" := Str(StatusOf(tx.numConfirmations))]
  }

  /** The variables `runBatch`'s loop updates. */
  datatype BatchState = BatchState(confirmedTx: seq<Doc>, unconfirmedTx: seq<Doc>,
                                   lastConfirmedBlock: int, firstUnconfirmedBlock: int, writes: seq<Write>)

  function StartState(firstUnconfirmedBlock: int): BatchState
  {
    BatchState([], [], -1, firstUnconfirmedBlock, [])
  }

  /** One iteration: the record is written and listed as confirmed or
      unconfirmed; an unconfirmed one sets the first unconfirmed block unless
      one is set, a confirmed one becomes the last confirmed block. */
  function LegacyStep(r: Relevant, s: BatchState): Result<BatchState>
  {
    if r.address.None? || !ValidId(r.address.value) || !ValidId(r.tx.txHash) then Err(Internal)
    else
      var tx := LegacyRecord(r.tx, r.address.value);
      var written := s.(writes := s.writes + [SetDoc(IncomingTxs(r.address.value), r.tx.txHash, tx)]);
      if r.tx.numConfirmations < ConfirmationThreshold then
        Ok(written.(unconfirmedTx := s.unconfirmedTx + [tx],
                    firstUnconfirmedBlock := if s.firstUnconfirmedBlock > 0 then s.firstUnconfirmedBlock else r.tx.blockHeight))
      else
        Ok(written.(confirmedTx := s.confirmedTx + [tx], lastConfirmedBlock := r.tx.blockHeight))
  }

  function LegacyFold(rs: seq<Relevant>, s0: BatchState): Result<BatchState>
    decreases |rs|, 1
  {
    if rs == [] then Ok(s0) else LegacyFoldLast(rs, s0)
  }

  /** The fold of a non-empty batch: all but the last transaction, then the
      last one. */
  function LegacyFoldLast(rs: seq<Relevant>, s0: BatchState): Result<BatchState>
    requires rs != []
    decreases |rs|, 0
  {
    var acc := LegacyFold(rs[..|rs| - 1], s0);
    if acc.Err? then acc else LegacyStep(rs[|rs| - 1], acc.value)
  }

  function LegacyCursor(s: BatchState): int
  {
    if s.firstUnconfirmedBlock > 0 then s.firstUnconfirmedBlock else s.lastConfirmedBlock + 1
  }

  /** `{confirmedTx, unconfirmedTx, updatedBlockHeight, firstUnconfirmedBlock}` */
  datatype LegacyOut = LegacyOut(confirmedTx: seq<Doc>, unconfirmedTx: seq<Doc>,
                                 updatedBlockHeight: int, firstUnconfirmedBlock: int)

  datatype LegacyDone = LegacyDone(st: Store, out: LegacyOut)

  /** The cursor document `runBatch` sets last on its batch. */
  function LegacyCursorWrite(s: BatchState): Write
  {
    SetDoc(Config, SyncDocId, CursorDoc(LegacyCursor(s)))
  }

  /** `runBatch`: the records and the cursor committed together. */
  function LegacyRunBatchSpec(st: Store, rs: seq<Relevant>, firstUnconfirmedBlock: int): Result<LegacyDone>
  {
    var f := LegacyFold(rs, StartState(firstUnconfirmedBlock));
    if f.Err? then Err(f.code)
    else
      var s := f.value;
      Ok(LegacyDone(Apply(ApplyAll(st, s.writes), LegacyCursorWrite(s)),
                    LegacyOut(s.confirmedTx, s.unconfirmedTx, LegacyCursor(s), s.firstUnconfirmedBlock)))
  }

  function OutOf(r: Result<LegacyDone>): Result<LegacyOut>
  {
    if r.Ok? then Ok(r.value.out) else Err(r.code)
  }

  function StoreOf(st: Store, r: Result<LegacyDone>): Store
  {
    if r.Ok? then r.value.st else st
  }

  lemma LegacyFoldSnoc(rs: seq<Relevant>, r: Relevant, s0: BatchState, s: BatchState)
    requires LegacyFold(rs, s0) == Ok(s)
    ensures LegacyFold(rs + [r], s0) == LegacyStep(r, s)
  {
    assert (rs + [r])[..|rs + [r]| - 1] == rs;
  }

  lemma {:induction false} LegacyFoldErrAbsorbs(a: seq<Relevant>, b: seq<Relevant>, s0: BatchState)
    requires LegacyFold(a, s0).Err?
    ensures LegacyFold(a + b, s0) == LegacyFold(a, s0)
    decreases |b|
  {
    if b == [] {
      assert a + b == a;
    } else {
      assert (a + b)[..|a + b| - 1] == a + b[..|b| - 1];
      LegacyFoldErrAbsorbs(a, b[..|b| - 1], s0);
    }
  }

  /** One iteration of `runBatch`'s loop: the record is set on the batch
      and the loop's variables are updated. */
  method LegacyProcess(batch: WriteBatch, transaction: Relevant, s: BatchState) returns (r: Result<BatchState>)
    requires batch.writes == s.writes
    modifies batch
    ensures r == LegacyStep(transaction, s)
    ensures r.Ok? ==> batch.writes == r.value.writes
  {
    if transaction.address.None? || !ValidId(transaction.address.value) || !ValidId(transaction.tx.txHash) {
      return Err(Internal);
    }
    var confirmedTx, unconfirmedTx := s.confirmedTx, s.unconfirmedTx;
    var lastConfirmedBlock, firstUnconfirmedBlock := s.lastConfirmedBlock, s.firstUnconfirmedBlock;
    var tx := LegacyRecord(transaction.tx, transaction.address.value);
    batch.Set(IncomingTxs(transaction.address.value), transaction.tx.txHash, tx);
    if transaction.tx.numConfirmations < ConfirmationThreshold {
      unconfirmedTx := unconfirmedTx + [tx];
      firstUnconfirmedBlock := if firstUnconfirmedBlock > 0 then firstUnconfirmedBlock else transaction.tx.blockHeight;
    } else {
      confirmedTx := confirmedTx + [tx];
      lastConfirmedBlock := transaction.tx.blockHeight;
    }
    r := Ok(BatchState(confirmedTx, unconfirmedTx, lastConfirmedBlock, firstUnconfirmedBlock, batch.writes));
  }

  /** `runBatch` of the older sync. */
  method LegacyRunBatch(db: Database, transactions: seq<Relevant>, start: nat, end: nat, firstUnconfirmed: int)
    returns (r: Result<LegacyOut>)
    requires start <= end <= |transactions|
    modifies db
    ensures r == OutOf(LegacyRunBatchSpec(old(db.docs), transactions[start..end], firstUnconfirmed))
    ensures db.docs == StoreOf(old(db.docs), LegacyRunBatchSpec(old(db.docs), transactions[start..end], firstUnconfirmed))
  {
    var batch := new WriteBatch();
    var s := StartState(firstUnconfirmed);
    var i := start;
    assert transactions[start..start] == [];
    while i < end
      invariant start <= i <= end
      invariant db.docs == old(db.docs)
      invariant batch.writes == s.writes
      invariant LegacyFold(transactions[start..i], StartState(firstUnconfirmed)) == Ok(s)
    {
      var transaction := transactions[i];
      assert transactions[start..i + 1] == transactions[start..i] + [transaction];
      LegacyFoldSnoc(transactions[start..i], transaction, StartState(firstUnconfirmed), s);
      var result := LegacyProcess(batch, transaction, s);
      if result.Err? {
        assert transactions[start..end] == transactions[start..i + 1] + transactions[i + 1..end];
        LegacyFoldErrAbsorbs(transactions[start..i + 1], transactions[i + 1..end], StartState(firstUnconfirmed));
        return Err(result.code);
      }
      s := result.value;
      i := i + 1;
    }
    assert transactions[start..i] == transactions[start..end];
    LegacyRunBatchSpecOk(old(db.docs), transactions[start..end], firstUnconfirmed, s);
    var updatedBlockHeight := if s.firstUnconfirmedBlock > 0 then s.firstUnconfirmedBlock else s.lastConfirmedBlock + 1;
    ghost var writes := batch.writes;
    batch.Set(Config, SyncDocId, CursorDoc(updatedBlockHeight));
    db.Commit(batch);
    ApplyAllSnoc(old(db.docs), writes, LegacyCursorWrite(s));
    r := Ok(LegacyOut(s.confirmedTx, s.unconfirmedTx, updatedBlockHeight, s.firstUnconfirmedBlock));
  }

  lemma LegacyRunBatchSpecOk(st: Store, rs: seq<Relevant>, first: int, s: BatchState)
    requires LegacyFold(rs, StartState(first)) == Ok(s)
    ensures LegacyRunBatchSpec(st, rs, first) ==
              Ok(LegacyDone(Apply(ApplyAll(st, s.writes), LegacyCursorWrite(s)),
                            LegacyOut(s.confirmedTx, s.unconfirmedTx, LegacyCursor(s), s.firstUnconfirmedBlock)))
  {
  }

  /** `{confirmedTx, unconfirmedTx, updatedBlockHeight}` */
  datatype LegacyResult = LegacyResult(confirmedTx: seq<Doc>, unconfirmedTx: seq<Doc>, updatedBlockHeight: int)

  /** Where a run ends: the store (with the batches committed so far) and
      what the call returns or the error it throws. */
  datatype LegacyEnd = LegacyEnd(st: Store, result: Result<LegacyResult>)

  /** The lists and the cursor after one more batch. */
  function Gathered(acc: LegacyResult, out: LegacyOut): LegacyResult
  {
    LegacyResult(acc.confirmedTx + out.confirmedTx, acc.unconfirmedTx + out.unconfirmedTx, out.updatedBlockHeight)
  }

  /** The run loop from batch `run` on. */
  function LegacyRuns(st: Store, rs: seq<Relevant>, run: nat, acc: LegacyResult, first: int): LegacyEnd
    decreases NumberOfRuns(|rs|) - run, 1
  {
    if run >= NumberOfRuns(|rs|) then LegacyEnd(st, Ok(acc))
    else LegacyNextRun(st, rs, run, acc, first)
  }

  /** One pass of the loop body: batch `run`, whose lists are appended to
      the ones gathered so far. */
  function LegacyNextRun(st: Store, rs: seq<Relevant>, run: nat, acc: LegacyResult, first: int): LegacyEnd
    requires run < NumberOfRuns(|rs|)
    decreases NumberOfRuns(|rs|) - run, 0
  {
    var b := LegacyRunBatchSpec(st, RunSlice(rs, run), first);
    if b.Err? then LegacyEnd(st, Err(b.code))
    else LegacyRuns(b.value.st, rs, run + 1, Gathered(acc, b.value.out), b.value.out.firstUnconfirmedBlock)
  }

  /** `syncTransactions` of the older sync: an empty address set is only
      reported, the run goes on. */
  function LegacySyncSpec(st: Store, ledger: seq<RawTx>, active: bool): LegacyEnd
  {
    if !active then LegacyEnd(st, Err(Aborted))
    else
      var h := CurrentBlockHeight(st);
      var rs := RelevantList(Reverse(ledger), Docs(st, Addresses).Keys, false);
      if NumberOfRuns(|rs|) > 0 then LegacyRuns(st, rs, 0, LegacyResult([], [], h), -1)
      else LegacyEnd(Put(st, Config, SyncDocId, CursorDoc(h)), Ok(LegacyResult([], [], h)))
  }

  /** One batch of the run, unfolded. */
  lemma LegacyRunsStep(st: Store, rs: seq<Relevant>, run: nat, acc: LegacyResult, first: int)
    requires run < NumberOfRuns(|rs|)
    ensures var b := LegacyRunBatchSpec(st, RunSlice(rs, run), first);
            LegacyRuns(st, rs, run, acc, first) ==
              if b.Err? then LegacyEnd(st, Err(b.code))
              else LegacyRuns(b.value.st, rs, run + 1, Gathered(acc, b.value.out), b.value.out.firstUnconfirmedBlock)
  {
  }

  /** The `for` loop over the batch runs, gathering the two lists. */
  method LegacyRunAll(db: Database, relevantTxs: seq<Relevant>, blockHeight: int) returns (r: Result<LegacyResult>)
    modifies db
    ensures db.docs == LegacyRuns(old(db.docs), relevantTxs, 0, LegacyResult([], [], blockHeight), -1).st
    ensures r == LegacyRuns(old(db.docs), relevantTxs, 0, LegacyResult([], [], blockHeight), -1).result
  {
    var confirmedTx: seq<Doc> := [];
    var unconfirmedTx: seq<Doc> := [];
    var firstUnconfirmedBlock := -1;
    var updatedBlockHeight := blockHeight;
    var numberOfRuns := NumberOfRuns(|relevantTxs|);
    var run := 0;
    while run < numberOfRuns
      invariant 0 <= run <= numberOfRuns
      invariant LegacyRuns(db.docs, relevantTxs, run, LegacyResult(confirmedTx, unconfirmedTx, updatedBlockHeight), firstUnconfirmedBlock)
                == LegacyRuns(old(db.docs), relevantTxs, 0, LegacyResult([], [], blockHeight), -1)
      decreases numberOfRuns - run
    {
      RunSliceIsSlice(relevantTxs, run);
      var start, end := RunStart(run), RunEnd(run, |relevantTxs|);
      LegacyRunsStep(db.docs, relevantTxs, run, LegacyResult(confirmedTx, unconfirmedTx, updatedBlockHeight), firstUnconfirmedBlock);
      var batchResult := LegacyRunBatch(db, relevantTxs, start, end, firstUnconfirmedBlock);
      if batchResult.Err? {
        return Err(batchResult.code);
      }
      confirmedTx := confirmedTx + batchResult.value.confirmedTx;
      unconfirmedTx := unconfirmedTx + batchResult.value.unconfirmedTx;
      firstUnconfirmedBlock := batchResult.value.firstUnconfirmedBlock;
      updatedBlockHeight := batchResult.value.updatedBlockHeight;
      run := run + 1;
    }
    r := Ok(LegacyResult(confirmedTx, unconfirmedTx, updatedBlockHeight));
  }

  /** `syncTransactions` of the older sync; `ledger` and `active` as in the
      current one. */
  method SyncTransactions(db: Database, ledger: seq<RawTx>, active: bool) returns (r: Result<LegacyResult>)
    modifies db
    ensures db.docs == LegacySyncSpec(old(db.docs), ledger, active).st
    ensures r == LegacySyncSpec(old(db.docs), ledger, active).result
  {
    var addresses := GetIds(db, Addresses);
    var known := set a | a in addresses;
    assert known == Docs(db.docs, Addresses).Keys;
    if !active {
      return Err(Aborted);
    }
    var blockHeight := CurrentBlockHeight(db.docs);
    var relevantTxs := FilterRelevant(ledger, known, false);
    if NumberOfRuns(|relevantTxs|) > 0 {
      r := LegacyRunAll(db, relevantTxs, blockHeight);
    } else {
      db.Set(Config, SyncDocId, CursorDoc(blockHeight));
      r := Ok(LegacyResult([], [], blockHeight));
    }
  }
}
