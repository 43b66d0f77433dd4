/**
 * What the older sync run guarantees: its filter keeps received payments
 * only, every kept transaction lands in exactly one of the two reported
 * lists, the first unconfirmed block survives across batches, the cursor it
 * stores is the height it reports, and it writes nothing but incoming
 * records and the cursor.
 */
module LegacySyncProperties {
  import opened Values
  import opened Store
  import opened Ledger
  import opened Batching
  import opened SyncCommon
  import opened LegacySync

  // ---------------------------------------------------------------------
  // The filter.
  // ---------------------------------------------------------------------

  /** Without payments, the filter keeps only received transactions, each
      tagged with a known address. */
  lemma {:induction false} LegacyRelevantIncoming(txs: seq<RawTx>, known: set<string>)
    ensures forall i :: 0 <= i < |RelevantList(txs, known, false)| ==>
              RelevantList(txs, known, false)[i].tx.amount > 0 &&
              RelevantList(txs, known, false)[i].address.Some? &&
              RelevantList(txs, known, false)[i].address.value in known &&
              RelevantList(txs, known, false)[i].address.value != ""
    decreases |txs|
  {
    if txs != [] {
      LegacyRelevantIncoming(txs[..|txs| - 1], known);
      var tx := txs[|txs| - 1];
      var a := FirstKnown(tx.destAddresses, known);
      if a.Some? {
        assert a.value in known;
      }
    }
  }

  /** With no known address nothing is relevant. */
  lemma {:induction false} NothingKnownNothingKept(txs: seq<RawTx>)
    ensures RelevantList(txs, {}, false) == []
    decreases |txs|
  {
    if txs != [] {
      NothingKnownNothingKept(txs[..|txs| - 1]);
      var tx := txs[|txs| - 1];
    }
  }

  // ---------------------------------------------------------------------
  // One batch.
  // ---------------------------------------------------------------------

  function AddressOf(r: Relevant): string
  {
    if r.address.Some? then r.address.value else ""
  }

  predicate Writable(r: Relevant)
  {
    r.address.Some? && r.address.value != "" && r.tx.txHash != ""
  }

  /** The records of the transactions with (or without) six confirmations,
      in order. */
  function Records(rs: seq<Relevant>, confirmed: bool): seq<Doc>
    decreases |rs|
  {
    if rs == [] then []
    else
      var r := rs[|rs| - 1];
      Records(rs[..|rs| - 1], confirmed) +
        (if (r.tx.numConfirmations >= ConfirmationThreshold) == confirmed then [LegacyRecord(r.tx, AddressOf(r))] else [])
  }

  /** Every transaction is listed once, as confirmed or as unconfirmed. */
  lemma {:induction false} RecordsPartition(rs: seq<Relevant>)
    ensures |Records(rs, true)| + |Records(rs, false)| == |rs|
    decreases |rs|
  {
    if rs != [] {
      RecordsPartition(rs[..|rs| - 1]);
    }
  }

  lemma {:induction false} RecordsAppend(a: seq<Relevant>, b: seq<Relevant>, confirmed: bool)
    ensures Records(a + b, confirmed) == Records(a, confirmed) + Records(b, confirmed)
    decreases |b|
  {
    if b == [] {
      assert a + b == a;
    } else {
      assert (a + b)[..|a + b| - 1] == a + b[..|b| - 1];
      RecordsAppend(a, b[..|b| - 1], confirmed);
    }
  }

  /** A batch fails exactly when a transaction cannot name its document. */
  lemma {:induction false} LegacyFoldOk(rs: seq<Relevant>, s0: BatchState)
    ensures LegacyFold(rs, s0).Ok? <==> forall i :: 0 <= i < |rs| ==> Writable(rs[i])
    decreases |rs|
  {
    if rs != [] {
      var init, last := rs[..|rs| - 1], rs[|rs| - 1];
      LegacyFoldOk(init, s0);
      assert forall i :: 0 <= i < |init| ==> init[i] == rs[i];
      if LegacyFold(init, s0).Err? {
        var i :| 0 <= i < |init| && !Writable(init[i]);
        assert !Writable(rs[i]);
      } else if !Writable(last) {
        assert LegacyFold(rs, s0).Err?;
      }
    }
  }

  /** A batch that goes through adds its records to the two lists, split by
      status, in order. */
  lemma {:induction false} LegacyFoldRecords(rs: seq<Relevant>, s0: BatchState)
    ensures LegacyFold(rs, s0).Ok? ==>
              LegacyFold(rs, s0).value.confirmedTx == s0.confirmedTx + Records(rs, true) &&
              LegacyFold(rs, s0).value.unconfirmedTx == s0.unconfirmedTx + Records(rs, false)
    decreases |rs|
  {
    if rs != [] && LegacyFold(rs, s0).Ok? {
      var init, last := rs[..|rs| - 1], rs[|rs| - 1];
      LegacyFoldRecords(init, s0);
      assert LegacyFold(init, s0).Ok?;
      var s := LegacyFold(init, s0).value;
      var t := LegacyFold(rs, s0).value;
      var rec := LegacyRecord(last.tx, AddressOf(last));
      assert LegacyStep(last, s) == Ok(t);
      if last.tx.numConfirmations >= ConfirmationThreshold {
        assert t.confirmedTx == s.confirmedTx + [rec] && t.unconfirmedTx == s.unconfirmedTx;
        assert Records(rs, true) == Records(init, true) + [rec];
        assert Records(rs, false) == Records(init, false);
      } else {
        assert t.unconfirmedTx == s.unconfirmedTx + [rec] && t.confirmedTx == s.confirmedTx;
        assert Records(rs, false) == Records(init, false) + [rec];
        assert Records(rs, true) == Records(init, true);
      }
    }
  }

  /** Once a first unconfirmed block is set, the batch keeps it. */
  lemma {:induction false} LegacyStickyFirst(rs: seq<Relevant>, s0: BatchState)
    requires s0.firstUnconfirmedBlock > 0
    ensures LegacyFold(rs, s0).Ok? ==> LegacyFold(rs, s0).value.firstUnconfirmedBlock == s0.firstUnconfirmedBlock
    decreases |rs|
  {
    if rs != [] {
      LegacyStickyFirst(rs[..|rs| - 1], s0);
    }
  }

  /** A batch holding only a transaction still in the mempool (unconfirmed,
      block 0) stores cursor 0, whatever the cursor was before: the last
      confirmed block restarts at -1 in every batch and block 0 does not
      count as a first unconfirmed block. */
  lemma MempoolBatchRewindsCursor(st: Store)
    ensures var r := Relevant(RawTx("m", 1, ["x"], 0, 0, 0, 0, ""), Some("x"));
            LegacyRunBatchSpec(st, [r], -1).Ok? &&
            LegacyRunBatchSpec(st, [r], -1).value.out.updatedBlockHeight == 0 &&
            LegacyRunBatchSpec(st, [r], -1).value.out.unconfirmedTx == [LegacyRecord(r.tx, "x")]
  {
    var r := Relevant(RawTx("m", 1, ["x"], 0, 0, 0, 0, ""), Some("x"));
    assert [r][..0] == [];
  }

  // ---------------------------------------------------------------------
  // The run.
  // ---------------------------------------------------------------------

  /** How many transactions the batches before `run` covered. */
  function Processed(n: nat, run: nat): nat
  {
    if RunStart(run) < n then RunStart(run) else n
  }

  lemma ProcessedStep(n: nat, run: nat)
    requires run < NumberOfRuns(n)
    ensures Processed(n, run) == RunStart(run)
    ensures Processed(n, run + 1) == RunEnd(run, n)
  {
    Partition(n, run);
    if run + 1 < NumberOfRuns(n) {
      assert RunStart(run + 1) <= (NumberOfRuns(n) - 1) * BatchSize by {
        assert run + 1 <= NumberOfRuns(n) - 1;
      }
    } else {
      assert RunStart(run + 1) == NumberOfRuns(n) * BatchSize;
    }
  }

  /** The transactions covered after batch `run` are those before it plus the
      batch itself. */
  lemma PrefixStep<T>(s: seq<T>, run: nat)
    requires run < NumberOfRuns(|s|)
    ensures s[..Processed(|s|, run + 1)] == s[..Processed(|s|, run)] + RunSlice(s, run)
  {
    ProcessedStep(|s|, run);
    RunSliceIsSlice(s, run);
  }

  /** After the last batch every transaction is covered. */
  lemma ProcessedAll<T>(s: seq<T>)
    ensures s[..Processed(|s|, NumberOfRuns(|s|))] == s
  {
    if NumberOfRuns(|s|) > 0 {
      Partition(|s|, NumberOfRuns(|s|) - 1);
    }
    assert s[..|s|] == s;
  }

  lemma {:induction false} LegacyRunsLists(st: Store, rs: seq<Relevant>, n: nat, run: nat, acc: LegacyResult, first: int)
    requires n == NumberOfRuns(|rs|) && run <= n
    requires acc.confirmedTx == Records(rs[..Processed(|rs|, run)], true)
    requires acc.unconfirmedTx == Records(rs[..Processed(|rs|, run)], false)
    ensures LegacyRuns(st, rs, run, acc, first).result.Ok? ==>
              LegacyRuns(st, rs, run, acc, first).result.value.confirmedTx == Records(rs, true) &&
              LegacyRuns(st, rs, run, acc, first).result.value.unconfirmedTx == Records(rs, false)
    decreases n - run
  {
    if run == n {
      ProcessedAll(rs);
    } else {
      LegacyRunsStep(st, rs, run, acc, first);
      var slice := RunSlice(rs, run);
      var b := LegacyRunBatchSpec(st, slice, first);
      if b.Ok? {
        LegacyBatchRecords(st, slice, first);
        var next := LegacyResult(acc.confirmedTx + b.value.out.confirmedTx, acc.unconfirmedTx + b.value.out.unconfirmedTx,
                                 b.value.out.updatedBlockHeight);
        RecordsStep(rs, run, true);
        RecordsStep(rs, run, false);
        LegacyRunsLists(b.value.st, rs, n, run + 1, next, b.value.out.firstUnconfirmedBlock);
      }
    }
  }

  lemma LegacyBatchRecords(st: Store, slice: seq<Relevant>, first: int)
    ensures LegacyRunBatchSpec(st, slice, first).Ok? ==>
              LegacyRunBatchSpec(st, slice, first).value.out.confirmedTx == Records(slice, true) &&
              LegacyRunBatchSpec(st, slice, first).value.out.unconfirmedTx == Records(slice, false)
  {
    LegacyFoldRecords(slice, StartState(first));
  }

  lemma RecordsStep(rs: seq<Relevant>, run: nat, confirmed: bool)
    requires run < NumberOfRuns(|rs|)
    ensures Records(rs[..Processed(|rs|, run + 1)], confirmed) ==
              Records(rs[..Processed(|rs|, run)], confirmed) + Records(RunSlice(rs, run), confirmed)
  {
    PrefixStep(rs, run);
    RecordsAppend(rs[..Processed(|rs|, run)], RunSlice(rs, run), confirmed);
  }

  /** A completed run reports every relevant transaction exactly once: the
      confirmed list holds the records with six confirmations and the
      unconfirmed list the others, both in ledger order (oldest first). */
  lemma LegacySyncLists(st: Store, ledger: seq<RawTx>, active: bool)
    ensures var rs := RelevantList(Reverse(ledger), Docs(st, Addresses).Keys, false);
            var e := LegacySyncSpec(st, ledger, active);
            e.result.Ok? ==>
              && e.result.value.confirmedTx == Records(rs, true)
              && e.result.value.unconfirmedTx == Records(rs, false)
              && |e.result.value.confirmedTx| + |e.result.value.unconfirmedTx| == |rs|
  {
    var rs := RelevantList(Reverse(ledger), Docs(st, Addresses).Keys, false);
    RecordsPartition(rs);
    if active && NumberOfRuns(|rs|) > 0 {
      assert rs[..0] == [];
      LegacyRunsLists(st, rs, NumberOfRuns(|rs|), 0, LegacyResult([], [], CurrentBlockHeight(st)), -1);
    }
    if NumberOfRuns(|rs|) == 0 {
      assert rs == [];
    }
  }

  /** The first unconfirmed block is handed from batch to batch: once a
      batch has set it, the run ends with it as the next start height. */
  lemma {:induction false} LegacyCarryKeepsFirst(st: Store, rs: seq<Relevant>, n: nat, run: nat, acc: LegacyResult, first: int)
    requires n == NumberOfRuns(|rs|)
    requires first > 0 && run < n
    ensures LegacyRuns(st, rs, run, acc, first).result.Ok? ==>
              LegacyRuns(st, rs, run, acc, first).result.value.updatedBlockHeight == first
    decreases n - run
  {
    LegacyCarryStep(st, rs, run, acc, first);
    var b := LegacyRunBatchSpec(st, RunSlice(rs, run), first);
    if b.Ok? && run + 1 < n {
      LegacyCarryKeepsFirst(b.value.st, rs, n, run + 1, Gathered(acc, b.value.out), first);
    }
  }

  /** One batch of a run with the first unconfirmed block set: it fails, or
      it hands that block on and reports it as its cursor. */
  lemma LegacyCarryStep(st: Store, rs: seq<Relevant>, run: nat, acc: LegacyResult, first: int)
    requires first > 0 && run < NumberOfRuns(|rs|)
    ensures var b := LegacyRunBatchSpec(st, RunSlice(rs, run), first);
            && (b.Err? ==> LegacyRuns(st, rs, run, acc, first).result.Err?)
            && (b.Ok? ==> b.value.out.firstUnconfirmedBlock == first && b.value.out.updatedBlockHeight == first)
            && (b.Ok? ==> LegacyRuns(st, rs, run, acc, first) == LegacyRuns(b.value.st, rs, run + 1, Gathered(acc, b.value.out), first))
            && (b.Ok? && run + 1 == NumberOfRuns(|rs|) ==>
                  LegacyRuns(st, rs, run, acc, first) == LegacyEnd(b.value.st, Ok(Gathered(acc, b.value.out))))
  {
    LegacyRunsStep(st, rs, run, acc, first);
    LegacyStickyFirst(RunSlice(rs, run), StartState(first));
  }

  // ---------------------------------------------------------------------
  // What the run writes.
  // ---------------------------------------------------------------------

  predicate IncomingColl(c: Coll)
  {
    c.Sub? && c.parent == "addresses" && c.name == "incoming_txs"
  }

  lemma {:induction false} LegacyFoldWritesIncoming(rs: seq<Relevant>, s0: BatchState)
    requires forall i :: 0 <= i < |s0.writes| ==> IncomingColl(s0.writes[i].coll)
    ensures LegacyFold(rs, s0).Ok? ==>
              forall i :: 0 <= i < |LegacyFold(rs, s0).value.writes| ==> IncomingColl(LegacyFold(rs, s0).value.writes[i].coll)
    decreases |rs|
  {
    if rs != [] {
      LegacyFoldWritesIncoming(rs[..|rs| - 1], s0);
    }
  }

  lemma LegacyBatchEffect(st: Store, rs: seq<Relevant>, first: int)
    ensures LegacyRunBatchSpec(st, rs, first).Ok? ==>
              var b := LegacyRunBatchSpec(st, rs, first).value;
              && CurrentBlockHeight(b.st) == b.out.updatedBlockHeight
              && (forall id :: id != SyncDocId ==> Lookup(b.st, Config, id) == Lookup(st, Config, id))
              && (forall c :: !IncomingColl(c) && c != Config ==> Docs(b.st, c) == Docs(st, c))
  {
    var f := LegacyFold(rs, StartState(first));
    if f.Ok? {
      var init := f.value.writes;
      LegacyFoldWritesIncoming(rs, StartState(first));
      forall c | !IncomingColl(c) && c != Config
        ensures Docs(ApplyAll(st, init), c) == Docs(st, c)
      {
        ApplyAllFrame(st, init, c);
      }
      ApplyAllFrame(st, init, Config);
    }
  }

  lemma {:induction false} LegacyRunsEffect(st: Store, rs: seq<Relevant>, n: nat, run: nat, acc: LegacyResult, first: int)
    requires n == NumberOfRuns(|rs|)
    requires CurrentBlockHeight(st) == acc.updatedBlockHeight
    ensures var e := LegacyRuns(st, rs, run, acc, first);
            && (e.result.Ok? ==> CurrentBlockHeight(e.st) == e.result.value.updatedBlockHeight)
            && (forall id :: id != SyncDocId ==> Lookup(e.st, Config, id) == Lookup(st, Config, id))
            && (forall c :: !IncomingColl(c) && c != Config ==> Docs(e.st, c) == Docs(st, c))
    decreases n - run
  {
    if run < n {
      LegacyRunsStep(st, rs, run, acc, first);
      var slice := RunSlice(rs, run);
      var b := LegacyRunBatchSpec(st, slice, first);
      LegacyBatchEffect(st, slice, first);
      if b.Ok? {
        LegacyRunsEffect(b.value.st, rs, n, run + 1,
                         LegacyResult(acc.confirmedTx + b.value.out.confirmedTx, acc.unconfirmedTx + b.value.out.unconfirmedTx,
                                      b.value.out.updatedBlockHeight),
                         b.value.out.firstUnconfirmedBlock);
      }
    }
  }

  /** The older sync writes incoming records and the cursor document only;
      when it returns, the cursor document holds the height it reports. With
      the node down it throws ABORTED and writes nothing. */
  lemma LegacySyncEffect(st: Store, ledger: seq<RawTx>, active: bool)
    ensures var e := LegacySyncSpec(st, ledger, active);
            && (e.result.Ok? ==> CurrentBlockHeight(e.st) == e.result.value.updatedBlockHeight)
            && (forall id :: id != SyncDocId ==> Lookup(e.st, Config, id) == Lookup(st, Config, id))
            && (forall c :: !IncomingColl(c) && c != Config ==> Docs(e.st, c) == Docs(st, c))
            && (!active ==> e == LegacyEnd(st, Err(Aborted)))
  {
    if active {
      var rs := RelevantList(Reverse(ledger), Docs(st, Addresses).Keys, false);
      if NumberOfRuns(|rs|) > 0 {
        LegacyRunsEffect(st, rs, NumberOfRuns(|rs|), 0, LegacyResult([], [], CurrentBlockHeight(st)), -1);
      }
    }
  }

  /** An empty address collection does not stop the older run: it goes to
      the ledger, finds nothing relevant, and rewrites the cursor with the
      height it read. */
  lemma LegacyNoAddressesStillRuns(st: Store, ledger: seq<RawTx>)
    requires Docs(st, Addresses) == map[]
    ensures LegacySyncSpec(st, ledger, true) ==
              LegacyEnd(Put(st, Config, SyncDocId, CursorDoc(CurrentBlockHeight(st))),
                        Ok(LegacyResult([], [], CurrentBlockHeight(st))))
  {
    assert Docs(st, Addresses).Keys == {};
    NothingKnownNothingKept(Reverse(ledger));
  }
}
