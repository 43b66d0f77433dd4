/**
 * What the two sync variants share: the reversed ledger listing, the
 * relevance filter, the relevant-transaction record, the stored block-height
 * cursor and the ids of a collection.
 */
module SyncCommon {
  import opened Values
  import opened Store
  import opened Ledger

  /** A ledger transaction kept by the filter; `address` is the known
      destination the filter tagged it with (`tx.address`), absent for
      payments. */
  datatype Relevant = Relevant(tx: RawTx, address: Option<string>)

  /** `Array.prototype.reverse`: the ledger lists newest first, the
      reversed list is oldest first. */
  function Reverse<T>(s: seq<T>): (r: seq<T>)
    ensures |r| == |s|
    ensures forall i :: 0 <= i < |s| ==> r[i] == s[|s| - 1 - i]
  {
    if s == [] then [] else Reverse(s[1..]) + [s[0]]
  }

  lemma {:induction false} ReverseAppend<T>(a: seq<T>, b: seq<T>)
    ensures Reverse(a + b) == Reverse(b) + Reverse(a)
  {
    if a == [] {
      assert a + b == b;
    } else {
      assert (a + b)[1..] == a[1..] + b;
      ReverseAppend(a[1..], b);
    }
  }

  /** The document holding the next sync's start height. */
  function CursorDoc(height: int): Doc
  {
    map["block_height" := Num(height), "timestamp" := Time(ServerTimestamp)]
  }

  /** `currentBlockHeight()`: the stored `block_height`, 0 when the cursor
      document does not exist. A stored value that is missing or not a
      number is read as 0 too, where the code hands the raw value on. */
  function CurrentBlockHeight(st: Store): (h: int)
    ensures SyncDocId !in Docs(st, Config) ==> h == 0
    ensures SyncDocId in Docs(st, Config) && Get(Docs(st, Config)[SyncDocId], "block_height").Some? &&
            Get(Docs(st, Config)[SyncDocId], "block_height").value.Num? ==>
              h == Get(Docs(st, Config)[SyncDocId], "block_height").value.n
    ensures SyncDocId in Docs(st, Config) &&
            !(Get(Docs(st, Config)[SyncDocId], "block_height").Some? && Get(Docs(st, Config)[SyncDocId], "block_height").value.Num?)
            ==> h == 0
  {
    match Lookup(st, Config, SyncDocId)
    case None => 0
    case Some(d) => if Get(d, "block_height").Some? && Get(d, "block_height").value.Num? then Get(d, "block_height").value.n else 0
  }

  /** `snap.docs.map((doc) => doc.id)`: the ids of a collection, each once. */
  method GetIds(db: Database, c: Coll) returns (ids: seq<string>)
    ensures forall k :: k in ids <==> k in Docs(db.docs, c)
    ensures |ids| == 0 <==> Docs(db.docs, c) == map[]
  {
    var snap := db.Query(c);
    ids := [];
    var i := 0;
    while i < |snap|
      invariant 0 <= i <= |snap|
      invariant |ids| == i
      invariant forall j :: 0 <= j < i ==> ids[j] == snap[j].id
    {
      ids := ids + [snap[i].id];
      i := i + 1;
    }
    var m := Docs(db.docs, c);
    forall k | k in ids
      ensures k in m
    {
      var j :| 0 <= j < |ids| && ids[j] == k;
      assert snap[j].id in m;
    }
    forall k | k in m
      ensures k in ids
    {
      var j :| 0 <= j < |snap| && snap[j].id == k;
      assert ids[j] == k;
    }
    if m != map[] {
      var k :| k in m;
      assert k in ids;
    } else if |ids| > 0 {
      assert ids[0] in m;
    }
  }

  // ---------------------------------------------------------------------
  // The relevance filter.
  // ---------------------------------------------------------------------

  /** One step of the filter's reduce: an incoming transaction is kept when a
      destination is a known address, tagged with the first one. The current
      sync (`payments`) also keeps any other transaction whose label starts
      with "payment"; the older one keeps nothing else. */
  function Classify(tx: RawTx, known: set<string>, payments: bool): Option<Relevant>
  {
    if tx.amount > 0 then
      var a := FirstKnown(tx.destAddresses, known);
      if a.Some? && a.value != "" then Some(Relevant(tx, a)) else None
    else if payments && StartsWith(tx.labelText, "payment") then Some(Relevant(tx, None))
    else None
  }

  /** The filter's reduce over a list, left to right. */
  function RelevantList(txs: seq<RawTx>, known: set<string>, payments: bool): seq<Relevant>
    decreases |txs|
  {
    if txs == [] then []
    else
      var acc := RelevantList(txs[..|txs| - 1], known, payments);
      match Classify(txs[|txs| - 1], known, payments)
      case Some(r) => acc + [r]
      case None => acc
  }

  /** Which transactions the filter keeps, and how it tags them (store ids
      are never empty, so no known address is ""). */
  lemma ClassifyKeeps(tx: RawTx, known: set<string>, payments: bool)
    requires "" !in known
    ensures Classify(tx, known, payments).Some? <==>
              (tx.amount > 0 && exists i :: 0 <= i < |tx.destAddresses| && tx.destAddresses[i] in known) ||
              (payments && tx.amount <= 0 && StartsWith(tx.labelText, "payment"))
    ensures Classify(tx, known, payments).Some? ==> Classify(tx, known, payments).value.tx == tx
    ensures tx.amount > 0 && Classify(tx, known, payments).Some? ==>
              Classify(tx, known, payments).value.address == FirstKnown(tx.destAddresses, known)
    ensures tx.amount <= 0 && Classify(tx, known, payments).Some? ==> Classify(tx, known, payments).value.address == None
  {
    var a := FirstKnown(tx.destAddresses, known);
    if a.Some? {
      assert a.value in known;
    }
  }

  /** The filter works element by element: filtering a concatenation is
      concatenating the filtered parts, so the kept transactions stay in the
      order of the input. */
  lemma {:induction false} RelevantAppend(a: seq<RawTx>, b: seq<RawTx>, known: set<string>, payments: bool)
    ensures RelevantList(a + b, known, payments) == RelevantList(a, known, payments) + RelevantList(b, known, payments)
    decreases |b|
  {
    if b == [] {
      assert a + b == a;
    } else {
      var b' := b[..|b| - 1];
      assert (a + b)[..|a + b| - 1] == a + b';
      assert (a + b)[|a + b| - 1] == b[|b| - 1];
      RelevantAppend(a, b', known, payments);
    }
  }

  /** Filtering the reversed ledger gives the reverse of the filtered ledger:
      the relevant list is oldest first. */
  lemma {:induction false} RelevantOfReverse(txs: seq<RawTx>, known: set<string>, payments: bool)
    ensures RelevantList(Reverse(txs), known, payments) == Reverse(RelevantList(txs, known, payments))
    decreases |txs|
  {
    if txs != [] {
      var init, last := txs[..|txs| - 1], txs[|txs| - 1];
      assert txs == init + [last];
      ReverseAppend(init, [last]);
      assert Reverse([last]) == [last];
      RelevantAppend([last], Reverse(init), known, payments);
      RelevantOfReverse(init, known, payments);
      assert RelevantList([last], known, payments) == RelevantList([], known, payments) + (if Classify(last, known, payments).Some? then [Classify(last, known, payments).value] else []);
      var tail := if Classify(last, known, payments).Some? then [Classify(last, known, payments).value] else [];
      ReverseAppend(RelevantList(init, known, payments), tail);
      assert Reverse(tail) == tail;
    }
  }

  /** `result.transactions.reverse().reduce(...)`: the ledger walked from its
      oldest entry, each kept transaction pushed onto the list. */
  method FilterRelevant(ledger: seq<RawTx>, known: set<string>, payments: bool) returns (relevantList: seq<Relevant>)
    ensures relevantList == RelevantList(Reverse(ledger), known, payments)
  {
    relevantList := [];
    var i := |ledger|;
    while i > 0
      invariant 0 <= i <= |ledger|
      invariant relevantList == RelevantList(Reverse(ledger[i..]), known, payments)
    {
      var tx := ledger[i - 1];
      assert ledger[i - 1..][1..] == ledger[i..];
      assert Reverse(ledger[i - 1..]) == Reverse(ledger[i..]) + [tx];
      assert Reverse(ledger[i - 1..])[..|Reverse(ledger[i - 1..])| - 1] == Reverse(ledger[i..]);
      var kept := Classify(tx, known, payments);
      if kept.Some? {
        relevantList := relevantList + [kept.value];
      }
      i := i - 1;
    }
    assert ledger[0..] == ledger;
  }
}
