/**
 * The node's transaction listing as the sync reads it, the confirmation
 * rule, and the payment label that ties an outgoing ledger transaction back
 * to a wallet.
 */
module Ledger {
  import opened Values

  /** One entry of `getTransactions`: signed amount (negative for spends),
      destination addresses, confirmations, block height (0 while in the
      mempool), time in seconds, fees and the free-text label. */
  datatype RawTx = RawTx(
    txHash: string,
    amount: int,
    destAddresses: seq<string>,
    numConfirmations: int,
    blockHeight: int,
    timeStamp: int,
    totalFees: int,
    labelText: string)

  /** A transaction counts as confirmed from six confirmations on. */
  const ConfirmationThreshold := 6

  function StatusOf(numConfirmations: int): string
  {
    if numConfirmations < ConfirmationThreshold then "UNCONFIRMED" else "CONFIRMED"
  }

  predicate IsConfirmed(tx: RawTx)
  {
    tx.numConfirmations >= ConfirmationThreshold
  }

  /** `Timestamp.fromMillis(time_stamp * 1000)` */
  function LedgerTime(tx: RawTx): Stamp
  {
    FromMillis(tx.timeStamp * 1000)
  }

  /** `dests.find((e) => known.includes(e))`: the first destination that is a
      known address. */
  function FirstKnown(dests: seq<string>, known: set<string>): (r: Option<string>)
    ensures r.None? <==> forall i :: 0 <= i < |dests| ==> dests[i] !in known
    ensures r.Some? ==> exists j :: 0 <= j < |dests| && dests[j] == r.value && r.value in known &&
                                    forall i :: 0 <= i < j ==> dests[i] !in known
  {
    if dests == [] then None
    else if dests[0] in known then Some(dests[0])
    else
      var r := FirstKnown(dests[1..], known);
      assert r.Some? ==> exists j :: 1 <= j < |dests| && dests[j] == r.value &&
                                     forall i :: 0 <= i < j ==> dests[i] !in known by {
        if r.Some? {
          var j :| 0 <= j < |dests[1..]| && dests[1..][j] == r.value && r.value in known &&
                   forall i :: 0 <= i < j ==> dests[1..][i] !in known;
          assert dests[j + 1] == r.value;
          assert forall i :: 1 <= i < j + 1 ==> dests[i] == dests[1..][i - 1];
        }
      }
      r
  }

  /** `s.split(c)`: the pieces between separators, always at least one. */
  function Split(s: string, c: char): (r: seq<string>)
    ensures |r| >= 1
  {
    if s == [] then [""]
    else
      var rest := Split(s[1..], c);
      if s[0] == c then [""] + rest else [[s[0]] + rest[0]] + rest[1..]
  }

  lemma {:induction false} SplitNoSeparator(s: string, c: char)
    requires c !in s
    ensures Split(s, c) == [s]
  {
    if s != [] {
      SplitNoSeparator(s[1..], c);
      assert [s[0]] + s[1..] == s;
    }
  }

  lemma {:induction false} SplitAfterPiece(x: string, c: char, y: string)
    requires c !in x
    ensures Split(x + [c] + y, c) == [x] + Split(y, c)
  {
    if x == [] {
      assert x + [c] + y == [c] + y;
    } else {
      var s := x + [c] + y;
      assert s[1..] == x[1..] + [c] + y;
      SplitAfterPiece(x[1..], c, y);
      assert [x[0]] + x[1..] == x;
    }
  }

  /** The label `makePayment` broadcasts: `payment:<walletId>:<address>`. */
  function PaymentLabel(walletId: string, address: string): string
  {
    "payment" + ":" + walletId + ":" + address
  }

  /** Splitting that label on ':' gives back its three pieces, as long as the
      wallet id and the address hold no ':' (store ids and bitcoin addresses
      never do). */
  lemma PaymentLabelSplits(walletId: string, address: string)
    requires ':' !in walletId && ':' !in address
    ensures Split(PaymentLabel(walletId, address), ':') == ["payment", walletId, address]
    ensures StartsWith(PaymentLabel(walletId, address), "payment")
  {
    var text := PaymentLabel(walletId, address);
    assert text == "payment" + [':'] + (walletId + [':'] + address);
    SplitAfterPiece("payment", ':', walletId + [':'] + address);
    SplitAfterPiece(walletId, ':', address);
    SplitNoSeparator(address, ':');
    assert text[..7] == "payment";
  }
}
