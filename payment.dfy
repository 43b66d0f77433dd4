/**
 * `makePayment`: a signed-in user sends coins from their active wallet.
 *
 * The call checks who is asking and what they ask for, then checks the
 * wallet's settled balance against the amount plus a fee allowance. It asks
 * the node to broadcast the payment, looks the new transaction up in the
 * ledger listing to learn its fee, and records the payment under the wallet's
 * `transactions` collection. The node's answers (is it active, the txid of
 * the broadcast, the listing) and the address-format check are inputs.
 */
module Payment {
  import opened Values
  import opened Store
  import opened Ledger

  const MinAmount := 2500
  const MinFee := 1
  const TransferMargin := 1000
  const AverageTransactionSize := 250

  /** The call's payload after `data.x || null`: `None` for a missing or
      null field. A falsy value that is present ("" or 0) is kept, so that
      the guard can reject it. */
  datatype PaymentArgs = PaymentArgs(address: Option<string>, amount: Option<int>, fee: Option<int>)

  /** What the node answers: whether it is active, the txid `sendCoins`
      returns (or its failure), and the `getTransactions` listing (or its
      failure). */
  datatype NodeAnswers = NodeAnswers(active: bool, sent: Result<string>, listing: Result<seq<RawTx>>)

  /** The request `sendCoins` is given. */
  datatype SendRequest = SendRequest(addr: string, amount: int, satPerVbyte: int, txLabel: string)

  /** Where a call ends: the store afterwards, and the error thrown if any. */
  datatype PaymentEnd = PaymentEnd(st: Store, error: Option<ErrorCode>)

  /** `!address || !amount || !fee` fails. */
  predicate ArgumentsPresent(args: PaymentArgs)
  {
    && args.address.Some? && args.address.value != ""
    && args.amount.Some? && args.amount.value != 0
    && args.fee.Some? && args.fee.value != 0
  }

  /** `amount + fee * 250 + 1000` */
  function Required(amount: int, fee: int): int
  {
    amount + fee * AverageTransactionSize + TransferMargin
  }

  /** The funds guard passes unless `total_settled` is falsy or a number
      below what is required. */
  predicate Funded(available: Option<Value>, required: int)
  {
    Truthy(available) && !(available.Some? && available.value.Num? && available.value.n < required)
  }

  /** The guards that run before the wallet is read, in their order. */
  function CallerGuards(st: Store, auth: Option<string>, args: PaymentArgs, validAddress: bool): Option<ErrorCode>
  {
    if auth.None? then Some(PermissionDenied)
    else if !ValidId(auth.value) then Some(Internal)
    else if Lookup(st, Users, auth.value).None? then Some(NotFound)
    else if !ArgumentsPresent(args) then Some(InvalidArgument)
    else if !validAddress then Some(InvalidArgument)
    else if args.amount.value < MinAmount then Some(FailedPrecondition)
    else if args.fee.value < MinFee then Some(FailedPrecondition)
    else None
  }

  /** The wallet the payment is drawn from: the user's `active_wallet_id`,
      when it names a document. */
  function ActiveWallet(st: Store, uid: string): Option<string>
  {
    var user := Lookup(st, Users, uid);
    if user.Some? && Get(user.value, "active_wallet_id").Some? && Get(user.value, "active_wallet_id").value.Str? &&
       ValidId(Get(user.value, "active_wallet_id").value.s)
    then Some(Get(user.value, "active_wallet_id").value.s)
    else None
  }

  /** `walletDoc.data()["balance"]["total_settled"]`, or `None` when reading
      it throws (no wallet document, or no `balance` / a null one). */
  function AvailableBalance(st: Store, walletId: string): Option<Option<Value>>
  {
    var wallet := Lookup(st, Wallets, walletId);
    if wallet.None? then None
    else
      var b := Get(wallet.value, "balance");
      if b.None? || b.value.Null? then None else Some(Member(b, "total_settled"))
  }

  function Broadcast(walletId: string, args: PaymentArgs): SendRequest
    requires ArgumentsPresent(args)
  {
    SendRequest(args.address.value, args.amount.value, args.fee.value, PaymentLabel(walletId, args.address.value))
  }

  /** `result.transactions.find((tx) => tx.tx_hash == txid)`: the first
      listed transaction with that hash. */
  function FindTx(txs: seq<RawTx>, txid: string): (r: Option<RawTx>)
    ensures r.None? <==> forall i :: 0 <= i < |txs| ==> txs[i].txHash != txid
    ensures r.Some? ==> exists j :: 0 <= j < |txs| && txs[j] == r.value && r.value.txHash == txid &&
                                    forall i :: 0 <= i < j ==> txs[i].txHash != txid
  {
    if txs == [] then None
    else if txs[0].txHash == txid then Some(txs[0])
    else
      var r := FindTx(txs[1..], txid);
      assert forall i :: 1 <= i < |txs| ==> txs[i] == txs[1..][i - 1];
      r
  }

  /** The entry first built for the payment. */
  function NewEntry(txid: string, amount: int, address: string): Doc
  {
    map["direction" := Str("OUTGOING"), "tx_hash" := Str(txid), "status" := Str("NEW"),
        "amount" := Num(amount), "address" := Str(address), "created" := Time(ServerTimestamp)]
  }

  /** The payment entry after the ledger lookup: found, it gains the actual
      fee and ledger time and becomes MEMPOOL; an empty or failed lookup
      leaves it NEW. */
  function PaymentEntry(txid: string, amount: int, address: string, listing: Result<seq<RawTx>>): Doc
  {
    var found := if listing.Ok? then FindTx(listing.value, txid) else None;
    if found.Some? then
      NewEntry(txid, amount, address)["fee" := Num(found.value.totalFees)]["timestamp" := Time(LedgerTime(found.value))]
                                      ["status" := Str("MEMPOOL")]
    else NewEntry(txid, amount, address)
  }

  /** `makePayment`, from the store and the inputs to the store afterwards
      and the error thrown. */
  function MakePaymentSpec(st: Store, auth: Option<string>, args: PaymentArgs, validAddress: bool, node: NodeAnswers): PaymentEnd
  {
    var guard := CallerGuards(st, auth, args, validAddress);
    if guard.Some? then PaymentEnd(st, guard)
    else
      var w := ActiveWallet(st, auth.value);
      if w.None? then PaymentEnd(st, Some(Internal))
      else
        var available := AvailableBalance(st, w.value);
        if available.None? then PaymentEnd(st, Some(Internal))
        else if !Funded(available.value, Required(args.amount.value, args.fee.value)) then PaymentEnd(st, Some(FailedPrecondition))
        else if !node.active then PaymentEnd(st, Some(Unavailable))
        else if node.sent.Err? then PaymentEnd(st, Some(Unknown))
        else
          var txid := node.sent.value;
          if !ValidId(txid) then PaymentEnd(st, Some(Unknown))
          else
            PaymentEnd(Put(st, Transactions(w.value), txid,
                           PaymentEntry(txid, args.amount.value, args.address.value, node.listing)),
                       None)
  }

  /** The callable itself: the guards, then the body of the store
      transaction, building the payment entry field by field. Also returns
      the request it gave the node, when it got that far. */
  method MakePayment(db: Database, auth: Option<string>, args: PaymentArgs, validAddress: bool, node: NodeAnswers)
    returns (error: Option<ErrorCode>, request: Option<SendRequest>)
    modifies db
    ensures db.docs == MakePaymentSpec(old(db.docs), auth, args, validAddress, node).st
    ensures error == MakePaymentSpec(old(db.docs), auth, args, validAddress, node).error
    ensures request.Some? <==> CallerGuards(old(db.docs), auth, args, validAddress).None? &&
                               ActiveWallet(old(db.docs), auth.value).Some? &&
                               AvailableBalance(old(db.docs), ActiveWallet(old(db.docs), auth.value).value).Some? &&
                               Funded(AvailableBalance(old(db.docs), ActiveWallet(old(db.docs), auth.value).value).value,
                                      Required(args.amount.value, args.fee.value)) &&
                               node.active
    ensures request.Some? ==> request.value == Broadcast(ActiveWallet(old(db.docs), auth.value).value, args)
  {
    request := None;
    error := CallerGuards(db.docs, auth, args, validAddress);
    if error.Some? {
      return;
    }
    var uid := auth.value;
    var address, amount, fee := args.address.value, args.amount.value, args.fee.value;
    var currentWalletId := ActiveWallet(db.docs, uid);
    if currentWalletId.None? {
      return Some(Internal), None;
    }
    var walletDoc := db.Get(Wallets, currentWalletId.value);
    if walletDoc.None? || Get(walletDoc.value, "balance").None? || Get(walletDoc.value, "balance").value.Null? {
      return Some(Internal), None;
    }
    var totalTransferWithMargin := amount + fee * AverageTransactionSize + TransferMargin;
    var availableBalance := Member(Get(walletDoc.value, "balance"), "total_settled");
    if !Truthy(availableBalance) || (availableBalance.value.Num? && availableBalance.value.n < totalTransferWithMargin) {
      return Some(FailedPrecondition), None;
    }
    if !node.active {
      return Some(Unavailable), None;
    }
    request := Some(SendRequest(address, amount, fee, PaymentLabel(currentWalletId.value, address)));
    if node.sent.Err? {
      return Some(Unknown), request;
    }
    var txid := node.sent.value;
    var paymentEntry := NewEntry(txid, amount, address);
    if node.listing.Ok? {
      var foundTx := FindTx(node.listing.value, txid);
      if foundTx.Some? {
        paymentEntry := paymentEntry["fee" := Num(foundTx.value.totalFees)];
        paymentEntry := paymentEntry["timestamp" := Time(LedgerTime(foundTx.value))];
        paymentEntry := paymentEntry["status" := Str("MEMPOOL")];
      }
    }
    if !ValidId(txid) {
      return Some(Unknown), request;
    }
    db.Set(Transactions(currentWalletId.value), txid, paymentEntry);
    error := None;
  }

  // ---------------------------------------------------------------------
  // What a call guarantees.
  // ---------------------------------------------------------------------

  /** Everything a payment needs for its entry to be written. */
  predicate Succeeds(st: Store, auth: Option<string>, args: PaymentArgs, validAddress: bool, node: NodeAnswers)
  {
    && auth.Some? && ValidId(auth.value) && auth.value in Docs(st, Users)
    && ArgumentsPresent(args) && validAddress
    && args.amount.value >= MinAmount && args.fee.value >= MinFee
    && ActiveWallet(st, auth.value).Some?
    && AvailableBalance(st, ActiveWallet(st, auth.value).value).Some?
    && Funded(AvailableBalance(st, ActiveWallet(st, auth.value).value).value, Required(args.amount.value, args.fee.value))
    && node.active && node.sent.Ok? && ValidId(node.sent.value)
  }

  /** A call either throws and writes nothing, or passes every guard, has
      the coins sent and writes exactly one document: the payment entry at
      `wallets/{wallet}/transactions/{txid}`. */
  lemma PaymentEffect(st: Store, auth: Option<string>, args: PaymentArgs, validAddress: bool, node: NodeAnswers)
    ensures var e := MakePaymentSpec(st, auth, args, validAddress, node);
            && (e.error.None? <==> Succeeds(st, auth, args, validAddress, node))
            && (e.error.Some? ==> e.st == st)
            && (e.error.None? ==>
                  var w := ActiveWallet(st, auth.value).value;
                  var txid := node.sent.value;
                  && Docs(e.st, Transactions(w)) == Docs(st, Transactions(w))[txid := PaymentEntry(txid, args.amount.value, args.address.value, node.listing)]
                  && (forall c :: c != Transactions(w) ==> Docs(e.st, c) == Docs(st, c)))
  {
  }

  /** The guards before the wallet is read, in order: no caller, unknown
      caller, missing argument, malformed address, amount below 2500, fee
      below 1. Then, inside the store transaction: a user without a usable
      active wallet or a wallet without a balance throws, an unfunded wallet
      is refused, an inactive node is unavailable, and a failed broadcast is
      unknown. Each stops the call with nothing written. */
  lemma PaymentGuardOrder(st: Store, auth: Option<string>, args: PaymentArgs, validAddress: bool, node: NodeAnswers)
    ensures var e := MakePaymentSpec(st, auth, args, validAddress, node);
            && (auth.None? ==> e == PaymentEnd(st, Some(PermissionDenied)))
            && (auth.Some? && !ValidId(auth.value) ==> e == PaymentEnd(st, Some(Internal)))
            && (auth.Some? && ValidId(auth.value) && auth.value !in Docs(st, Users) ==> e == PaymentEnd(st, Some(NotFound)))
            && (auth.Some? && ValidId(auth.value) && auth.value in Docs(st, Users) ==>
                  && (!ArgumentsPresent(args) ==> e == PaymentEnd(st, Some(InvalidArgument)))
                  && (ArgumentsPresent(args) && !validAddress ==> e == PaymentEnd(st, Some(InvalidArgument)))
                  && (ArgumentsPresent(args) && validAddress && args.amount.value < MinAmount ==>
                        e == PaymentEnd(st, Some(FailedPrecondition)))
                  && (ArgumentsPresent(args) && validAddress && args.amount.value >= MinAmount && args.fee.value < MinFee ==>
                        e == PaymentEnd(st, Some(FailedPrecondition))))
            && (CallerGuards(st, auth, args, validAddress).None? ==>
                  var w := ActiveWallet(st, auth.value);
                  && (w.None? ==> e == PaymentEnd(st, Some(Internal)))
                  && (w.Some? && AvailableBalance(st, w.value).None? ==> e == PaymentEnd(st, Some(Internal)))
                  && (w.Some? && AvailableBalance(st, w.value).Some? ==>
                        var funded := Funded(AvailableBalance(st, w.value).value, Required(args.amount.value, args.fee.value));
                        && (!funded ==> e == PaymentEnd(st, Some(FailedPrecondition)))
                        && (funded && !node.active ==> e == PaymentEnd(st, Some(Unavailable)))
                        && (funded && node.active && (node.sent.Err? || node.sent.value == "") ==>
                              e == PaymentEnd(st, Some(Unknown)))))
  {
  }

  /** For a numeric `total_settled` the funds guard passes exactly when it
      covers the amount, the fee allowance and the margin (equal is
      enough); a NaN, null or missing balance never passes. */
  lemma FundsGuardIff(available: Option<Value>, amount: int, fee: int)
    requires amount >= MinAmount && fee >= MinFee
    ensures available.Some? && available.value.Num? ==>
              (Funded(available, Required(amount, fee)) <==> available.value.n >= Required(amount, fee))
    ensures available == Some(NaN) || available == Some(Null) || available.None? ==> !Funded(available, Required(amount, fee))
  {
  }

  /** The recorded entry: always OUTGOING with the txid, amount, address and
      the commit time; MEMPOOL with the listed fee and ledger time exactly
      when the listing holds the txid, NEW with neither otherwise. */
  lemma PaymentEntryFields(txid: string, amount: int, address: string, listing: Result<seq<RawTx>>)
    ensures var e := PaymentEntry(txid, amount, address, listing);
            && Get(e, "direction") == Some(Str("OUTGOING"))
            && Get(e, "tx_hash") == Some(Str(txid))
            && Get(e, "amount") == Some(Num(amount))
            && Get(e, "address") == Some(Str(address))
            && Get(e, "created") == Some(Time(ServerTimestamp))
            && (Get(e, "status") == Some(Str("MEMPOOL")) <==>
                  listing.Ok? && exists i :: 0 <= i < |listing.value| && listing.value[i].txHash == txid)
            && (Get(e, "status") != Some(Str("MEMPOOL")) ==>
                  Get(e, "status") == Some(Str("NEW")) && "fee" !in e && "timestamp" !in e)
            && (listing.Ok? && FindTx(listing.value, txid).Some? ==>
                  Get(e, "fee") == Some(Num(FindTx(listing.value, txid).value.totalFees)) &&
                  Get(e, "timestamp") == Some(Time(FromMillis(FindTx(listing.value, txid).value.timeStamp * 1000))))
  {
  }
}
