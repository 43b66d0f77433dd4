/**
 * How the callables meet: a wallet `createWallet` has just made, the
 * label a payment is broadcast with as the sync reads it back, and the
 * entry a payment records as the balance trigger sums it.
 */
module Interplay {
  import opened Values
  import opened Store
  import opened Ledger
  import opened SyncCommon
  import opened Payment
  import opened Provisioning
  import opened LegacyProvisioning
  import Sync
  import SyncProperties
  import Triggers

  /** A wallet fresh from `createWallet` cannot pay: its `total_settled` is
      0, which the funds guard reads as falsy, so any payment that gets past
      the argument guards fails with FAILED_PRECONDITION. */
  lemma FreshWalletCannotPay(st: Store, caller: Caller, node: NodeAddress, newId: string, now: int,
                             args: PaymentArgs, validAddress: bool, payNode: NodeAnswers)
    requires ValidId(newId)
    requires CreateWalletSpec(st, Some(caller), node, newId, now, true).result.Ok?
    ensures var created := CreateWalletSpec(st, Some(caller), node, newId, now, true).st;
            && ActiveWallet(created, caller.uid) == Some(newId)
            && (CallerGuards(created, Some(caller.uid), args, validAddress).None? ==>
                  MakePaymentSpec(created, Some(caller.uid), args, validAddress, payNode) == PaymentEnd(created, Some(FailedPrecondition)))
  {
    FreshWalletReads(st, caller, node, newId, now);
    var created := CreateWalletSpec(st, Some(caller), node, newId, now, true).st;
    if CallerGuards(created, Some(caller.uid), args, validAddress).None? {
      UnfundedWalletFails(created, caller.uid, newId, args, validAddress, payNode);
    }
  }

  /** What the payment reads of a fresh wallet: the user's active wallet is
      the new one, and its `total_settled` is the number 0. */
  lemma FreshWalletReads(st: Store, caller: Caller, node: NodeAddress, newId: string, now: int)
    requires ValidId(newId)
    requires CreateWalletSpec(st, Some(caller), node, newId, now, true).result.Ok?
    ensures var created := CreateWalletSpec(st, Some(caller), node, newId, now, true).st;
            && ActiveWallet(created, caller.uid) == Some(newId)
            && AvailableBalance(created, newId) == Some(Some(Num(0)))
  {
    CreatedDocumentsLinked(st, Some(caller), node, newId, now, true);
    CreateWalletEffect(st, Some(caller), node, newId, now, true);
    var created := CreateWalletSpec(st, Some(caller), node, newId, now, true).st;
    var wallet := WalletDoc(node.newAddress.value, caller.uid, now);
    assert Lookup(created, Wallets, newId) == Some(wallet);
    NewWalletSettled(node.newAddress.value, caller.uid, now);
  }

  /** A caller past the argument guards whose active wallet has a
      `total_settled` of 0 fails the funds guard. */
  lemma UnfundedWalletFails(st: Store, uid: string, w: string, args: PaymentArgs, validAddress: bool, node: NodeAnswers)
    requires CallerGuards(st, Some(uid), args, validAddress).None?
    requires ActiveWallet(st, uid) == Some(w) && AvailableBalance(st, w) == Some(Some(Num(0)))
    ensures MakePaymentSpec(st, Some(uid), args, validAddress, node) == PaymentEnd(st, Some(FailedPrecondition))
  {
    assert !Funded(Some(Num(0)), Required(args.amount.value, args.fee.value));
  }

  /** A user made by the older `createWallet` has no `active_wallet_id`:
      any payment of theirs that gets past the argument guards throws while
      opening the wallet, an internal error. */
  lemma LegacyUserCannotPay(st: Store, caller: Caller, node: NodeAddress, newId: string, now: int,
                            args: PaymentArgs, validAddress: bool, payNode: NodeAnswers)
    requires LegacyCreateWalletSpec(st, Some(caller), node, newId, now, true).result.Ok?
    ensures var created := LegacyCreateWalletSpec(st, Some(caller), node, newId, now, true).st;
            && ActiveWallet(created, caller.uid).None?
            && (CallerGuards(created, Some(caller.uid), args, validAddress).None? ==>
                  MakePaymentSpec(created, Some(caller.uid), args, validAddress, payNode) == PaymentEnd(created, Some(Internal)))
  {
    LegacyCreateWalletEffect(st, Some(caller), node, newId, now, true);
    LegacyDocumentsShape(node.newAddress.value, caller.uid, now, caller, newId);
  }

  /** The ledger entry of a broadcast payment (an outgoing amount, with the
      label `makePayment` gave it) is kept by the current sync's filter and
      dropped by the older one; the sync reads the label back as the wallet
      and the destination address, and looks the record up under
      `outgoing_txs`, not under the `transactions` collection the payment
      entry was written to. */
  lemma BroadcastSeenBySync(walletId: string, args: PaymentArgs, tx: RawTx, known: set<string>)
    requires ArgumentsPresent(args) && ValidId(walletId)
    requires ':' !in walletId && ':' !in args.address.value
    requires tx.labelText == Broadcast(walletId, args).txLabel && tx.amount <= 0
    ensures Classify(tx, known, true) == Some(Relevant(tx, None))
    ensures Classify(tx, known, false).None?
    ensures Sync.PaymentTarget(tx.labelText) == Some((walletId, args.address.value))
    ensures OutgoingTxs(walletId) != Transactions(walletId)
  {
    SyncProperties.PaymentLabelTarget(walletId, args.address.value);
  }

  /** A payment whose transaction is not yet in the listing is recorded as
      NEW without a fee; the next recompute of the wallet's balance then
      makes `total_settled` NaN, which blocks every further payment from
      that wallet until the entry gains a fee. */
  lemma UnlistedPaymentPoisonsSettled(st: Store, uid: string, args: PaymentArgs, validAddress: bool, node: NodeAnswers)
    requires MakePaymentSpec(st, Some(uid), args, validAddress, node).error.None?
    requires node.listing.Err? || FindTx(node.listing.value, node.sent.value).None?
    ensures var after := MakePaymentSpec(st, Some(uid), args, validAddress, node).st;
            var w := ActiveWallet(st, uid).value;
            && Triggers.RecomputeWallet(after, w).Ok?
            && Member(Get(Docs(Triggers.RecomputeWallet(after, w).value, Wallets)[w], "balance"), "total_settled") == Some(NaN)
            && !Funded(Member(Get(Docs(Triggers.RecomputeWallet(after, w).value, Wallets)[w], "balance"), "total_settled"),
                       Required(args.amount.value, args.fee.value))
  {
    PaymentEffect(st, Some(uid), args, validAddress, node);
    var after := MakePaymentSpec(st, Some(uid), args, validAddress, node).st;
    var w := ActiveWallet(st, uid).value;
    var txid := node.sent.value;
    PaymentEntryFields(txid, args.amount.value, args.address.value, node.listing);
    assert Docs(after, Wallets) == Docs(st, Wallets);
    Triggers.EntryWithoutFeeMakesSettledNaN(after, w, txid);
  }
}
