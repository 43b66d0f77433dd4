/**
 * The older `createWallet`: the same guards and the same three-document
 * batch. The wallet has a single `current_balance` instead of the balance
 * tree, and the user document names it `current_wallet_id`.
 */
module LegacyProvisioning {
  import opened Values
  import opened Store
  import opened Provisioning
  import Triggers

  /** The older wallet document: balance 0, the address as its current and
      only address, owned by the caller. */
  function LegacyWalletDoc(address: string, uid: string, now: int): Doc
  {
    map["current_address" := Str(address),
        "current_balance" := Num(0),
        "last_updated" := Time(ClientDate(now)),
        "owner_id" := Str(uid),
        "addresses" := List([Str(address)])]
  }

  function LegacyUserDoc(caller: Caller, walletId: string): Doc
  {
    map["email" := OrNull(caller.email), "name" := OrNull(caller.name),
        "current_wallet_id" := Str(walletId), "associated_wallet_ids" := List([Str(walletId)])]
  }

  function LegacyCreateWalletSpec(st: Store, auth: Option<Caller>, node: NodeAddress, newId: string, now: int, commitOk: bool): CreateEnd
  {
    var g := CreationGuards(st, auth, node);
    if g.Err? then CreateEnd(st, Err(g.code))
    else if !commitOk then CreateEnd(st, Err(Aborted))
    else
      var (caller, address) := g.value;
      CreateEnd(ApplyAll(st, [SetDoc(Wallets, newId, LegacyWalletDoc(address, caller.uid, now)),
                              SetDoc(Users, caller.uid, LegacyUserDoc(caller, newId)),
                              SetDoc(Addresses, address, AddressDoc(newId))]),
                Ok(newId))
  }

  method LegacyCreateWallet(db: Database, auth: Option<Caller>, node: NodeAddress, newId: string, now: int, commitOk: bool)
    returns (r: Result<string>)
    modifies db
    ensures db.docs == LegacyCreateWalletSpec(old(db.docs), auth, node, newId, now, commitOk).st
    ensures r == LegacyCreateWalletSpec(old(db.docs), auth, node, newId, now, commitOk).result
  {
    var g := CreationGuards(db.docs, auth, node);
    if g.Err? {
      return Err(g.code);
    }
    var (caller, address) := g.value;
    var batch := new WriteBatch();
    batch.Set(Wallets, newId, LegacyWalletDoc(address, caller.uid, now));
    batch.Set(Users, caller.uid, LegacyUserDoc(caller, newId));
    batch.Set(Addresses, address, AddressDoc(newId));
    if !commitOk {
      return Err(Aborted);
    }
    assert batch.writes == [SetDoc(Wallets, newId, LegacyWalletDoc(address, caller.uid, now)),
                            SetDoc(Users, caller.uid, LegacyUserDoc(caller, newId)),
                            SetDoc(Addresses, address, AddressDoc(newId))];
    db.Commit(batch);
    r := Ok(newId);
  }

  /** All or nothing, as in the current version, with the older documents. */
  lemma LegacyCreateWalletEffect(st: Store, auth: Option<Caller>, node: NodeAddress, newId: string, now: int, commitOk: bool)
    ensures var e := LegacyCreateWalletSpec(st, auth, node, newId, now, commitOk);
            && (e.result.Ok? <==> CreationGuards(st, auth, node).Ok? && commitOk)
            && (e.result.Err? ==> e.st == st)
            && (e.result.Ok? ==>
                  var uid, address := auth.value.uid, node.newAddress.value;
                  && e.result.value == newId
                  && Docs(e.st, Wallets) == Docs(st, Wallets)[newId := LegacyWalletDoc(address, uid, now)]
                  && Docs(e.st, Users) == Docs(st, Users)[uid := LegacyUserDoc(auth.value, newId)]
                  && Docs(e.st, Addresses) == Docs(st, Addresses)[address := AddressDoc(newId)]
                  && (forall c :: c != Wallets && c != Users && c != Addresses ==> Docs(e.st, c) == Docs(st, c)))
  {
    var g := CreationGuards(st, auth, node);
    if g.Ok? && commitOk {
      var (caller, address) := g.value;
      CommitThree(st, SetDoc(Wallets, newId, LegacyWalletDoc(address, caller.uid, now)),
                  SetDoc(Users, caller.uid, LegacyUserDoc(caller, newId)),
                  SetDoc(Addresses, address, AddressDoc(newId)));
    }
  }

  /** Both versions fail on the same inputs, with the same error, and then
      the store is the one they started from. */
  lemma VersionsFailAlike(st: Store, auth: Option<Caller>, node: NodeAddress, newId: string, now: int, commitOk: bool)
    ensures LegacyCreateWalletSpec(st, auth, node, newId, now, commitOk).result.Err? ==>
              LegacyCreateWalletSpec(st, auth, node, newId, now, commitOk) == CreateWalletSpec(st, auth, node, newId, now, commitOk)
    ensures LegacyCreateWalletSpec(st, auth, node, newId, now, commitOk).result ==
              CreateWalletSpec(st, auth, node, newId, now, commitOk).result
  {
  }

  /** The older wallet carries a number as its balance, no balance tree:
      the settled formula of the balance triggers does not hold for it, and
      its user document has no `active_wallet_id`. */
  lemma LegacyDocumentsShape(address: string, uid: string, now: int, caller: Caller, walletId: string)
    ensures Get(LegacyWalletDoc(address, uid, now), "current_balance") == Some(Num(0))
    ensures Get(LegacyWalletDoc(address, uid, now), "balance").None?
    ensures !Triggers.SettledHolds(LegacyWalletDoc(address, uid, now))
    ensures Get(LegacyUserDoc(caller, walletId), "active_wallet_id").None?
    ensures Get(LegacyUserDoc(caller, walletId), "current_wallet_id") == Some(Str(walletId))
  {
  }
}
