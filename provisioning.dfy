/**
 * `createWallet`: a signed-in user without a user document gets a wallet,
 * a fresh node address and a user document, written in one batch.
 *
 * The node (whether it is active, the address `newAddress` hands out), the
 * id the store generates for the wallet, the clock and whether the batch
 * commit succeeds are inputs.
 */
module Provisioning {
  import opened Values
  import opened Store
  import Triggers

  /** The signed-in caller: `context.auth.uid` and the token's email and name. */
  datatype Caller = Caller(uid: string, email: Option<string>, name: Option<string>)

  /** The node's side: whether it is active after `activateLightning`, and
      the address `newAddress` returns (`None` for a null result). */
  datatype NodeAddress = NodeAddress(active: bool, newAddress: Option<string>)

  /** Where a call ends: the store afterwards, and the new wallet id or the
      error thrown. */
  datatype CreateEnd = CreateEnd(st: Store, result: Result<string>)

  /** `token.x || null` */
  function OrNull(s: Option<string>): Value
  {
    if s.Some? && s.value != "" then Str(s.value) else Null
  }

  /** The checks before anything is built, shared by both versions of the
      callable: the caller, then an existing user document, then the node's
      address. Gives the caller and the address on success. */
  function CreationGuards(st: Store, auth: Option<Caller>, node: NodeAddress): Result<(Caller, string)>
  {
    if auth.None? then Err(Unauthenticated)
    else if !ValidId(auth.value.uid) then Err(Internal)
    else if auth.value.uid in Docs(st, Users) then Err(AlreadyExists)
    else if !node.active || node.newAddress.None? then Err(Aborted)
    else if !ValidId(node.newAddress.value) then Err(Internal)
    else Ok((auth.value, node.newAddress.value))
  }

  function Zeros(): Value
  {
    Fields(map["confirmed" := Num(0), "unconfirmed" := Num(0)])
  }

  /** The new wallet: every balance at 0, the address as its active and only
      address, owned by the caller. */
  function WalletDoc(address: string, uid: string, now: int): Doc
  {
    map["balance" := Fields(map["total_settled" := Num(0), "incoming" := Zeros(), "outgoing" := Zeros()]),
        "active_address" := Str(address),
        "created" := Time(ClientDate(now)),
        "last_updated" := Time(ClientDate(now)),
        "owner_id" := Str(uid),
        "associated_addresses" := List([Str(address)])]
  }

  /** The address document: the wallet it belongs to. */
  function AddressDoc(walletId: string): Doc
  {
    map["wallet_id" := Str(walletId)]
  }

  function UserDoc(caller: Caller, walletId: string): Doc
  {
    map["email" := OrNull(caller.email), "name" := OrNull(caller.name),
        "active_wallet_id" := Str(walletId), "associated_wallet_ids" := List([Str(walletId)])]
  }

  /** `createWallet` from the store and the inputs. */
  function CreateWalletSpec(st: Store, auth: Option<Caller>, node: NodeAddress, newId: string, now: int, commitOk: bool): CreateEnd
  {
    var g := CreationGuards(st, auth, node);
    if g.Err? then CreateEnd(st, Err(g.code))
    else if !commitOk then CreateEnd(st, Err(Aborted))
    else
      var (caller, address) := g.value;
      CreateEnd(ApplyAll(st, [SetDoc(Wallets, newId, WalletDoc(address, caller.uid, now)),
                              SetDoc(Users, caller.uid, UserDoc(caller, newId)),
                              SetDoc(Addresses, address, AddressDoc(newId))]),
                Ok(newId))
  }

  /** The callable: the guards, the three documents set on one batch, and
      the commit. */
  method CreateWallet(db: Database, auth: Option<Caller>, node: NodeAddress, newId: string, now: int, commitOk: bool)
    returns (r: Result<string>)
    modifies db
    ensures db.docs == CreateWalletSpec(old(db.docs), auth, node, newId, now, commitOk).st
    ensures r == CreateWalletSpec(old(db.docs), auth, node, newId, now, commitOk).result
  {
    var g := CreationGuards(db.docs, auth, node);
    if g.Err? {
      return Err(g.code);
    }
    var (caller, address) := g.value;
    var batch := new WriteBatch();
    batch.Set(Wallets, newId, WalletDoc(address, caller.uid, now));
    batch.Set(Users, caller.uid, UserDoc(caller, newId));
    batch.Set(Addresses, address, AddressDoc(newId));
    if !commitOk {
      return Err(Aborted);
    }
    assert batch.writes == [SetDoc(Wallets, newId, WalletDoc(address, caller.uid, now)),
                            SetDoc(Users, caller.uid, UserDoc(caller, newId)),
                            SetDoc(Addresses, address, AddressDoc(newId))];
    db.Commit(batch);
    r := Ok(newId);
  }

  // ---------------------------------------------------------------------
  // What a call guarantees.
  // ---------------------------------------------------------------------

  /** Three sets on three different collections: each collection gains its
      one document, all others are as they were. */
  lemma CommitThree(st: Store, a: Write, b: Write, c: Write)
    requires a.coll != b.coll && a.coll != c.coll && b.coll != c.coll
    ensures var r := ApplyAll(st, [a, b, c]);
            && Docs(r, a.coll) == Docs(st, a.coll)[a.id := a.doc]
            && Docs(r, b.coll) == Docs(st, b.coll)[b.id := b.doc]
            && Docs(r, c.coll) == Docs(st, c.coll)[c.id := c.doc]
            && (forall k :: k != a.coll && k != b.coll && k != c.coll ==> Docs(r, k) == Docs(st, k))
  {
    var ws := [a, b, c];
    assert ws[..2] == [a, b] && [a, b][..1] == [a] && [a][..0] == [];
    assert ApplyAll(st, [a]) == Apply(st, a);
    assert ApplyAll(st, [a, b]) == Apply(ApplyAll(st, [a]), b);
    assert ApplyAll(st, ws) == Apply(ApplyAll(st, [a, b]), c);
  }

  /** Both versions fail in the same order: no caller, an existing user, no
      address from the node, then the commit. */
  lemma CreationGuardOrder(st: Store, auth: Option<Caller>, node: NodeAddress)
    ensures var g := CreationGuards(st, auth, node);
            && (auth.None? ==> g == Err(Unauthenticated))
            && (auth.Some? && ValidId(auth.value.uid) && auth.value.uid in Docs(st, Users) ==> g == Err(AlreadyExists))
            && (auth.Some? && ValidId(auth.value.uid) && auth.value.uid !in Docs(st, Users) && (!node.active || node.newAddress.None?) ==>
                  g == Err(Aborted))
            && (g.Ok? <==> auth.Some? && ValidId(auth.value.uid) && auth.value.uid !in Docs(st, Users) &&
                           node.active && node.newAddress.Some? && ValidId(node.newAddress.value))
            && (g.Ok? ==> g.value == (auth.value, node.newAddress.value))
  {
  }

  /** All or nothing: a failed call writes nothing; a successful one returns
      the generated id and writes exactly the wallet, the user and the
      address documents. */
  lemma CreateWalletEffect(st: Store, auth: Option<Caller>, node: NodeAddress, newId: string, now: int, commitOk: bool)
    ensures var e := CreateWalletSpec(st, auth, node, newId, now, commitOk);
            && (e.result.Ok? <==> CreationGuards(st, auth, node).Ok? && commitOk)
            && (e.result.Err? ==> e.st == st)
            && (e.result.Ok? ==>
                  var uid, address := auth.value.uid, node.newAddress.value;
                  && e.result.value == newId
                  && Docs(e.st, Wallets) == Docs(st, Wallets)[newId := WalletDoc(address, uid, now)]
                  && Docs(e.st, Users) == Docs(st, Users)[uid := UserDoc(auth.value, newId)]
                  && Docs(e.st, Addresses) == Docs(st, Addresses)[address := AddressDoc(newId)]
                  && (forall c :: c != Wallets && c != Users && c != Addresses ==> Docs(e.st, c) == Docs(st, c)))
  {
    var g := CreationGuards(st, auth, node);
    if g.Ok? && commitOk {
      var (caller, address) := g.value;
      CommitThree(st, SetDoc(Wallets, newId, WalletDoc(address, caller.uid, now)),
                  SetDoc(Users, caller.uid, UserDoc(caller, newId)),
                  SetDoc(Addresses, address, AddressDoc(newId)));
    }
  }

  /** The new wallet starts with every balance at 0 and satisfies the
      settled formula the balance triggers maintain. */
  lemma NewWalletSettled(address: string, uid: string, now: int)
    ensures Triggers.SettledHolds(WalletDoc(address, uid, now))
    ensures var b := Get(WalletDoc(address, uid, now), "balance");
            && Member(b, "total_settled") == Some(Num(0))
            && Member(Member(b, "incoming"), "confirmed") == Some(Num(0))
            && Member(Member(b, "incoming"), "unconfirmed") == Some(Num(0))
            && Member(Member(b, "outgoing"), "confirmed") == Some(Num(0))
            && Member(Member(b, "outgoing"), "unconfirmed") == Some(Num(0))
  {
  }

  /** The three documents name each other: the user's active wallet is the
      new wallet, owned by the user, whose active address maps back to it. */
  lemma CreatedDocumentsLinked(st: Store, auth: Option<Caller>, node: NodeAddress, newId: string, now: int, commitOk: bool)
    ensures var e := CreateWalletSpec(st, auth, node, newId, now, commitOk);
            e.result.Ok? ==>
              var uid, address := auth.value.uid, node.newAddress.value;
              && Lookup(e.st, Users, uid).Some? && Get(Lookup(e.st, Users, uid).value, "active_wallet_id") == Some(Str(newId))
              && Get(Lookup(e.st, Users, uid).value, "associated_wallet_ids") == Some(List([Str(newId)]))
              && Lookup(e.st, Wallets, newId).Some? && Get(Lookup(e.st, Wallets, newId).value, "owner_id") == Some(Str(uid))
              && Get(Lookup(e.st, Wallets, newId).value, "active_address") == Some(Str(address))
              && Get(Lookup(e.st, Wallets, newId).value, "associated_addresses") == Some(List([Str(address)]))
              && Lookup(e.st, Addresses, address) == Some(AddressDoc(newId))
  {
    CreateWalletEffect(st, auth, node, newId, now, commitOk);
  }
}
