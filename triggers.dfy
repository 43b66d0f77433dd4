/**
 * The balance triggers. Each one rescans a collection, folds it into sums and
 * writes the sums into a parent document, as one atomic step.
 *
 * Each trigger is a method over the `Database`; its effect on the store is
 * given by a ghost function of the store before it ran, defined with the
 * order-free `Sum`, and the properties of the triggers are lemmas about those
 * effect functions.
 */
module Triggers {
  import opened Values
  import opened Store
  import opened Aggregates

  // ---------------------------------------------------------------------
  // Address level: `incoming_txs` folded into two fields of the address.
  // ---------------------------------------------------------------------

  /** The two fields an address-level trigger writes. */
  datatype AddressFields = AddressFields(confirmed: string, unconfirmed: string)

  /** `on_incoming_tx_status_update` */
  const CurrentAddressFields := AddressFields("address_balance_confirmed", "address_balance_unconfirmed")
  /** The older `update_address_balance` */
  const LegacyAddressFields := AddressFields("confirmed_balance", "pending_balance")

  ghost function AddressUpdate(txs: map<string, Doc>, fields: AddressFields): Doc
  {
    map[fields.confirmed := Stored(Sum(txs, ConfirmedAmount)),
        fields.unconfirmed := Stored(Sum(txs, UnconfirmedAmount))]
  }

  /** The address trigger: an `update` of the address document with the two
      sums over its `incoming_txs`; NOT_FOUND when the address document does
      not exist. */
  ghost function RecomputeAddress(st: Store, address: string, fields: AddressFields): Result<Store>
  {
    if !ValidId(address) then Err(Internal)
    else
      var u := UpdateFields(st, Addresses, address, AddressUpdate(Docs(st, IncomingTxs(address)), fields));
      if u.Some? then Ok(u.value) else Err(NotFound)
  }

  /** What the address trigger does: it fails exactly when the address
      document is missing; otherwise the address document gets the sum of
      `amount` over the CONFIRMED transactions and the sum over all others in
      the two fields, keeps every other field, and nothing else in the store
      changes. */
  lemma RecomputeAddressWrites(st: Store, address: string, fields: AddressFields)
    requires fields.confirmed != fields.unconfirmed
    ensures var r := RecomputeAddress(st, address, fields);
            && (r.Err? <==> !ValidId(address) || address !in Docs(st, Addresses))
            && (r.Err? && ValidId(address) ==> r.code == NotFound)
            && (r.Ok? ==>
                  var txs := Docs(st, IncomingTxs(address));
                  var old_ := Docs(st, Addresses)[address];
                  && Docs(r.value, Addresses) == Docs(st, Addresses)[address :=
                       old_[fields.confirmed := Stored(Sum(Filter(txs, IsConfirmedDoc), FieldAmount("amount")))]
                           [fields.unconfirmed := Stored(Sum(Filter(txs, IsUnconfirmedDoc), FieldAmount("amount")))]]
                  && forall c :: c != Addresses ==> Docs(r.value, c) == Docs(st, c))
  {
    var txs := Docs(st, IncomingTxs(address));
    StatusSumsAreFiltered(txs);
    if ValidId(address) && address in Docs(st, Addresses) {
      var old_ := Docs(st, Addresses)[address];
      var upd := AddressUpdate(txs, fields);
      assert old_ + upd == old_[fields.confirmed := upd[fields.confirmed]][fields.unconfirmed := upd[fields.unconfirmed]];
    }
  }

  /** An address with no incoming transactions gets 0 and 0. */
  lemma RecomputeAddressEmpty(st: Store, address: string, fields: AddressFields)
    requires ValidId(address) && address in Docs(st, Addresses) && Docs(st, IncomingTxs(address)) == map[]
    ensures var r := RecomputeAddress(st, address, fields);
            && r.Ok?
            && Docs(r.value, Addresses)[address][fields.confirmed] == Num(0)
            && Docs(r.value, Addresses)[address][fields.unconfirmed] == Num(0)
  {
    var txs := Docs(st, IncomingTxs(address));
    assert Sum(txs, ConfirmedAmount) == Finite(0);
    assert Sum(txs, UnconfirmedAmount) == Finite(0);
  }

  /** Triggering again on the store the trigger produced changes nothing. */
  lemma RecomputeAddressIdempotent(st: Store, address: string, fields: AddressFields)
    requires RecomputeAddress(st, address, fields).Ok?
    ensures var r := RecomputeAddress(st, address, fields);
            RecomputeAddress(r.value, address, fields) == r
  {
    var txs := Docs(st, IncomingTxs(address));
    var upd := AddressUpdate(txs, fields);
    var st1 := RecomputeAddress(st, address, fields).value;
    var d1 := Docs(st, Addresses)[address] + upd;
    assert st1 == Put(st, Addresses, address, d1);
    assert Docs(st1, IncomingTxs(address)) == txs;
    assert d1 + upd == d1;
    assert Docs(st1, Addresses)[address] == d1;
    assert Docs(st1, Addresses)[address := d1] == Docs(st1, Addresses);
    assert Addresses in st1;
    assert Put(st1, Addresses, address, d1 + upd) == st1;
  }

  /** One address trigger run against the database. */
  method RecomputeAddressBalance(db: Database, address: string, fields: AddressFields) returns (failure: Option<ErrorCode>)
    modifies db
    ensures failure == ErrorOf(RecomputeAddress(old(db.docs), address, fields))
    ensures db.docs == After(old(db.docs), RecomputeAddress(old(db.docs), address, fields))
  {
    if !ValidId(address) {
      return Some(Internal);
    }
    var snap := db.Query(IncomingTxs(address));
    var sums := SplitFold(snap);
    FoldIsSum(snap, Docs(db.docs, IncomingTxs(address)), ConfirmedAmount);
    FoldIsSum(snap, Docs(db.docs, IncomingTxs(address)), UnconfirmedAmount);
    var found := db.Update(Addresses, address,
                           map[fields.confirmed := Stored(sums.confirmed), fields.unconfirmed := Stored(sums.unconfirmed)]);
    failure := if found then None else Some(NotFound);
  }

  /** `onIncomingTxStatusUpdate`, fired by a write to `addresses/{address}/incoming_txs/{tx_hash}`. */
  method OnIncomingTxStatusUpdate(db: Database, address: string) returns (failure: Option<ErrorCode>)
    modifies db
    ensures failure == ErrorOf(RecomputeAddress(old(db.docs), address, CurrentAddressFields))
    ensures db.docs == After(old(db.docs), RecomputeAddress(old(db.docs), address, CurrentAddressFields))
  {
    failure := RecomputeAddressBalance(db, address, CurrentAddressFields);
  }

  /** `updateAddressBalance`, the older trigger on the same path. */
  method UpdateAddressBalance(db: Database, address: string) returns (failure: Option<ErrorCode>)
    modifies db
    ensures failure == ErrorOf(RecomputeAddress(old(db.docs), address, LegacyAddressFields))
    ensures db.docs == After(old(db.docs), RecomputeAddress(old(db.docs), address, LegacyAddressFields))
  {
    failure := RecomputeAddressBalance(db, address, LegacyAddressFields);
  }

  // ---------------------------------------------------------------------
  // Wallet level, incoming: the wallet's addresses folded into the wallet.
  // ---------------------------------------------------------------------

  /** `change.after.data()["wallet_id"]`, when it can name a document: a
      deleted address document, a missing field or a value that is not a
      non-empty string makes the trigger throw. */
  function WalletIdOf(after: Option<Doc>): Option<string>
  {
    if after.Some? && Get(after.value, "wallet_id").Some? && Get(after.value, "wallet_id").value.Str?
       && ValidId(Get(after.value, "wallet_id").value.s)
    then Some(Get(after.value, "wallet_id").value.s)
    else None
  }

  /** The addresses whose `wallet_id` is the wallet. */
  function WalletAddresses(st: Store, walletId: string): map<string, Doc>
  {
    Where(Docs(st, Addresses), "wallet_id", Str(walletId))
  }

  /** The merge document of a wallet-level trigger: `balance.<side>` and
      `last_updated`. */
  function BalanceHalf(side: string, confirmed: Total, unconfirmed: Total): Doc
  {
    map["balance" := Fields(map[side := Fields(HalfOf(confirmed, unconfirmed))]),
        "last_updated" := Time(ServerTimestamp)]
  }

  /** `onAddressBalanceUpdate`'s effect, with the field it sums as confirmed
      balance as a parameter: the code reads `address_balance`. No write when
      the wallet is missing or no address names it; otherwise a merge of
      `balance.incoming` and `last_updated`. */
  ghost function RecomputeWalletIncoming(st: Store, after: Option<Doc>, confirmedField: string): Result<Store>
  {
    var w := WalletIdOf(after);
    if w.None? then Err(Internal)
    else if w.value !in Docs(st, Wallets) then Ok(st)
    else
      var addrs := WalletAddresses(st, w.value);
      if addrs == map[] then Ok(st)
      else
        Ok(MergeInto(st, Wallets, w.value,
             BalanceHalf("incoming", Sum(addrs, FieldAmount(confirmedField)),
                                     Sum(addrs, FieldAmount("address_balance_unconfirmed")))))
  }

  /** Merging a non-empty map into a value: a map merges key by key, any
      other value is replaced. */
  lemma MergeOne(o: Value, n: map<string, Value>)
    requires n != map[]
    ensures var r := MergeValue(o, Fields(n));
            && r.Fields?
            && (o.Fields? ==> r.m.Keys == o.m.Keys + n.Keys)
            && (!o.Fields? ==> r == Fields(n))
            && (forall k :: k in n && (!o.Fields? || k !in o.m) ==> r.m[k] == n[k])
            && (forall k :: o.Fields? && k in o.m && k !in n ==> r.m[k] == o.m[k])
            && (forall k :: o.Fields? && k in o.m && k in n ==> r.m[k] == MergeValue(o.m[k], n[k]))
  {
  }

  function BalanceOf(o: Doc): Value
  {
    if "balance" in o then o["balance"] else Null
  }

  function SideOf(b: Value, side: string): Value
  {
    if b.Fields? && side in b.m then b.m[side] else Null
  }

  function HalfOf(c: Total, u: Total): map<string, Value>
  {
    map["confirmed" := Stored(c), "unconfirmed" := Stored(u)]
  }

  /** The top level of a half merge. */
  lemma MergedHalfTop(o: Doc, side: string, c: Total, u: Total)
    ensures var r := MergeDoc(o, BalanceHalf(side, c, u));
            && r.Keys == o.Keys + {"balance", "last_updated"}
            && r["last_updated"] == Time(ServerTimestamp)
            && r["balance"] == MergeValue(BalanceOf(o), Fields(map[side := Fields(HalfOf(c, u))]))
            && (forall k :: k in o && k != "balance" && k != "last_updated" ==> r[k] == o[k])
  {
    var n := BalanceHalf(side, c, u);
    assert "balance" in n;
    MergeOne(Fields(o), n);
    assert MergeDoc(o, n) == MergeValue(Fields(o), Fields(n)).m;
  }

  /** The `balance` level of a half merge. */
  lemma MergedHalfBalance(b: Value, side: string, c: Total, u: Total)
    ensures var rb := MergeValue(b, Fields(map[side := Fields(HalfOf(c, u))]));
            && Member(Some(rb), side) == Some(MergeValue(SideOf(b, side), Fields(HalfOf(c, u))))
            && forall k :: k != side ==> Member(Some(rb), k) == Member(Some(b), k)
  {
    var nb := map[side := Fields(HalfOf(c, u))];
    assert side in nb;
    MergeOne(b, nb);
  }

  /** The `balance.<side>` level of a half merge. */
  lemma MergedHalfSide(v: Value, c: Total, u: Total)
    ensures var rs := MergeValue(v, Fields(HalfOf(c, u)));
            && Member(Some(rs), "confirmed") == Some(Stored(c))
            && Member(Some(rs), "unconfirmed") == Some(Stored(u))
            && forall k :: k != "confirmed" && k != "unconfirmed" ==> Member(Some(rs), k) == Member(Some(v), k)
  {
    assert "confirmed" in HalfOf(c, u);
    MergeOne(v, HalfOf(c, u));
  }

  /** A merge of one balance half sets `balance.<side>.confirmed`,
      `balance.<side>.unconfirmed` and `last_updated`, and keeps every other
      field at each of the three levels: the other half and `total_settled`
      survive it. */
  lemma MergedHalfShape(o: Doc, side: string, c: Total, u: Total)
    ensures var r := MergeDoc(o, BalanceHalf(side, c, u));
            && r.Keys == o.Keys + {"balance", "last_updated"}
            && Member(Member(Get(r, "balance"), side), "confirmed") == Some(Stored(c))
            && Member(Member(Get(r, "balance"), side), "unconfirmed") == Some(Stored(u))
            && r["last_updated"] == Time(ServerTimestamp)
            && (forall k :: k in o && k != "balance" && k != "last_updated" ==> r[k] == o[k])
            && (forall k :: k != side ==> Member(Get(r, "balance"), k) == Member(Get(o, "balance"), k))
            && (forall k :: k != "confirmed" && k != "unconfirmed" ==>
                  Member(Member(Get(r, "balance"), side), k) == Member(Member(Get(o, "balance"), side), k))
  {
    var r := MergeDoc(o, BalanceHalf(side, c, u));
    MergedHalfTop(o, side, c, u);
    var b := BalanceOf(o);
    MergedHalfBalance(b, side, c, u);
    MergedHalfSide(SideOf(b, side), c, u);
    assert Get(r, "balance") == Some(MergeValue(b, Fields(map[side := Fields(HalfOf(c, u))])));
    assert forall k :: Member(Get(o, "balance"), k) == Member(Some(b), k);
    assert forall k :: Member(Member(Get(o, "balance"), side), k) == Member(Some(SideOf(b, side)), k);
  }

  /** What the incoming wallet trigger does: it fails when the address
      document names no wallet, writes nothing when the wallet is missing or
      no address names it, and otherwise sets `balance.incoming` to the sums
      of the summed field and of `address_balance_unconfirmed` over the
      addresses whose `wallet_id` is the wallet, keeping `balance.outgoing`,
      `total_settled` and all other wallet fields; no other document changes. */
  lemma RecomputeWalletIncomingWrites(st: Store, after: Option<Doc>, confirmedField: string)
    ensures var r := RecomputeWalletIncoming(st, after, confirmedField);
            var w := WalletIdOf(after);
            && (r.Err? <==> w.None?)
            && (r.Ok? && (w.value !in Docs(st, Wallets) || WalletAddresses(st, w.value) == map[]) ==> r.value == st)
            && (r.Ok? && w.value in Docs(st, Wallets) && WalletAddresses(st, w.value) != map[] ==>
                  var addrs := WalletAddresses(st, w.value);
                  var o := Docs(st, Wallets)[w.value];
                  var d := Docs(r.value, Wallets)[w.value];
                  && Docs(r.value, Wallets) == Docs(st, Wallets)[w.value := d]
                  && (forall c :: c != Wallets ==> Docs(r.value, c) == Docs(st, c))
                  && Member(Member(Get(d, "balance"), "incoming"), "confirmed") == Some(Stored(Sum(addrs, FieldAmount(confirmedField))))
                  && Member(Member(Get(d, "balance"), "incoming"), "unconfirmed") == Some(Stored(Sum(addrs, FieldAmount("address_balance_unconfirmed"))))
                  && d["last_updated"] == Time(ServerTimestamp)
                  && Member(Get(d, "balance"), "outgoing") == Member(Get(o, "balance"), "outgoing")
                  && Member(Get(d, "balance"), "total_settled") == Member(Get(o, "balance"), "total_settled")
                  && (forall k :: k in o && k != "balance" && k != "last_updated" ==> d[k] == o[k]))
  {
    var w := WalletIdOf(after);
    if w.Some? && w.value in Docs(st, Wallets) && WalletAddresses(st, w.value) != map[] {
      var addrs := WalletAddresses(st, w.value);
      var o := Docs(st, Wallets)[w.value];
      MergedHalfShape(o, "incoming", Sum(addrs, FieldAmount(confirmedField)),
                      Sum(addrs, FieldAmount("address_balance_unconfirmed")));
    }
  }

  /** The incoming wallet trigger with both sums read from one pass. */
  method RecomputeWalletIncomingBalance(db: Database, after: Option<Doc>, confirmedField: string) returns (failure: Option<ErrorCode>)
    modifies db
    ensures failure == ErrorOf(RecomputeWalletIncoming(old(db.docs), after, confirmedField))
    ensures db.docs == After(old(db.docs), RecomputeWalletIncoming(old(db.docs), after, confirmedField))
  {
    var w := WalletIdOf(after);
    if w.None? {
      return Some(Internal);
    }
    var wallet := db.Get(Wallets, w.value);
    if wallet.None? {
      return None;
    }
    var snap := db.QueryWhere(Addresses, "wallet_id", Str(w.value));
    var addrs := WalletAddresses(db.docs, w.value);
    if snap == [] {
      assert addrs.Keys == {};
      return None;
    }
    assert snap[0].id in addrs;
    var sums := FoldPair(snap, FieldAmount(confirmedField), FieldAmount("address_balance_unconfirmed"));
    FoldIsSum(snap, addrs, FieldAmount(confirmedField));
    FoldIsSum(snap, addrs, FieldAmount("address_balance_unconfirmed"));
    db.SetMerge(Wallets, w.value, BalanceHalf("incoming", sums.confirmed, sums.unconfirmed));
    failure := None;
  }

  /** `onAddressBalanceUpdate`, fired by a write to `addresses/{address}`; it
      sums `address_balance` as the confirmed balance. */
  method OnAddressBalanceUpdate(db: Database, after: Option<Doc>) returns (failure: Option<ErrorCode>)
    modifies db
    ensures failure == ErrorOf(RecomputeWalletIncoming(old(db.docs), after, "address_balance"))
    ensures db.docs == After(old(db.docs), RecomputeWalletIncoming(old(db.docs), after, "address_balance"))
  {
    failure := RecomputeWalletIncomingBalance(db, after, "address_balance");
  }

  /** An address document the current address trigger wrote carries
      `address_balance_confirmed` and no `address_balance`: the latter is
      written by no function. */
  predicate WrittenByAddressTrigger(d: Doc)
  {
    "address_balance_confirmed" in d && "address_balance" !in d
  }

  /** As written, the wallet's incoming confirmed balance is NaN as soon as
      one of the wallet's addresses is in the shape the address trigger
      leaves it in. */
  lemma IncomingReadsUnwrittenField(st: Store, after: Option<Doc>, a: string)
    requires WalletIdOf(after).Some? && WalletIdOf(after).value in Docs(st, Wallets)
    requires a in WalletAddresses(st, WalletIdOf(after).value)
    requires WrittenByAddressTrigger(Docs(st, Addresses)[a])
    ensures var r := RecomputeWalletIncoming(st, after, "address_balance");
            var w := WalletIdOf(after).value;
            r.Ok? && Member(Member(Get(Docs(r.value, Wallets)[w], "balance"), "incoming"), "confirmed") == Some(NaN)
  {
    var w := WalletIdOf(after).value;
    var addrs := WalletAddresses(st, w);
    SumAbsorbs(addrs, FieldAmount("address_balance"), a);
    RecomputeWalletIncomingWrites(st, after, "address_balance");
  }

  /** Reading the field the address trigger writes instead, the wallet's
      incoming confirmed balance is a number whenever every address of the
      wallet holds a number there, which the address trigger writes whenever
      its own sum is a number (`RecomputeAddressDefinesConfirmed`). */
  lemma CorrectedIncomingIsNumber(st: Store, after: Option<Doc>)
    requires WalletIdOf(after).Some? && WalletIdOf(after).value in Docs(st, Wallets)
    requires WalletAddresses(st, WalletIdOf(after).value) != map[]
    requires forall a :: a in WalletAddresses(st, WalletIdOf(after).value) ==>
               Get(WalletAddresses(st, WalletIdOf(after).value)[a], "address_balance_confirmed").Some? &&
               Get(WalletAddresses(st, WalletIdOf(after).value)[a], "address_balance_confirmed").value.Num?
    ensures var r := RecomputeWalletIncoming(st, after, "address_balance_confirmed");
            var w := WalletIdOf(after).value;
            var addrs := WalletAddresses(st, w);
            && r.Ok?
            && Sum(addrs, FieldAmount("address_balance_confirmed")).Finite?
            && Member(Member(Get(Docs(r.value, Wallets)[w], "balance"), "incoming"), "confirmed") ==
               Some(Num(Sum(addrs, FieldAmount("address_balance_confirmed")).n))
  {
    var w := WalletIdOf(after).value;
    var addrs := WalletAddresses(st, w);
    SumFinite(addrs, FieldAmount("address_balance_confirmed"));
    RecomputeWalletIncomingWrites(st, after, "address_balance_confirmed");
  }

  /** After a successful address trigger whose confirmed sum is a number, the
      address holds that number in `address_balance_confirmed`: the field the
      corrected wallet trigger sums. */
  lemma RecomputeAddressDefinesConfirmed(st: Store, address: string)
    requires RecomputeAddress(st, address, CurrentAddressFields).Ok?
    requires Sum(Docs(st, IncomingTxs(address)), ConfirmedAmount).Finite?
    ensures var r := RecomputeAddress(st, address, CurrentAddressFields).value;
            address in Docs(r, Addresses) &&
            Get(Docs(r, Addresses)[address], "address_balance_confirmed") ==
              Some(Num(Sum(Docs(st, IncomingTxs(address)), ConfirmedAmount).n))
  {
    RecomputeAddressWrites(st, address, CurrentAddressFields);
    StatusSumsAreFiltered(Docs(st, IncomingTxs(address)));
  }

  // ---------------------------------------------------------------------
  // Wallet level, older variant: an `update` of two top-level fields.
  // ---------------------------------------------------------------------

  ghost function WalletLegacyUpdate(addrs: map<string, Doc>): Doc
  {
    map["confirmed_balance" := Stored(Sum(addrs, FieldAmount("confirmed_balance"))),
        "pending_balance" := Stored(Sum(addrs, FieldAmount("pending_balance"))),
        "last_updated" := Time(ServerTimestamp)]
  }

  /** `updateWalletBalance`'s effect: no write when the wallet is missing or
      no address names it; otherwise an `update` of the two sums and
      `last_updated`. */
  ghost function RecomputeWalletLegacy(st: Store, after: Option<Doc>): Result<Store>
  {
    var w := WalletIdOf(after);
    if w.None? then Err(Internal)
    else if w.value !in Docs(st, Wallets) then Ok(st)
    else
      var addrs := WalletAddresses(st, w.value);
      if addrs == map[] then Ok(st)
      else Ok(Put(st, Wallets, w.value, Docs(st, Wallets)[w.value] + WalletLegacyUpdate(addrs)))
  }

  /** What the older wallet trigger does: the wallet's `confirmed_balance` and
      `pending_balance` become the sums of the same fields over its addresses
      (the fields the older address trigger writes), `last_updated` is set,
      every other wallet field is kept, and nothing else changes. */
  lemma RecomputeWalletLegacyWrites(st: Store, after: Option<Doc>)
    ensures var r := RecomputeWalletLegacy(st, after);
            var w := WalletIdOf(after);
            && (r.Err? <==> w.None?)
            && (r.Ok? && (w.value !in Docs(st, Wallets) || WalletAddresses(st, w.value) == map[]) ==> r.value == st)
            && (r.Ok? && w.value in Docs(st, Wallets) && WalletAddresses(st, w.value) != map[] ==>
                  var addrs := WalletAddresses(st, w.value);
                  var o := Docs(st, Wallets)[w.value];
                  && Docs(r.value, Wallets) == Docs(st, Wallets)[w.value :=
                       o["confirmed_balance" := Stored(Sum(addrs, FieldAmount("confirmed_balance")))]
                        ["pending_balance" := Stored(Sum(addrs, FieldAmount("pending_balance")))]
                        ["last_updated" := Time(ServerTimestamp)]]
                  && forall c :: c != Wallets ==> Docs(r.value, c) == Docs(st, c))
    ensures RecomputeWalletLegacy(st, after).Ok? && WalletIdOf(after).value in Docs(st, Wallets) ==>
              UpdateFields(st, Wallets, WalletIdOf(after).value, map[]).Some?
  {
    var w := WalletIdOf(after);
    if w.Some? && w.value in Docs(st, Wallets) && WalletAddresses(st, w.value) != map[] {
      var addrs := WalletAddresses(st, w.value);
      var o := Docs(st, Wallets)[w.value];
      var upd := WalletLegacyUpdate(addrs);
      assert o + upd == o["confirmed_balance" := upd["confirmed_balance"]]["pending_balance" := upd["pending_balance"]]
                         ["last_updated" := upd["last_updated"]];
    }
  }

  /** `updateWalletBalance`, fired by a write to `addresses/{address}`. */
  method UpdateWalletBalance(db: Database, after: Option<Doc>) returns (failure: Option<ErrorCode>)
    modifies db
    ensures failure == ErrorOf(RecomputeWalletLegacy(old(db.docs), after))
    ensures db.docs == After(old(db.docs), RecomputeWalletLegacy(old(db.docs), after))
  {
    var w := WalletIdOf(after);
    if w.None? {
      return Some(Internal);
    }
    var wallet := db.Get(Wallets, w.value);
    if wallet.None? {
      return None;
    }
    var snap := db.QueryWhere(Addresses, "wallet_id", Str(w.value));
    var addrs := WalletAddresses(db.docs, w.value);
    if snap == [] {
      assert addrs.Keys == {};
      return None;
    }
    assert snap[0].id in addrs;
    var sums := FoldPair(snap, FieldAmount("confirmed_balance"), FieldAmount("pending_balance"));
    FoldIsSum(snap, addrs, FieldAmount("confirmed_balance"));
    FoldIsSum(snap, addrs, FieldAmount("pending_balance"));
    var found := db.Update(Wallets, w.value,
                           map["confirmed_balance" := Stored(sums.confirmed), "pending_balance" := Stored(sums.unconfirmed),
                               "last_updated" := Time(ServerTimestamp)]);
    failure := None;
  }

  // ---------------------------------------------------------------------
  // Wallet level, outgoing: `outgoing_txs` merged into the wallet.
  // ---------------------------------------------------------------------

  /** `onOutgoingTxStatusUpdate`'s effect: with no existence check, a merge of
      `balance.outgoing` and `last_updated`, which creates the wallet
      document when it is missing. */
  ghost function RecomputeOutgoing(st: Store, walletId: string): Result<Store>
  {
    if !ValidId(walletId) then Err(Internal)
    else
      var txs := Docs(st, OutgoingTxs(walletId));
      Ok(MergeInto(st, Wallets, walletId,
           BalanceHalf("outgoing", Sum(txs, ConfirmedAmount), Sum(txs, UnconfirmedAmount))))
  }

  /** What the outgoing trigger does: `balance.outgoing.confirmed` is the sum
      of `amount` (no fee) over the CONFIRMED outgoing records,
      `balance.outgoing.unconfirmed` the sum over all other statuses; the
      wallet document exists afterwards even if it did not before;
      `balance.incoming`, `total_settled` and all other fields are kept, and
      nothing else changes. */
  lemma RecomputeOutgoingWrites(st: Store, walletId: string)
    ensures var r := RecomputeOutgoing(st, walletId);
            && (r.Err? <==> !ValidId(walletId))
            && (r.Ok? ==>
                  var txs := Docs(st, OutgoingTxs(walletId));
                  var o := if walletId in Docs(st, Wallets) then Docs(st, Wallets)[walletId] else map[];
                  var d := Docs(r.value, Wallets)[walletId];
                  && Docs(r.value, Wallets) == Docs(st, Wallets)[walletId := d]
                  && (forall c :: c != Wallets ==> Docs(r.value, c) == Docs(st, c))
                  && Member(Member(Get(d, "balance"), "outgoing"), "confirmed") ==
                     Some(Stored(Sum(Filter(txs, IsConfirmedDoc), FieldAmount("amount"))))
                  && Member(Member(Get(d, "balance"), "outgoing"), "unconfirmed") ==
                     Some(Stored(Sum(Filter(txs, IsUnconfirmedDoc), FieldAmount("amount"))))
                  && d["last_updated"] == Time(ServerTimestamp)
                  && Member(Get(d, "balance"), "incoming") == Member(Get(o, "balance"), "incoming")
                  && Member(Get(d, "balance"), "total_settled") == Member(Get(o, "balance"), "total_settled")
                  && (forall k :: k in o && k != "balance" && k != "last_updated" ==> d[k] == o[k]))
  {
    if ValidId(walletId) {
      var txs := Docs(st, OutgoingTxs(walletId));
      var o := if walletId in Docs(st, Wallets) then Docs(st, Wallets)[walletId] else map[];
      StatusSumsAreFiltered(txs);
      MergedHalfShape(o, "outgoing", Sum(txs, ConfirmedAmount), Sum(txs, UnconfirmedAmount));
    }
  }

  /** An outgoing collection with no records writes zeros. */
  lemma RecomputeOutgoingEmpty(st: Store, walletId: string)
    requires ValidId(walletId) && Docs(st, OutgoingTxs(walletId)) == map[]
    ensures var d := Docs(RecomputeOutgoing(st, walletId).value, Wallets)[walletId];
            && Member(Member(Get(d, "balance"), "outgoing"), "confirmed") == Some(Num(0))
            && Member(Member(Get(d, "balance"), "outgoing"), "unconfirmed") == Some(Num(0))
  {
    RecomputeOutgoingWrites(st, walletId);
    var txs := Docs(st, OutgoingTxs(walletId));
    assert Filter(txs, IsConfirmedDoc) == map[];
    assert Filter(txs, IsUnconfirmedDoc) == map[];
  }

  /** `onOutgoingTxStatusUpdate`, fired by a write to `wallets/{walletId}/outgoing_txs/{tx_id}`. */
  method OnOutgoingTxStatusUpdate(db: Database, walletId: string) returns (failure: Option<ErrorCode>)
    modifies db
    ensures failure == ErrorOf(RecomputeOutgoing(old(db.docs), walletId))
    ensures db.docs == After(old(db.docs), RecomputeOutgoing(old(db.docs), walletId))
  {
    if !ValidId(walletId) {
      return Some(Internal);
    }
    var snap := db.Query(OutgoingTxs(walletId));
    var sums := SplitFold(snap);
    FoldIsSum(snap, Docs(db.docs, OutgoingTxs(walletId)), ConfirmedAmount);
    FoldIsSum(snap, Docs(db.docs, OutgoingTxs(walletId)), UnconfirmedAmount);
    db.SetMerge(Wallets, walletId, BalanceHalf("outgoing", sums.confirmed, sums.unconfirmed));
    failure := None;
  }

  // ---------------------------------------------------------------------
  // Wallet level, combined: `transactions` folded into four buckets.
  // ---------------------------------------------------------------------

  /** The whole wallet document `onTransactionStatusUpdate` writes. */
  function BalanceDoc(t: Tally): Doc
  {
    map["balance" := Fields(map[
          "total_settled" := Stored(Settled(t)),
          "incoming" := Fields(map["confirmed" := Stored(t.inConf), "unconfirmed" := Stored(t.inUnconf)]),
          "outgoing" := Fields(map["confirmed" := Stored(t.outConf), "unconfirmed" := Stored(t.outUnconf)])]),
        "last_updated" := Time(ServerTimestamp)]
  }

  /** `onTransactionStatusUpdate`'s effect: no write when the wallet is
      missing or has no transactions; otherwise the wallet document is
      replaced by the balance document. */
  ghost function RecomputeWallet(st: Store, walletId: string): Result<Store>
  {
    if !ValidId(walletId) then Err(Internal)
    else if walletId !in Docs(st, Wallets) then Ok(st)
    else
      var txs := Docs(st, Transactions(walletId));
      if txs == map[] then Ok(st)
      else Ok(Put(st, Wallets, walletId, BalanceDoc(TallyOf(txs))))
  }

  /** `balance.total_settled` is a number and equals
      `incoming.confirmed - outgoing.confirmed - outgoing.unconfirmed`,
      all of them numbers. */
  predicate SettledHolds(d: Doc)
  {
    var b := Get(d, "balance");
    var s := Member(b, "total_settled");
    var ic := Member(Member(b, "incoming"), "confirmed");
    var oc := Member(Member(b, "outgoing"), "confirmed");
    var ou := Member(Member(b, "outgoing"), "unconfirmed");
    && s.Some? && s.value.Num? && ic.Some? && ic.value.Num? && oc.Some? && oc.value.Num? && ou.Some? && ou.value.Num?
    && s.value.n == ic.value.n - oc.value.n - ou.value.n
  }

  /** What the combined trigger does: nothing when the wallet is missing or
      its `transactions` collection is empty (balances are not reset);
      otherwise the wallet document holds exactly `balance` and
      `last_updated`, each bucket is the sum of the record amounts (amount
      for INCOMING, amount + fee otherwise) over the records of that
      direction and status, and nothing else changes. */
  lemma RecomputeWalletWrites(st: Store, walletId: string)
    ensures var r := RecomputeWallet(st, walletId);
            var txs := Docs(st, Transactions(walletId));
            && (r.Err? <==> !ValidId(walletId))
            && (r.Ok? && (walletId !in Docs(st, Wallets) || txs == map[]) ==> r.value == st)
            && (r.Ok? && walletId in Docs(st, Wallets) && txs != map[] ==>
                  var t := TallyOf(txs);
                  && Docs(r.value, Wallets) == Docs(st, Wallets)[walletId := BalanceDoc(t)]
                  && (forall c :: c != Wallets ==> Docs(r.value, c) == Docs(st, c))
                  && BalanceDoc(t).Keys == {"balance", "last_updated"}
                  && t.inConf == Sum(Filter(txs, InBucket(IncomingConfirmed)), TxAmount)
                  && t.inUnconf == Sum(Filter(txs, InBucket(IncomingUnconfirmed)), TxAmount)
                  && t.outConf == Sum(Filter(txs, InBucket(OutgoingConfirmed)), TxAmount)
                  && t.outUnconf == Sum(Filter(txs, InBucket(OutgoingUnconfirmed)), TxAmount))
  {
    var txs := Docs(st, Transactions(walletId));
    if ValidId(walletId) && walletId in Docs(st, Wallets) && txs != map[] {
      var t := TallyOf(txs);
      assert RecomputeWallet(st, walletId) == Ok(Put(st, Wallets, walletId, BalanceDoc(t)));
      assert BalanceDoc(t).Keys == {"balance", "last_updated"};
      BucketSumIsFiltered(txs, IncomingConfirmed);
      BucketSumIsFiltered(txs, IncomingUnconfirmed);
      BucketSumIsFiltered(txs, OutgoingConfirmed);
      BucketSumIsFiltered(txs, OutgoingUnconfirmed);
    }
  }

  /** The balance document satisfies the settled formula exactly when the
      three sums it is made of are numbers; unconfirmed incoming funds do
      not enter it. */
  lemma BalanceDocSettled(t: Tally)
    ensures SettledHolds(BalanceDoc(t)) <==> t.inConf.Finite? && t.outConf.Finite? && t.outUnconf.Finite?
    ensures Member(Get(BalanceDoc(t), "balance"), "total_settled") ==
            Some(if t.inConf.Finite? && t.outConf.Finite? && t.outUnconf.Finite?
                 then Num(t.inConf.n - t.outConf.n - t.outUnconf.n) else NaN)
  {
  }

  /** When every record's amount (and, for non-incoming records, its fee) is
      a number, the combined trigger leaves the wallet satisfying the settled
      formula. */
  lemma RecomputeWalletSettles(st: Store, walletId: string)
    requires ValidId(walletId) && walletId in Docs(st, Wallets) && Docs(st, Transactions(walletId)) != map[]
    requires forall k :: k in Docs(st, Transactions(walletId)) ==> TxAmount(Docs(st, Transactions(walletId))[k]).Finite?
    ensures SettledHolds(Docs(RecomputeWallet(st, walletId).value, Wallets)[walletId])
  {
    var txs := Docs(st, Transactions(walletId));
    BucketFinite(txs, IncomingConfirmed);
    BucketFinite(txs, OutgoingConfirmed);
    BucketFinite(txs, OutgoingUnconfirmed);
    BalanceDocSettled(TallyOf(txs));
  }

  /** A record with direction OUTGOING and no `fee` (the NEW entry a payment
      writes before its fee is known) makes `total_settled` NaN. */
  lemma EntryWithoutFeeMakesSettledNaN(st: Store, walletId: string, id: string)
    requires ValidId(walletId) && walletId in Docs(st, Wallets)
    requires id in Docs(st, Transactions(walletId))
    requires var e := Docs(st, Transactions(walletId))[id];
             Get(e, "direction") == Some(Str("OUTGOING")) && Get(e, "status") == Some(Str("NEW")) && "fee" !in e
    ensures Member(Get(Docs(RecomputeWallet(st, walletId).value, Wallets)[walletId], "balance"), "total_settled") == Some(NaN)
  {
    var txs := Docs(st, Transactions(walletId));
    assert BucketOf(txs[id]) == OutgoingUnconfirmed;
    SumAbsorbs(txs, BucketAmount(OutgoingUnconfirmed), id);
    BalanceDocSettled(TallyOf(txs));
  }

  /** `onTransactionStatusUpdate`, fired by a write to `wallets/{walletId}/transactions/{tx_id}`. */
  method OnTransactionStatusUpdate(db: Database, walletId: string) returns (failure: Option<ErrorCode>)
    modifies db
    ensures failure == ErrorOf(RecomputeWallet(old(db.docs), walletId))
    ensures db.docs == After(old(db.docs), RecomputeWallet(old(db.docs), walletId))
  {
    if !ValidId(walletId) {
      return Some(Internal);
    }
    var wallet := db.Get(Wallets, walletId);
    if wallet.None? {
      return None;
    }
    var snap := db.Query(Transactions(walletId));
    var txs := Docs(db.docs, Transactions(walletId));
    if snap == [] {
      assert txs.Keys == {};
      return None;
    }
    assert snap[0].id in txs;
    var t := TallyFold(snap);
    TallyFoldIsTallyOf(snap, txs);
    db.Set(Wallets, walletId, BalanceDoc(t));
    failure := None;
  }

  /** The outgoing trigger does not recompute `total_settled`: on a wallet
      that satisfies the settled formula, the formula still holds afterwards
      exactly when the new outgoing sums are numbers adding up to the old
      outgoing total. Any CONFIRMED outgoing record added since the last
      combined recompute breaks it. */
  lemma OutgoingTriggerSettledIff(st: Store, walletId: string)
    requires ValidId(walletId) && walletId in Docs(st, Wallets) && SettledHolds(Docs(st, Wallets)[walletId])
    ensures var o := Docs(st, Wallets)[walletId];
            var txs := Docs(st, OutgoingTxs(walletId));
            var c, u := Sum(txs, ConfirmedAmount), Sum(txs, UnconfirmedAmount);
            var oc := Member(Member(Get(o, "balance"), "outgoing"), "confirmed").value.n;
            var ou := Member(Member(Get(o, "balance"), "outgoing"), "unconfirmed").value.n;
            SettledHolds(Docs(RecomputeOutgoing(st, walletId).value, Wallets)[walletId]) <==>
              c.Finite? && u.Finite? && c.n + u.n == oc + ou
  {
    var o := Docs(st, Wallets)[walletId];
    var txs := Docs(st, OutgoingTxs(walletId));
    MergedHalfShape(o, "outgoing", Sum(txs, ConfirmedAmount), Sum(txs, UnconfirmedAmount));
  }
}
