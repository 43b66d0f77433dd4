/**
 * The document store: top-level collections and the sub-collections under a
 * document, the three write kinds the code uses (`set`, `set` with
 * `{merge: true}`, `update`), atomic write batches, and query snapshots.
 */
module Store {
  import opened Values

  /** A collection path: `addresses`, or `addresses/{a}/incoming_txs`. */
  datatype Coll = Top(name: string) | Sub(parent: string, parentId: string, name: string)

  /** Every collection's documents, by document id. A collection absent from
      the map is empty. Sub-collection documents exist independently of their
      parent document, as in the store. */
  type Store = map<Coll, map<string, Doc>>

  const Addresses := Top("addresses")
  const Wallets := Top("wallets")
  const Users := Top("users")
  const Config := Top("config")
  const SyncDocId := "lnd_sync"

  function IncomingTxs(address: string): Coll { Sub("addresses", address, "incoming_txs") }
  function OutgoingTxs(walletId: string): Coll { Sub("wallets", walletId, "outgoing_txs") }
  function Transactions(walletId: string): Coll { Sub("wallets", walletId, "transactions") }

  /** `collection.doc(id)` throws for an empty or missing id. */
  predicate ValidId(id: string)
  {
    id != ""
  }

  function Docs(st: Store, c: Coll): map<string, Doc>
  {
    if c in st then st[c] else map[]
  }

  function Lookup(st: Store, c: Coll, id: string): Option<Doc>
  {
    if id in Docs(st, c) then Some(Docs(st, c)[id]) else None
  }

  /** `ref.set(d)`: the document becomes exactly `d`; nothing else changes. */
  function Put(st: Store, c: Coll, id: string, d: Doc): (r: Store)
    ensures Docs(r, c) == Docs(st, c)[id := d]
    ensures forall c' :: c' != c ==> Docs(r, c') == Docs(st, c')
  {
    st[c := Docs(st, c)[id := d]]
  }

  /** Merging `n` into `o`: a non-empty map merges field by field, any other
      value (an empty map included) replaces what was there. */
  function MergeValue(o: Value, n: Value): Value
    decreases n
  {
    if o.Fields? && n.Fields? && n.m != map[] then
      Fields(map k | k in o.m.Keys + n.m.Keys ::
               if k in n.m then (if k in o.m then MergeValue(o.m[k], n.m[k]) else n.m[k])
               else o.m[k])
    else n
  }

  /** The document after `set(n, {merge: true})` on a document holding `o`. */
  function MergeDoc(o: Doc, n: Doc): (r: Doc)
    ensures r.Keys == o.Keys + n.Keys
    ensures forall k :: k in o && k !in n ==> r[k] == o[k]
    ensures forall k :: k in n && !n[k].Fields? ==> r[k] == n[k]
    ensures forall k :: k in n && k !in o ==> r[k] == n[k]
  {
    if n == map[] then o
    else
      var r := MergeValue(Fields(o), Fields(n)).m;
      assert forall k :: k in n && k in o ==> r[k] == MergeValue(o[k], n[k]);
      r
  }

  /** `ref.set(n, {merge: true})`, which creates the document when missing. */
  function MergeInto(st: Store, c: Coll, id: string, n: Doc): Store
  {
    var base := if id in Docs(st, c) then Docs(st, c)[id] else map[];
    Put(st, c, id, MergeDoc(base, n))
  }

  /** `ref.update(fields)`: replaces the named top-level fields; it fails
      with NOT_FOUND, changing nothing, when the document does not exist. */
  function UpdateFields(st: Store, c: Coll, id: string, fields: Doc): (r: Option<Store>)
    ensures r.Some? <==> id in Docs(st, c)
    ensures r.Some? ==> r.value == Put(st, c, id, Docs(st, c)[id] + fields)
  {
    if id in Docs(st, c) then Some(Put(st, c, id, Docs(st, c)[id] + fields)) else None
  }

  /** The store after an operation that either succeeds with a new store or
      fails, leaving the store as it was. */
  function After(st: Store, r: Result<Store>): Store
  {
    if r.Ok? then r.value else st
  }

  /** One `batch.set(ref, doc)`. */
  datatype Write = SetDoc(coll: Coll, id: string, doc: Doc)

  function Apply(st: Store, w: Write): Store
  {
    Put(st, w.coll, w.id, w.doc)
  }

  /** A committed batch: its writes take effect in order, all together. */
  function ApplyAll(st: Store, ws: seq<Write>): Store
    decreases |ws|
  {
    if ws == [] then st else Apply(ApplyAll(st, ws[..|ws| - 1]), ws[|ws| - 1])
  }

  /** One more write at the end of the batch takes effect last. */
  lemma ApplyAllSnoc(st: Store, ws: seq<Write>, w: Write)
    ensures ApplyAll(st, ws + [w]) == Apply(ApplyAll(st, ws), w)
  {
    assert (ws + [w])[..|ws + [w]| - 1] == ws;
  }

  /** A batch only touches the collections it writes to. */
  lemma {:induction false} ApplyAllFrame(st: Store, ws: seq<Write>, c: Coll)
    requires forall i :: 0 <= i < |ws| ==> ws[i].coll != c
    ensures Docs(ApplyAll(st, ws), c) == Docs(st, c)
  {
    if ws != [] {
      ApplyAllFrame(st, ws[..|ws| - 1], c);
    }
  }

  /** The document the last write of `ws` to (c, id) puts there, if any. */
  function LastWrite(ws: seq<Write>, c: Coll, id: string): Option<Doc>
    decreases |ws|
  {
    if ws == [] then None
    else if ws[|ws| - 1].coll == c && ws[|ws| - 1].id == id then Some(ws[|ws| - 1].doc)
    else LastWrite(ws[..|ws| - 1], c, id)
  }

  /** After a batch, each document holds what the batch's last write to it
      put there, or what it held before when the batch did not write it. */
  lemma {:induction false} ApplyAllLookup(st: Store, ws: seq<Write>, c: Coll, id: string)
    ensures Lookup(ApplyAll(st, ws), c, id) == if LastWrite(ws, c, id).Some? then LastWrite(ws, c, id) else Lookup(st, c, id)
    decreases |ws|
  {
    if ws != [] {
      ApplyAllLookup(st, ws[..|ws| - 1], c, id);
    }
  }

  function WrittenColls(ws: seq<Write>): set<Coll>
  {
    set i | 0 <= i < |ws| :: ws[i].coll
  }

  lemma {:induction false} ApplyAllKeys(st: Store, ws: seq<Write>)
    ensures ApplyAll(st, ws).Keys == st.Keys + WrittenColls(ws)
    decreases |ws|
  {
    if ws != [] {
      var init := ws[..|ws| - 1];
      ApplyAllKeys(st, init);
      assert WrittenColls(ws) == WrittenColls(init) + {ws[|ws| - 1].coll} by {
        forall c | c in WrittenColls(ws)
          ensures c in WrittenColls(init) + {ws[|ws| - 1].coll}
        {
          var i :| 0 <= i < |ws| && ws[i].coll == c;
          if i < |ws| - 1 {
            assert init[i].coll == c;
          }
        }
        forall c | c in WrittenColls(init)
          ensures c in WrittenColls(ws)
        {
          var i :| 0 <= i < |init| && init[i].coll == c;
          assert ws[i].coll == c;
        }
      }
    }
  }

  /** Two stores that agree on every document and on which collections exist
      are the same store. */
  lemma StoresEqual(a: Store, b: Store)
    requires a.Keys == b.Keys
    requires forall c, id :: Lookup(a, c, id) == Lookup(b, c, id)
    ensures a == b
  {
    forall c | c in a
      ensures a[c] == b[c]
    {
      forall id | id in a[c] || id in b[c]
        ensures id in a[c] && id in b[c] && a[c][id] == b[c][id]
      {
        assert Lookup(a, c, id) == Lookup(b, c, id);
      }
    }
  }

  /** Committing the same batch a second time changes nothing: every write
      is an overwrite. */
  lemma ApplyAllTwice(st: Store, ws: seq<Write>)
    ensures ApplyAll(ApplyAll(st, ws), ws) == ApplyAll(st, ws)
  {
    var once := ApplyAll(st, ws);
    ApplyAllKeys(st, ws);
    ApplyAllKeys(once, ws);
    forall c, id
      ensures Lookup(ApplyAll(once, ws), c, id) == Lookup(once, c, id)
    {
      ApplyAllLookup(once, ws, c, id);
      ApplyAllLookup(st, ws, c, id);
    }
    StoresEqual(ApplyAll(once, ws), once);
  }

  /** One document of a query snapshot. */
  datatype Entry = Entry(id: string, doc: Doc)

  /** `snap` lists every document of `m` exactly once, in some order. */
  ghost predicate IsListing(snap: seq<Entry>, m: map<string, Doc>)
  {
    && (forall i :: 0 <= i < |snap| ==> snap[i].id in m && m[snap[i].id] == snap[i].doc)
    && (forall i, j :: 0 <= i < j < |snap| ==> snap[i].id != snap[j].id)
    && (forall k :: k in m ==> exists i :: 0 <= i < |snap| && snap[i].id == k)
  }

  /** The documents of `m` whose `field` equals `v`: `where(field, "==", v)`. */
  function Where(m: map<string, Doc>, field: string, v: Value): (r: map<string, Doc>)
    ensures forall k :: k in r <==> k in m && Get(m[k], field) == Some(v)
    ensures forall k :: k in r ==> r[k] == m[k]
  {
    map k | k in m && Get(m[k], field) == Some(v) :: m[k]
  }

  /** Some enumeration of the documents of `m` (the store's own order is by id;
      no fold in this model depends on the order). */
  method ListDocs(m: map<string, Doc>) returns (snap: seq<Entry>)
    ensures IsListing(snap, m)
  {
    var rest := m.Keys;
    snap := [];
    while rest != {}
      invariant rest <= m.Keys
      invariant forall i :: 0 <= i < |snap| ==> snap[i].id in m && snap[i].id !in rest && m[snap[i].id] == snap[i].doc
      invariant forall i, j :: 0 <= i < j < |snap| ==> snap[i].id != snap[j].id
      invariant forall k :: k in m && k !in rest ==> exists i :: 0 <= i < |snap| && snap[i].id == k
      decreases rest
    {
      var k :| k in rest;
      ghost var before := snap;
      snap := snap + [Entry(k, m[k])];
      rest := rest - {k};
      forall k' | k' in m && k' !in rest
        ensures exists i :: 0 <= i < |snap| && snap[i].id == k'
      {
        if k' == k {
          assert snap[|snap| - 1].id == k';
        } else {
          var i :| 0 <= i < |before| && before[i].id == k';
          assert snap[i].id == k';
        }
      }
    }
  }

  /** A write batch: `db.batch()` and `batch.set`. */
  class WriteBatch {
    var writes: seq<Write>

    constructor ()
      ensures writes == []
    {
      writes := [];
    }

    method Set(c: Coll, id: string, d: Doc)
      modifies this
      ensures writes == old(writes) + [SetDoc(c, id, d)]
    {
      writes := writes + [SetDoc(c, id, d)];
    }
  }

  /** The store as one object that the operations read and change. */
  class Database {
    var docs: Store

    constructor (initial: Store)
      ensures docs == initial
    {
      docs := initial;
    }

    method Get(c: Coll, id: string) returns (d: Option<Doc>)
      ensures d == Lookup(docs, c, id)
    {
      d := Lookup(docs, c, id);
    }

    method Query(c: Coll) returns (snap: seq<Entry>)
      ensures IsListing(snap, Docs(docs, c))
    {
      snap := ListDocs(Docs(docs, c));
    }

    method QueryWhere(c: Coll, field: string, v: Value) returns (snap: seq<Entry>)
      ensures IsListing(snap, Where(Docs(docs, c), field, v))
    {
      snap := ListDocs(Where(Docs(docs, c), field, v));
    }

    method Set(c: Coll, id: string, d: Doc)
      modifies this
      ensures docs == Put(old(docs), c, id, d)
    {
      docs := Put(docs, c, id, d);
    }

    method SetMerge(c: Coll, id: string, n: Doc)
      modifies this
      ensures docs == MergeInto(old(docs), c, id, n)
    {
      docs := MergeInto(docs, c, id, n);
    }

    method Update(c: Coll, id: string, fields: Doc) returns (found: bool)
      modifies this
      ensures found == (id in Docs(old(docs), c))
      ensures docs == if found then UpdateFields(old(docs), c, id, fields).value else old(docs)
    {
      var r := UpdateFields(docs, c, id, fields);
      found := r.Some?;
      if found {
        docs := r.value;
      }
    }

    method Commit(batch: WriteBatch)
      modifies this
      ensures docs == ApplyAll(old(docs), batch.writes)
    {
      docs := ApplyAll(docs, batch.writes);
    }
  }
}
