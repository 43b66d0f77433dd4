/**
 * The balance folds: sums over a collection snapshot, as the triggers' reduce
 * computes them, and the same sums over the collection itself, the
 * order-free definition that the folds are proved to agree with.
 */
module Aggregates {
  import opened Values
  import opened Store

  predicate StatusIs(d: Doc, s: string)
  {
    Get(d, "status") == Some(Str(s))
  }

  /** A document's amount when its status has the given confirmedness, 0 otherwise. */
  function StatusAmount(d: Doc, confirmed: bool): Total
  {
    if StatusIs(d, "CONFIRMED") == confirmed then Term(Get(d, "amount")) else Finite(0)
  }

  function ConfirmedAmount(d: Doc): Total { StatusAmount(d, true) }
  function UnconfirmedAmount(d: Doc): Total { StatusAmount(d, false) }

  /** The number one named field contributes. */
  function FieldAmount(f: string): Doc -> Total
  {
    d => Term(Get(d, f))
  }

  /** The reduce over a snapshot, left to right, from 0. */
  function Fold(snap: seq<Entry>, g: Doc -> Total): Total
    decreases |snap|
  {
    if snap == [] then Finite(0) else Plus(Fold(snap[..|snap| - 1], g), g(snap[|snap| - 1].doc))
  }

  /** The same sum over the collection, with no order. */
  ghost function Sum(m: map<string, Doc>, g: Doc -> Total): Total
    decreases |m|
  {
    if m == map[] then Finite(0)
    else
      var k :| k in m;
      assert |m - {k}| < |m| by {
        assert (m - {k}).Keys == m.Keys - {k};
      }
      Plus(Sum(m - {k}, g), g(m[k]))
  }

  /** Any document can be taken out of a sum last. */
  lemma {:induction false} SumRemove(m: map<string, Doc>, g: Doc -> Total, k: string)
    requires k in m
    ensures Sum(m, g) == Plus(Sum(m - {k}, g), g(m[k]))
    decreases |m|
  {
    var k0 :| k0 in m && Sum(m, g) == Plus(Sum(m - {k0}, g), g(m[k0]));
    if k0 != k {
      assert (m - {k0}).Keys == m.Keys - {k0};
      assert (m - {k}).Keys == m.Keys - {k};
      SumRemove(m - {k0}, g, k);
      SumRemove(m - {k}, g, k0);
      var rest := m - {k0} - {k};
      assert rest == m - {k} - {k0};
      PlusAssociates(Sum(rest, g), g(m[k]), g(m[k0]));
      PlusAssociates(Sum(rest, g), g(m[k0]), g(m[k]));
      PlusCommutes(g(m[k]), g(m[k0]));
    }
  }

  /** The snapshot without its last document lists the rest of the collection. */
  lemma ListingPrefix(snap: seq<Entry>, m: map<string, Doc>)
    requires IsListing(snap, m) && snap != []
    ensures var e := snap[|snap| - 1];
            e.id in m && m[e.id] == e.doc && IsListing(snap[..|snap| - 1], m - {e.id})
  {
    var n := |snap|;
    var e := snap[n - 1];
    var p := snap[..n - 1];
    forall k | k in m - {e.id}
      ensures exists i :: 0 <= i < |p| && p[i].id == k
    {
      var i :| 0 <= i < n && snap[i].id == k;
      assert i != n - 1;
      assert p[i].id == k;
    }
  }

  /** The fold over any snapshot of a collection is the collection's sum:
      the result does not depend on the order the store returns documents in. */
  lemma {:induction false} FoldIsSum(snap: seq<Entry>, m: map<string, Doc>, g: Doc -> Total)
    requires IsListing(snap, m)
    ensures Fold(snap, g) == Sum(m, g)
    decreases |snap|
  {
    if snap == [] {
      assert m.Keys == {};
    } else {
      var e := snap[|snap| - 1];
      ListingPrefix(snap, m);
      FoldIsSum(snap[..|snap| - 1], m - {e.id}, g);
      SumRemove(m, g, e.id);
    }
  }

  /** If every document's contributions to g and h add up to its contribution
      to t, the sums over g and h add up to the sum over t. */
  lemma {:induction false} SumSplits(m: map<string, Doc>, g: Doc -> Total, h: Doc -> Total, t: Doc -> Total)
    requires forall d :: Plus(g(d), h(d)) == t(d)
    ensures Plus(Sum(m, g), Sum(m, h)) == Sum(m, t)
    decreases |m|
  {
    if m != map[] {
      var k :| k in m;
      var rest := m - {k};
      assert rest.Keys == m.Keys - {k};
      SumRemove(m, g, k);
      SumRemove(m, h, k);
      SumRemove(m, t, k);
      SumSplits(rest, g, h, t);
      var d := m[k];
      assert Plus(g(d), h(d)) == t(d);
      PlusInterchange(Sum(rest, g), g(d), Sum(rest, h), h(d));
    }
  }

  lemma PlusInterchange(a: Total, b: Total, c: Total, d: Total)
    ensures Plus(Plus(a, b), Plus(c, d)) == Plus(Plus(a, c), Plus(b, d))
  {
  }

  /** Every document counts in exactly one of the confirmed and unconfirmed
      sums: together they make the sum of all amounts. */
  lemma StatusSplitCoversAll(m: map<string, Doc>)
    ensures Plus(Sum(m, ConfirmedAmount), Sum(m, UnconfirmedAmount)) == Sum(m, FieldAmount("amount"))
  {
    forall d: Doc
      ensures Plus(ConfirmedAmount(d), UnconfirmedAmount(d)) == FieldAmount("amount")(d)
    {
    }
    SumSplits(m, ConfirmedAmount, UnconfirmedAmount, FieldAmount("amount"));
  }

  /** The address and outgoing folds: one pass, each document's amount goes
      to the confirmed sum when its status is CONFIRMED, to the other sum
      otherwise. */
  datatype Balances = Balances(confirmed: Total, unconfirmed: Total)

  function SplitFold(snap: seq<Entry>): (r: Balances)
    ensures r == Balances(Fold(snap, ConfirmedAmount), Fold(snap, UnconfirmedAmount))
    decreases |snap|
  {
    if snap == [] then Balances(Finite(0), Finite(0))
    else
      var acc := SplitFold(snap[..|snap| - 1]);
      var d := snap[|snap| - 1].doc;
      if StatusIs(d, "CONFIRMED") then Balances(Plus(acc.confirmed, Term(Get(d, "amount"))), acc.unconfirmed)
      else Balances(acc.confirmed, Plus(acc.unconfirmed, Term(Get(d, "amount"))))
  }

  /** The four buckets of the wallet transaction fold. */
  datatype Bucket = IncomingConfirmed | IncomingUnconfirmed | OutgoingConfirmed | OutgoingUnconfirmed

  /** By direction (INCOMING or anything else) and by CONFIRMED or not. */
  function BucketOf(d: Doc): Bucket
  {
    var incoming := Get(d, "direction") == Some(Str("INCOMING"));
    if incoming then (if StatusIs(d, "CONFIRMED") then IncomingConfirmed else IncomingUnconfirmed)
    else (if StatusIs(d, "CONFIRMED") then OutgoingConfirmed else OutgoingUnconfirmed)
  }

  /** An incoming record counts its amount; any other counts amount + fee. */
  function TxAmount(d: Doc): Total
  {
    if Get(d, "direction") == Some(Str("INCOMING")) then Term(Get(d, "amount"))
    else Plus(Term(Get(d, "amount")), Term(Get(d, "fee")))
  }

  function BucketAmount(b: Bucket): Doc -> Total
  {
    d => if BucketOf(d) == b then TxAmount(d) else Finite(0)
  }

  datatype Tally = Tally(inConf: Total, inUnconf: Total, outConf: Total, outUnconf: Total)

  /** The one-pass four-way reduce. */
  function TallyFold(snap: seq<Entry>): (r: Tally)
    ensures r == Tally(Fold(snap, BucketAmount(IncomingConfirmed)), Fold(snap, BucketAmount(IncomingUnconfirmed)),
                       Fold(snap, BucketAmount(OutgoingConfirmed)), Fold(snap, BucketAmount(OutgoingUnconfirmed)))
    decreases |snap|
  {
    if snap == [] then Tally(Finite(0), Finite(0), Finite(0), Finite(0))
    else
      var acc := TallyFold(snap[..|snap| - 1]);
      var d := snap[|snap| - 1].doc;
      var amount := TxAmount(d);
      match BucketOf(d)
      case IncomingConfirmed => acc.(inConf := Plus(acc.inConf, amount))
      case IncomingUnconfirmed => acc.(inUnconf := Plus(acc.inUnconf, amount))
      case OutgoingConfirmed => acc.(outConf := Plus(acc.outConf, amount))
      case OutgoingUnconfirmed => acc.(outUnconf := Plus(acc.outUnconf, amount))
  }

  /** `incoming_conf - outgoing_conf - outgoing_unconf`: unconfirmed incoming
      funds are not settled, outgoing ones are reserved at once. */
  function Settled(t: Tally): Total
  {
    Minus(Minus(t.inConf, t.outConf), t.outUnconf)
  }

  /** Every record lands in exactly one bucket: the four bucket sums make
      the sum of all records' amounts. */
  lemma BucketsCoverAll(m: map<string, Doc>)
    ensures Plus(Plus(Sum(m, BucketAmount(IncomingConfirmed)), Sum(m, BucketAmount(IncomingUnconfirmed))),
                 Plus(Sum(m, BucketAmount(OutgoingConfirmed)), Sum(m, BucketAmount(OutgoingUnconfirmed))))
            == Sum(m, TxAmount)
  {
    forall d: Doc
      ensures Plus(BucketAmount(IncomingConfirmed)(d), BucketAmount(IncomingUnconfirmed)(d)) == DirectionAmount(d, true)
      ensures Plus(BucketAmount(OutgoingConfirmed)(d), BucketAmount(OutgoingUnconfirmed)(d)) == DirectionAmount(d, false)
      ensures Plus(DirectionAmount(d, true), DirectionAmount(d, false)) == TxAmount(d)
    {
      BucketsOfOne(d);
    }
    SumSplits(m, BucketAmount(IncomingConfirmed), BucketAmount(IncomingUnconfirmed), d => DirectionAmount(d, true));
    SumSplits(m, BucketAmount(OutgoingConfirmed), BucketAmount(OutgoingUnconfirmed), d => DirectionAmount(d, false));
    SumSplits(m, d => DirectionAmount(d, true), d => DirectionAmount(d, false), TxAmount);
  }

  /** A record's amount when its direction is (or is not) INCOMING, 0 otherwise. */
  function DirectionAmount(d: Doc, incoming: bool): Total
  {
    if (Get(d, "direction") == Some(Str("INCOMING"))) == incoming then TxAmount(d) else Finite(0)
  }

  lemma BucketsOfOne(d: Doc)
    ensures Plus(BucketAmount(IncomingConfirmed)(d), BucketAmount(IncomingUnconfirmed)(d)) == DirectionAmount(d, true)
    ensures Plus(BucketAmount(OutgoingConfirmed)(d), BucketAmount(OutgoingUnconfirmed)(d)) == DirectionAmount(d, false)
    ensures Plus(DirectionAmount(d, true), DirectionAmount(d, false)) == TxAmount(d)
  {
    var a := TxAmount(d);
    var b := BucketOf(d);
    var incoming := Get(d, "direction") == Some(Str("INCOMING"));
    assert incoming <==> b == IncomingConfirmed || b == IncomingUnconfirmed;
    assert DirectionAmount(d, true) == if incoming then a else Finite(0);
    assert DirectionAmount(d, false) == if incoming then Finite(0) else a;
    assert BucketAmount(IncomingConfirmed)(d) == if b == IncomingConfirmed then a else Finite(0);
    assert BucketAmount(IncomingUnconfirmed)(d) == if b == IncomingUnconfirmed then a else Finite(0);
    assert BucketAmount(OutgoingConfirmed)(d) == if b == OutgoingConfirmed then a else Finite(0);
    assert BucketAmount(OutgoingUnconfirmed)(d) == if b == OutgoingUnconfirmed then a else Finite(0);
    PlusZero(a);
  }

  lemma PlusZero(a: Total)
    ensures Plus(a, Finite(0)) == a && Plus(Finite(0), a) == a && Plus(Finite(0), Finite(0)) == Finite(0)
  {
  }

  /** The documents of `m` that satisfy `p`. */
  function Filter(m: map<string, Doc>, p: Doc -> bool): (r: map<string, Doc>)
    ensures forall k :: k in r <==> k in m && p(m[k])
    ensures forall k :: k in r ==> r[k] == m[k]
  {
    map k | k in m && p(m[k]) :: m[k]
  }

  /** Summing `g` where `p` holds and 0 elsewhere is summing `g` over the
      documents that satisfy `p`. */
  lemma {:induction false} SumFilter(m: map<string, Doc>, h: Doc -> Total, p: Doc -> bool, g: Doc -> Total)
    requires forall d :: h(d) == if p(d) then g(d) else Finite(0)
    ensures Sum(m, h) == Sum(Filter(m, p), g)
    decreases |m|
  {
    if m == map[] {
      assert Filter(m, p) == map[];
    } else {
      var k :| k in m;
      assert (m - {k}).Keys == m.Keys - {k};
      SumFilter(m - {k}, h, p, g);
      SumFilterStep(m, h, p, g, k);
    }
  }

  lemma SumFilterStep(m: map<string, Doc>, h: Doc -> Total, p: Doc -> bool, g: Doc -> Total, k: string)
    requires k in m
    requires Sum(m - {k}, h) == Sum(Filter(m - {k}, p), g)
    requires h(m[k]) == if p(m[k]) then g(m[k]) else Finite(0)
    ensures Sum(m, h) == Sum(Filter(m, p), g)
  {
    SumRemove(m, h, k);
    FilterRemove(m, p, k);
    if p(m[k]) {
      SumRemove(Filter(m, p), g, k);
    } else {
      PlusZero(Sum(m - {k}, h));
    }
  }

  /** Filtering commutes with taking a document out. */
  lemma FilterRemove(m: map<string, Doc>, p: Doc -> bool, k: string)
    requires k in m
    ensures Filter(m - {k}, p) == Filter(m, p) - {k}
    ensures !p(m[k]) ==> Filter(m, p) == Filter(m - {k}, p)
    ensures p(m[k]) ==> k in Filter(m, p) && Filter(m, p)[k] == m[k]
  {
    assert Filter(m - {k}, p).Keys == (Filter(m, p) - {k}).Keys;
    if !p(m[k]) {
      assert Filter(m, p).Keys == Filter(m - {k}, p).Keys;
    }
  }

  predicate IsConfirmedDoc(d: Doc) { StatusIs(d, "CONFIRMED") }
  predicate IsUnconfirmedDoc(d: Doc) { !StatusIs(d, "CONFIRMED") }

  /** The confirmed sum is the sum of `amount` over the documents whose status
      is CONFIRMED; the unconfirmed sum is the same over every other status
      (a missing status included). */
  lemma StatusSumsAreFiltered(m: map<string, Doc>)
    ensures Sum(m, ConfirmedAmount) == Sum(Filter(m, IsConfirmedDoc), FieldAmount("amount"))
    ensures Sum(m, UnconfirmedAmount) == Sum(Filter(m, IsUnconfirmedDoc), FieldAmount("amount"))
  {
    SumFilter(m, ConfirmedAmount, IsConfirmedDoc, FieldAmount("amount"));
    SumFilter(m, UnconfirmedAmount, IsUnconfirmedDoc, FieldAmount("amount"));
  }

  function InBucket(b: Bucket): Doc -> bool
  {
    d => BucketOf(d) == b
  }

  /** Each bucket's sum is the sum of the record amounts over the records
      that fall in that bucket. */
  lemma BucketSumIsFiltered(m: map<string, Doc>, b: Bucket)
    ensures Sum(m, BucketAmount(b)) == Sum(Filter(m, InBucket(b)), TxAmount)
  {
    SumFilter(m, BucketAmount(b), InBucket(b), TxAmount);
  }

  /** One document whose contribution is not a number makes the whole sum not
      a number. */
  lemma SumAbsorbs(m: map<string, Doc>, g: Doc -> Total, k: string)
    requires k in m && g(m[k]) == NotNumber
    ensures Sum(m, g) == NotNumber
  {
    SumRemove(m, g, k);
  }

  /** When every document contributes a number, the sum is a number. */
  lemma {:induction false} SumFinite(m: map<string, Doc>, g: Doc -> Total)
    requires forall k :: k in m ==> g(m[k]).Finite?
    ensures Sum(m, g).Finite?
    decreases |m|
  {
    if m != map[] {
      var k :| k in m;
      assert (m - {k}).Keys == m.Keys - {k};
      SumRemove(m, g, k);
      SumFinite(m - {k}, g);
    }
  }

  /** A reduce with two accumulators, one per function. */
  function FoldPair(snap: seq<Entry>, g: Doc -> Total, h: Doc -> Total): (r: Balances)
    ensures r == Balances(Fold(snap, g), Fold(snap, h))
    decreases |snap|
  {
    if snap == [] then Balances(Finite(0), Finite(0))
    else
      var acc := FoldPair(snap[..|snap| - 1], g, h);
      var d := snap[|snap| - 1].doc;
      Balances(Plus(acc.confirmed, g(d)), Plus(acc.unconfirmed, h(d)))
  }

  /** The four sums over a collection. */
  ghost function TallyOf(m: map<string, Doc>): Tally
  {
    Tally(Sum(m, BucketAmount(IncomingConfirmed)), Sum(m, BucketAmount(IncomingUnconfirmed)),
          Sum(m, BucketAmount(OutgoingConfirmed)), Sum(m, BucketAmount(OutgoingUnconfirmed)))
  }

  /** The one-pass reduce over any snapshot of a collection computes its four sums. */
  lemma TallyFoldIsTallyOf(snap: seq<Entry>, m: map<string, Doc>)
    requires IsListing(snap, m)
    ensures TallyFold(snap) == TallyOf(m)
  {
    FoldIsSum(snap, m, BucketAmount(IncomingConfirmed));
    FoldIsSum(snap, m, BucketAmount(IncomingUnconfirmed));
    FoldIsSum(snap, m, BucketAmount(OutgoingConfirmed));
    FoldIsSum(snap, m, BucketAmount(OutgoingUnconfirmed));
  }

  /** When every record contributes a number, so does every bucket. */
  lemma BucketFinite(m: map<string, Doc>, b: Bucket)
    requires forall k :: k in m ==> TxAmount(m[k]).Finite?
    ensures Sum(m, BucketAmount(b)).Finite?
  {
    forall k | k in m
      ensures BucketAmount(b)(m[k]).Finite?
    {
    }
    SumFinite(m, BucketAmount(b));
  }
}
