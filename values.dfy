/**
 * Field values of the document store, and the JavaScript arithmetic that the
 * balance folds apply to them.
 *
 * The folds in the triggers add document fields with `+` starting from the
 * number 0. In JavaScript a missing field is `undefined`, and `0 + undefined`
 * is NaN; `null` counts as 0; a string, list, map or timestamp operand turns
 * the sum into a non-number. Once the sum is not a number it stays so. `Total`
 * keeps exactly that distinction: a finite integer sum, or "not a number".
 */
module Values {

  datatype Option<+T> = None | Some(value: T)

  /** The error codes the functions fail with (`HttpsError` codes, and the
      store's own NOT_FOUND for an `update` of a missing document). */
  datatype ErrorCode =
    | PermissionDenied
    | NotFound
    | InvalidArgument
    | FailedPrecondition
    | Unavailable
    | Aborted
    | Unknown
    | AlreadyExists
    | Unauthenticated
    | Internal

  datatype Result<+T> = Ok(value: T) | Err(code: ErrorCode)

  function ErrorOf<T>(r: Result<T>): Option<ErrorCode>
  {
    if r.Ok? then None else Some(r.code)
  }

  /** Timestamps are opaque: the store's commit time
      (`FieldValue.serverTimestamp()`), a time built from ledger seconds
      (`Timestamp.fromMillis`), or the client clock (`new Date()`). */
  datatype Stamp = ServerTimestamp | FromMillis(millis: int) | ClientDate(tick: int)

  /** The kinds of field value this system stores. */
  datatype Value =
    | Null
    | Num(n: int)
    | NaN
    | Str(s: string)
    | Time(t: Stamp)
    | List(items: seq<Value>)
    | Fields(m: map<string, Value>)

  /** A document: field name to value. */
  type Doc = map<string, Value>

  /** `doc.data()[f]`: `None` plays the part of `undefined`. */
  function Get(d: Doc, f: string): Option<Value>
  {
    if f in d then Some(d[f]) else None
  }

  /** `v[k]` on a value read from a document: the member of a map, and
      undefined for anything else (`v.balance.total_settled` is
      `Member(Get(v, "balance"), "total_settled")`). */
  function Member(v: Option<Value>, k: string): Option<Value>
  {
    if v.Some? && v.value.Fields? && k in v.value.m then Some(v.value.m[k]) else None
  }

  /** The outcome of JavaScript `+`/`-` on numbers: a finite integer, or not a number. */
  datatype Total = Finite(n: int) | NotNumber

  function Plus(a: Total, b: Total): Total
  {
    if a.Finite? && b.Finite? then Finite(a.n + b.n) else NotNumber
  }

  function Minus(a: Total, b: Total): Total
  {
    if a.Finite? && b.Finite? then Finite(a.n - b.n) else NotNumber
  }

  /** What a field read contributes as an operand of `+` on a number. */
  function Term(v: Option<Value>): Total
  {
    match v
    case None => NotNumber
    case Some(Null) => Finite(0)
    case Some(Num(n)) => Finite(n)
    case Some(_) => NotNumber
  }

  /** The value a sum is written back as. */
  function Stored(t: Total): Value
  {
    if t.Finite? then Num(t.n) else NaN
  }

  /** JavaScript truthiness of a field read. */
  predicate Truthy(v: Option<Value>)
  {
    match v
    case None => false
    case Some(Null) => false
    case Some(Num(n)) => n != 0
    case Some(NaN) => false
    case Some(Str(s)) => s != ""
    case Some(_) => true
  }

  /** `s.startsWith(p)` */
  predicate StartsWith(s: string, p: string)
  {
    |p| <= |s| && s[..|p|] == p
  }

  lemma PlusCommutes(a: Total, b: Total)
    ensures Plus(a, b) == Plus(b, a)
  {
  }

  lemma PlusAssociates(a: Total, b: Total, c: Total)
    ensures Plus(Plus(a, b), c) == Plus(a, Plus(b, c))
  {
  }
}
