/** The slice of BSON and of the MongoDB query language the repositories rely on: documents as maps,
    equality filters, `$set`, and the `$slice` aggregation operator. */
module Bson {
  import opened Wrappers

  datatype Value =
    | Str(s: string)
    | Int32(i: int)
    | Int64(i: int)
    | DateTime(ms: int)
    | ObjectId(hex: string)
    | Null
    | Array(items: seq<Value>)
    | Document(fields: map<string, Value>)

  type Doc = map<string, Value>

  const Int32Min := -0x8000_0000
  const Int32Max := 0x7FFF_FFFF

  /** The equality filter `{key: v}`: a null value also matches documents that lack the key. */
  predicate Matches(doc: Doc, key: string, v: Value) {
    if v == Null then key !in doc || doc[key] == Null else key in doc && doc[key] == v
  }

  /** `$set`: the listed fields take the new values, every other field is kept. */
  function SetFields(doc: Doc, fields: Doc): (r: Doc)
    ensures r.Keys == doc.Keys + fields.Keys
    ensures forall k :: k in fields ==> r[k] == fields[k]
    ensures forall k :: k in doc && k !in fields ==> r[k] == doc[k]
  {
    doc + fields
  }

  /** The error kinds of the `$slice` operator. */
  const SliceNotInt32 := "$slice argument can't be represented as a 32-bit integer"
  const SliceCountNotPositive := "Third argument to $slice must be positive"

  /** Start of `$slice: [array, position, n]`: a negative position counts from the end (clamped at the
      front), a position past the end gives the end. */
  function SliceStart(len: nat, position: int): (s: nat)
    ensures s <= len
    ensures 0 <= position ==> s == if position < len then position else len
    ensures position < 0 ==> s == if len + position < 0 then 0 else len + position
  {
    if position < 0 then (if len + position < 0 then 0 else len + position)
    else if position < len then position else len
  }

  /** `$slice: [array, position, n]`. */
  function Slice<T>(items: seq<T>, position: int, n: int): (r: Result<seq<T>>)
    ensures r.Err? <==> !(Int32Min <= position <= Int32Max) || !(Int32Min <= n <= Int32Max) || n <= 0
    ensures r.Ok? ==> var s := SliceStart(|items|, position);
                      r.value == items[s .. if s + n < |items| then s + n else |items|]
  {
    if !(Int32Min <= position <= Int32Max) || !(Int32Min <= n <= Int32Max) then Err(SliceNotInt32)
    else if n <= 0 then Err(SliceCountNotPositive)
    else
      var s := SliceStart(|items|, position);
      Ok(items[s .. if s + n < |items| then s + n else |items|])
  }

  /** A page from a non-negative position holds at most n items, the ones stored at position,
      position + 1, ..., in stored order, and is empty once the position reaches the end. */
  lemma SliceIsWindow<T>(items: seq<T>, position: int, n: int)
    requires 0 <= position <= Int32Max && 0 < n <= Int32Max
    ensures Slice(items, position, n).Ok?
    ensures var r := Slice(items, position, n).value;
            && |r| <= n
            && (forall k :: 0 <= k < |r| ==> r[k] == items[position + k])
            && (position >= |items| ==> r == [])
            && (position + n <= |items| ==> |r| == n)
  {
  }

  /** A negative position takes the window from the end, so -k gives the last k items (or all). */
  lemma NegativeSliceTakesTail<T>(items: seq<T>, k: int)
    requires 0 < k <= Int32Max
    ensures Slice(items, -k, k) == Ok(if k <= |items| then items[|items| - k..] else items)
  {
    var s := SliceStart(|items|, -k);
    if k > |items| {
      assert s == 0;
      assert items[0..|items|] == items;
    } else {
      assert s == |items| - k;
      assert items[s..|items|] == items[|items| - k..];
    }
  }

  /** Go's time.Parse(time.RFC3339, t.Format(time.RFC3339)): the instant with its fraction of a second
      dropped, here in milliseconds since the epoch. */
  function TruncateToSecond(ms: int): (r: int)
    ensures r <= ms < r + 1000 && r % 1000 == 0
  {
    ms - ms % 1000
  }

  /** The zero time.Time (January 1, year 1, UTC), in milliseconds since the epoch. */
  const ZeroTime := -62_135_596_800_000
}
