/**
 * The paging shared by `getIndividuals` and `getFamilies`: the clamped
 * (limit, offset) window read from the query string, the loop that skips
 * `offset` records and collects at most `limit`, and the `meta` block.
 */
module Pagination {
  import opened Wrappers
  import opened Json
  import opened PhpCast

  const DefaultLimit: int := 100
  const MaxLimit: int := 1000
  const DefaultOffset: int := 0

  /** The effective window. `limit` has no lower clamp, so it may be negative. */
  datatype Window = Window(limit: int, offset: nat)

  function Min(a: int, b: int): int { if a <= b then a else b }
  function Max(a: int, b: int): int { if a <= b then b else a }

  /** `(int) ($params[$name] ?? $default)`: query values are strings, cast when present. */
  function QueryInt(query: map<string, string>, name: string, default: int): int
  {
    if name in query then IntCast(query[name]) else default
  }

  /** `min((int) ($params['limit'] ?? 100), 1000)` and `max((int) ($params['offset'] ?? 0), 0)`. */
  function PageWindow(query: map<string, string>): (w: Window)
    ensures w.limit <= MaxLimit && w.limit <= QueryInt(query, "limit", DefaultLimit)
    ensures w.limit == MaxLimit || w.limit == QueryInt(query, "limit", DefaultLimit)
    ensures w.offset >= QueryInt(query, "offset", DefaultOffset)
    ensures w.offset == 0 || w.offset == QueryInt(query, "offset", DefaultOffset)
  {
    var limit := Min(QueryInt(query, "limit", DefaultLimit), MaxLimit);
    var offset := Max(QueryInt(query, "offset", DefaultOffset), 0);
    Window(limit, offset)
  }

  /** Without limit and offset parameters the window is 100 records from the start. */
  lemma DefaultWindow(query: map<string, string>)
    requires "limit" !in query && "offset" !in query
    ensures PageWindow(query) == Window(100, 0)
  {
  }

  /**
   * A limit written as a decimal integer, possibly followed by text that does
   * not continue it, is used as it is up to 1000: "-5" gives the limit -5,
   * "5000" gives 1000, "20abc" gives 20.
   */
  lemma DecimalLimit(query: map<string, string>, n: int, rest: string)
    requires rest == [] || !IsDigit(rest[0])
    requires "limit" in query && query["limit"] == DecimalString(n) + rest
    ensures PageWindow(query).limit == Min(n, 1000)
  {
    CastOfDecimal(n, rest);
  }

  /** A negative offset, written in decimal, is raised to 0; a non-negative one is kept. */
  lemma DecimalOffset(query: map<string, string>, n: int)
    requires "offset" in query && query["offset"] == DecimalString(n)
    ensures PageWindow(query).offset == Max(n, 0)
  {
    CastOfDecimal(n, []);
    assert DecimalString(n) + [] == DecimalString(n);
  }

  /** A present but non-numeric limit casts to 0, not to the default 100. */
  lemma NonNumericLimit(query: map<string, string>)
    requires "limit" in query
    requires var t := SkipSpace(query["limit"]);
      t == [] || (!IsDigit(t[0]) && ((t[0] != '-' && t[0] != '+') || |t| == 1 || !IsDigit(t[1])))
    ensures PageWindow(query).limit == 0
  {
    NonNumericCastsToZero(query["limit"]);
  }

  /** The records of `items` inside window `w`, in collection order. */
  function Page<T>(items: seq<T>, w: Window): (p: seq<T>)
    ensures |p| == Min(Max(w.limit, 0), Max(0, |items| - w.offset))
    ensures forall i :: 0 <= i < |p| ==> p[i] == items[w.offset + i]
  {
    if w.offset >= |items| then [] else items[w.offset..Min(|items|, w.offset + Max(w.limit, 0))]
  }

  /**
   * Two consecutive windows (the second starting where the first ends) return
   * together exactly the records of the window spanning both: paging
   * neither skips nor repeats a record.
   */
  lemma PagesTile<T>(items: seq<T>, offset: nat, a: nat, b: nat)
    ensures Page(items, Window(a, offset)) + Page(items, Window(b, offset + a)) ==
            Page(items, Window(a + b, offset))
  {
    var p := Page(items, Window(a, offset));
    var q := Page(items, Window(b, offset + a));
    var r := Page(items, Window(a + b, offset));
    assert |p| + |q| == |r|;
    assert |p| < a ==> q == [];
    forall i | 0 <= i < |r|
      ensures (p + q)[i] == r[i]
    {
      if i >= |p| {
        assert |p| == a;
        assert (p + q)[i] == q[i - a];
      }
    }
  }

  /** Each record mapped through the serializer, in order. */
  function Serialized<R, D>(records: seq<R>, serialize: R -> D): (docs: seq<D>)
    ensures |docs| == |records|
    ensures forall i :: 0 <= i < |records| ==> docs[i] == serialize(records[i])
  {
    seq(|records|, i requires 0 <= i < |records| => serialize(records[i]))
  }

  /**
   * The `foreach` of `getIndividuals`/`getFamilies`: skip while `$count <
   * $offset`, stop once `limit` documents are collected, otherwise serialize
   * the record and append it.
   */
  method CollectWindow<R, D>(records: seq<R>, w: Window, serialize: R -> D) returns (docs: seq<D>)
    ensures docs == Serialized(Page(records, w), serialize)
  {
    docs := [];
    var count := 0;
    for i := 0 to |records|
      invariant count == i
      invariant |docs| == Max(0, i - w.offset) && |docs| <= Max(w.limit, 0)
      invariant forall j :: 0 <= j < |docs| ==> docs[j] == serialize(records[w.offset + j])
    {
      if count < w.offset {
        count := count + 1;
        continue;
      }
      if |docs| >= w.limit {
        break;
      }
      docs := docs + [serialize(records[i])];
      count := count + 1;
    }
  }

  /** `'meta' => ['total' => ..., 'limit' => ..., 'offset' => ..., 'returned' => ...]`. */
  function MetaBlock(total: nat, w: Window, returned: nat): (j: Json)
    ensures IsObject(j, ["total", "limit", "offset", "returned"])
  {
    JObject(["total", "limit", "offset", "returned"],
            map["total" := JInt(total), "limit" := JInt(w.limit),
                "offset" := JInt(w.offset), "returned" := JInt(returned)])
  }

  /**
   * The body of a successful list response: `data` the documents, `meta`
   * the collection size, the window echoed back, and the number of documents.
   */
  function PageBody(data: seq<Json>, total: nat, w: Window): (j: Json)
    ensures IsObject(j, ["data", "meta"])
    ensures Get(j, "data") == Some(JArray(data))
    ensures Path(j, ["meta", "total"]) == Some(JInt(total))
    ensures Path(j, ["meta", "limit"]) == Some(JInt(w.limit))
    ensures Path(j, ["meta", "offset"]) == Some(JInt(w.offset))
    ensures Path(j, ["meta", "returned"]) == Some(JInt(|data|))
  {
    var j := JObject(["data", "meta"],
                     map["data" := JArray(data), "meta" := MetaBlock(total, w, |data|)]);
    PathOfTwo(j, "meta", "total");
    PathOfTwo(j, "meta", "limit");
    PathOfTwo(j, "meta", "offset");
    PathOfTwo(j, "meta", "returned");
    j
  }
}
