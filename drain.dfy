/**
 * The webhook drain (app.js:152-161): a counter per pipe identifier, kept
 * in Redis. POST /drain/:id acknowledges at once and, when the delivered
 * body is an array, adds its length to the counter with INCRBY; GET
 * /drain/:id answers `{total: value}` with the stored value, or null for an
 * identifier never counted. The store is modelled as an in-memory map that
 * the handlers update one request at a time.
 */
module Drain {
  import opened JsValues
  import opened AppState

  /** The largest value a Redis integer holds (a signed 64-bit integer). */
  const RedisMaxInt := 0x7FFF_FFFF_FFFF_FFFF

  /** A Redis counter as INCRBY sees it: an absent key counts as 0. */
  function Count(counters: map<string, int>, id: string): int {
    if id in counters then counters[id] else 0
  }

  /**
   * `INCRBY id delta`: creates or increases the counter; an increment that
   * would overflow is refused and the store is left as it was.
   */
  function IncrBy(counters: map<string, int>, id: string, delta: nat): (r: map<string, int>)
    ensures r == counters || (r.Keys == counters.Keys + {id} && Count(r, id) == Count(counters, id) + delta)
    ensures r != counters <==> Count(counters, id) + delta <= RedisMaxInt && (delta != 0 || id !in counters)
    ensures forall k | k != id && k in counters :: k in r && r[k] == counters[k]
  {
    if Count(counters, id) + delta > RedisMaxInt then counters
    else counters[id := Count(counters, id) + delta]
  }

  /** The store after POST /drain/:id with `body`: only arrays are counted. */
  function AfterWrite(counters: map<string, int>, id: string, body: Value): (r: map<string, int>)
    ensures counters.Keys <= r.Keys <= counters.Keys + {id}
    ensures r != counters ==> body.Arr?
  {
    if body.Arr? then IncrBy(counters, id, |body.items|) else counters
  }

  /** The `total` of GET /drain/:id: Redis answers with the number as text. */
  function Total(counters: map<string, int>, id: string): (t: Value)
    ensures t == Null <==> id !in counters
    ensures t != Null ==> t == Str(IntToString(Count(counters, id)))
  {
    if id in counters then Str(IntToString(counters[id])) else Null
  }

  /** Every counter holds a value Redis can store, never below zero. */
  predicate CountersValid(counters: map<string, int>) {
    forall id | id in counters :: 0 <= counters[id] <= RedisMaxInt
  }

  class DrainStore {
    var counters: map<string, int>

    ghost predicate Valid()
      reads this
    {
      CountersValid(counters)
    }

    constructor ()
      ensures Valid() && counters == map[]
    {
      counters := map[];
    }

    /** POST /drain/:id. The 200 is sent before, and whatever, the increment does. */
    method Write(id: string, body: Value) returns (res: Response)
      requires Valid()
      modifies this`counters
      ensures Valid()
      ensures res == Text(200, "OK")
      ensures counters == AfterWrite(old(counters), id, body)
    {
      res := Text(200, "OK");
      if body.Arr? {
        var next := Count(counters, id) + |body.items|;
        if next <= RedisMaxInt {
          counters := counters[id := next];
        }
      }
    }

    /** GET /drain/:id. */
    method Read(id: string) returns (res: Response)
      ensures res.JsonReply? && res.status == 200
      ensures res.json == Obj(map["total" := Total(counters, id)])
      ensures Member(res.json, "total") == Null <==> id !in counters
    {
      var total := if id in counters then Str(IntToString(counters[id])) else Null;
      res := JsonReply(200, Obj(map["total" := total]));
    }
  }

  // ---------------------------------------------------------------------
  // Properties
  // ---------------------------------------------------------------------

  /** A body that is not an array leaves the whole store as it was. */
  lemma NonArrayWriteIsNoop(counters: map<string, int>, id: string, body: Value)
    requires !body.Arr?
    ensures AfterWrite(counters, id, body) == counters
  {
  }

  /**
   * An array adds its length to the counter of `id` (created at zero when
   * absent), unless the sum would not fit in a Redis integer.
   */
  lemma ArrayWriteAddsLength(counters: map<string, int>, id: string, items: seq<Value>)
    requires Count(counters, id) + |items| <= RedisMaxInt
    ensures id in AfterWrite(counters, id, Arr(items))
    ensures Count(AfterWrite(counters, id, Arr(items)), id) == Count(counters, id) + |items|
  {
  }

  /** A write touches the counter of its own identifier and no other. */
  lemma WriteLeavesOthers(counters: map<string, int>, id: string, body: Value, other: string)
    requires other != id
    ensures other in AfterWrite(counters, id, body) <==> other in counters
    ensures Count(AfterWrite(counters, id, body), other) == Count(counters, other)
  {
  }

  /** Writes keep every counter within Redis's range and never decrease one. */
  lemma WritePreservesValid(counters: map<string, int>, id: string, body: Value)
    requires CountersValid(counters)
    ensures CountersValid(AfterWrite(counters, id, body))
    ensures forall k :: Count(counters, k) <= Count(AfterWrite(counters, id, body), k)
  {
  }

  /** The counter of an identifier is the sum of the array lengths delivered to it. */
  lemma {:induction false} CountIsSumOfBatches(counters: map<string, int>, id: string, batches: seq<seq<Value>>)
    requires Count(counters, id) + SumOfLengths(batches) <= RedisMaxInt
    ensures Count(WriteAll(counters, id, batches), id) == Count(counters, id) + SumOfLengths(batches)
    ensures batches != [] ==> id in WriteAll(counters, id, batches)
    decreases |batches|
  {
    if batches != [] {
      var last := batches[|batches| - 1];
      var init := batches[..|batches| - 1];
      SumOfLengthsSnoc(init, last);
      assert init + [last] == batches;
      CountIsSumOfBatches(counters, id, init);
    }
  }

  function SumOfLengths(batches: seq<seq<Value>>): nat
    decreases |batches|
  {
    if batches == [] then 0 else SumOfLengths(batches[..|batches| - 1]) + |batches[|batches| - 1]|
  }

  lemma SumOfLengthsSnoc(init: seq<seq<Value>>, last: seq<Value>)
    ensures SumOfLengths(init + [last]) == SumOfLengths(init) + |last|
  {
    assert (init + [last])[..|init|] == init;
  }

  /** The store after array deliveries to one identifier, in order. */
  function WriteAll(counters: map<string, int>, id: string, batches: seq<seq<Value>>): map<string, int>
    decreases |batches|
  {
    if batches == [] then counters
    else AfterWrite(WriteAll(counters, id, batches[..|batches| - 1]), id, Arr(batches[|batches| - 1]))
  }

  /** POST of three items, then of two, then GET, on a fresh store: `{total: "5"}`. */
  method ThreeThenTwo(id: string, a: seq<Value>, b: seq<Value>) returns (res: Response)
    requires |a| == 3 && |b| == 2
    ensures res == JsonReply(200, Obj(map["total" := Str("5")]))
  {
    var store := new DrainStore();
    var ok := store.Write(id, Arr(a));
    ok := store.Write(id, Arr(b));
    res := store.Read(id);
  }
}
