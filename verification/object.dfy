/**
  The key/value helpers of goog/object/object.go.

  `Create` walks a flat argument list two positions at a time and stores each
  key (a string) with the value that follows it in a fresh map; a later pair
  overwrites an earlier one with the same key. It panics when the list has odd
  length (the last key has no value) or when a key position holds something
  other than a string. `ForEach` calls a callback once per entry and returns nil.
 */
module GoogObject {
  import opened Wrappers
  import opened Values

  /** A Go `map[string]interface{}`. */
  type Object = map<string, Value>

  /**
    The runtime panic of `Create`, raised by the pair that starts at position `at`:
    its value position is out of range, or its key is not a string. Go fixes no
    order between the two checks, so both are one outcome.
   */
  datatype CreatePanic = BadPair(at: nat)

  /** The number of pairs the loop starts: one per even position. */
  function PairCount(kv: seq<Value>): nat
  {
    (|kv| + 1) / 2
  }

  /** Pair `j` (positions `2j` and `2j + 1`) is well formed: it has a value and a string key. */
  predicate PairOk(kv: seq<Value>, j: nat)
  {
    2 * j + 1 < |kv| && kv[2 * j].GoString?
  }

  /** Every pair before pair `k` is well formed. */
  predicate PairsOk(kv: seq<Value>, k: nat)
  {
    forall j :: 0 <= j < k ==> PairOk(kv, j)
  }

  /** The arguments `Create` accepts: every pair is well formed. */
  predicate WellFormed(kv: seq<Value>)
  {
    PairsOk(kv, PairCount(kv))
  }

  function Key(kv: seq<Value>, j: nat): string
    requires PairOk(kv, j)
  {
    kv[2 * j].s
  }

  function Val(kv: seq<Value>, j: nat): Value
    requires PairOk(kv, j)
  {
    kv[2 * j + 1]
  }

  /** The map after the first `k` pairs have been stored, in order: a left fold. */
  function Build(kv: seq<Value>, k: nat): Object
    requires PairsOk(kv, k)
    decreases k
  {
    if k == 0 then map[]
    else
      assert PairOk(kv, k - 1);
      Build(kv, k - 1)[Key(kv, k - 1) := Val(kv, k - 1)]
  }

  /** The first ill-formed pair at or after pair `k`, given that there is one. */
  function FirstBadPair(kv: seq<Value>, k: nat): (j: nat)
    requires PairsOk(kv, k) && !WellFormed(kv)
    ensures k <= j < PairCount(kv)
    ensures !PairOk(kv, j) && PairsOk(kv, j)
    decreases PairCount(kv) - k
  {
    if !PairOk(kv, k) then k else FirstBadPair(kv, k + 1)
  }

  /** What `Create` computes: the fold of all pairs, or the panic at the first bad pair. */
  function CreateSpec(kv: seq<Value>): Result<Object, CreatePanic>
  {
    if WellFormed(kv) then Ok(Build(kv, PairCount(kv)))
    else Err(BadPair(2 * FirstBadPair(kv, 0)))
  }

  /** `object.Create`: fill a fresh map from the argument list, two positions per pass. */
  method Create(keyvals: seq<Value>) returns (r: Result<Object, CreatePanic>)
    ensures r == CreateSpec(keyvals)
  {
    var obj: Object := map[];
    var i := 0;
    while i < |keyvals|
      invariant i % 2 == 0 && i <= |keyvals|
      invariant PairsOk(keyvals, i / 2)
      invariant obj == Build(keyvals, i / 2)
    {
      if i + 1 >= |keyvals| || !keyvals[i].GoString? {
        // index out of range, or the failed `.(string)` assertion
        assert !PairOk(keyvals, i / 2);
        assert !WellFormed(keyvals);
        return Err(BadPair(i));
      }
      assert PairOk(keyvals, i / 2);
      obj := obj[keyvals[i].s := keyvals[i + 1]];
      // the body's `i++` and the loop's own `i++`
      i := i + 2;
    }
    return Ok(obj);
  }

  // ---------------------------------------------------------------------------
  // Properties of Create
  // ---------------------------------------------------------------------------

  /** Well formed means exactly: even length, and a string at every even position. */
  lemma {:induction false} WellFormedIff(kv: seq<Value>)
    ensures WellFormed(kv) <==>
              |kv| % 2 == 0 && forall i :: 0 <= i < |kv| && i % 2 == 0 ==> kv[i].GoString?
  {
    if WellFormed(kv) {
      if |kv| > 0 {
        assert PairOk(kv, PairCount(kv) - 1);
      }
      forall i | 0 <= i < |kv| && i % 2 == 0 ensures kv[i].GoString? {
        assert PairOk(kv, i / 2);
      }
    }
    if |kv| % 2 == 0 && forall i :: 0 <= i < |kv| && i % 2 == 0 ==> kv[i].GoString? {
      forall j | 0 <= j < PairCount(kv) ensures PairOk(kv, j) {
        assert kv[2 * j].GoString?;
      }
    }
  }

  lemma CreateEmpty()
    ensures CreateSpec([]) == Ok(map[])
  {
  }

  /** An odd-length list panics: its last key has no value. */
  lemma {:induction false} CreateFailsOnOddLength(kv: seq<Value>)
    requires |kv| % 2 == 1
    ensures CreateSpec(kv).Err?
  {
    WellFormedIff(kv);
  }

  /** A list with a non-string at a key position panics. */
  lemma {:induction false} CreateFailsOnNonStringKey(kv: seq<Value>, i: nat)
    requires i < |kv| && i % 2 == 0 && !kv[i].GoString?
    ensures CreateSpec(kv).Err?
  {
    WellFormedIff(kv);
  }

  /** A failed `Create` names the first bad pair: its key or its value is wrong, every pair before it is well formed. */
  lemma {:induction false} CreatePanicsAtFirstBadPair(kv: seq<Value>)
    requires CreateSpec(kv).Err?
    ensures var at := CreateSpec(kv).error.at;
      && at < |kv| && at % 2 == 0
      && (at + 1 == |kv| || !kv[at].GoString?)
      && forall j :: 0 <= j < at / 2 ==> PairOk(kv, j)
  {
    var j := FirstBadPair(kv, 0);
    assert CreateSpec(kv).error.at == 2 * j;
  }

  /** The keys of the first `k` pairs. */
  function KeysBefore(kv: seq<Value>, k: nat): set<string>
    requires PairsOk(kv, k)
  {
    set j | 0 <= j < k && PairOk(kv, j) :: Key(kv, j)
  }

  lemma {:induction false} KeysBeforeStep(kv: seq<Value>, k: nat)
    requires PairsOk(kv, k + 1)
    ensures KeysBefore(kv, k + 1) == KeysBefore(kv, k) + {Key(kv, k)}
  {
    forall x | x in KeysBefore(kv, k + 1) ensures x in KeysBefore(kv, k) + {Key(kv, k)} {
      var j :| 0 <= j < k + 1 && PairOk(kv, j) && Key(kv, j) == x;
      if j < k {
        assert x in KeysBefore(kv, k);
      }
    }
  }

  lemma {:induction false} BuildKeys(kv: seq<Value>, k: nat)
    requires PairsOk(kv, k)
    ensures Build(kv, k).Keys == KeysBefore(kv, k)
    decreases k
  {
    if k > 0 {
      assert PairOk(kv, k - 1);
      BuildKeys(kv, k - 1);
      KeysBeforeStep(kv, k - 1);
    }
  }

  /** Each pass adds at most one key. */
  lemma {:induction false} BuildSize(kv: seq<Value>, k: nat)
    requires PairsOk(kv, k)
    ensures |Build(kv, k)| <= k
    decreases k
  {
    if k > 0 {
      assert PairOk(kv, k - 1);
      BuildSize(kv, k - 1);
      var m := Build(kv, k - 1);
      assert Build(kv, k).Keys == m.Keys + {Key(kv, k - 1)};
      assert |Build(kv, k).Keys| <= |m.Keys| + 1;
    }
  }

  /** Pair `j` is the last of the first `k` pairs with its key. */
  predicate LastOccurrence(kv: seq<Value>, k: nat, j: nat)
  {
    && j < k
    && PairOk(kv, j)
    && forall l :: j < l < k && PairOk(kv, l) ==> Key(kv, l) != Key(kv, j)
  }

  lemma {:induction false} BuildLastWins(kv: seq<Value>, k: nat, j: nat)
    requires PairsOk(kv, k) && LastOccurrence(kv, k, j)
    ensures Key(kv, j) in Build(kv, k) && Build(kv, k)[Key(kv, j)] == Val(kv, j)
    decreases k
  {
    assert PairOk(kv, k - 1);
    if j < k - 1 {
      assert Key(kv, k - 1) != Key(kv, j);
      BuildLastWins(kv, k - 1, j);
    }
  }

  /**
    A successful `Create` maps exactly the keys of the list, at most one per pair,
    and each key to the value that follows its last occurrence.
   */
  lemma {:induction false} CreateContents(kv: seq<Value>)
    requires CreateSpec(kv).Ok?
    ensures var m := CreateSpec(kv).value;
      && m.Keys == (set j | 0 <= j < PairCount(kv) && PairOk(kv, j) :: Key(kv, j))
      && |m| <= |kv| / 2
      && forall j :: LastOccurrence(kv, PairCount(kv), j) ==> Key(kv, j) in m && m[Key(kv, j)] == Val(kv, j)
  {
    var n := PairCount(kv);
    WellFormedIff(kv);
    BuildKeys(kv, n);
    BuildSize(kv, n);
    forall j | LastOccurrence(kv, n, j)
      ensures Key(kv, j) in Build(kv, n) && Build(kv, n)[Key(kv, j)] == Val(kv, j)
    {
      BuildLastWins(kv, n, j);
    }
  }

  // ---------------------------------------------------------------------------
  // ForEach
  // ---------------------------------------------------------------------------

  /** One call of the `ForEach` callback: `f(k, v, obj)`; `obj` is always the map itself. */
  datatype Visit = Visit(key: string, value: Value)

  /** The keys a trace of callback calls has visited. */
  function VisitedKeys(calls: seq<Visit>): (keys: set<string>)
    ensures forall i :: 0 <= i < |calls| ==> calls[i].key in keys
  {
    if calls == [] then {}
    else VisitedKeys(calls[..|calls| - 1]) + {calls[|calls| - 1].key}
  }

  /**
    `object.ForEach`: call the callback once per entry, in an order Go leaves
    unspecified, and return nil. The callback's effects are not modelled; the
    calls it receives are returned as a trace.
   */
  method ForEach(obj: Object) returns (calls: seq<Visit>, r: Value)
    ensures r == GoNil
    ensures |calls| == |obj|
    ensures VisitedKeys(calls) == obj.Keys
    ensures forall i :: 0 <= i < |calls| ==> calls[i].key in obj && calls[i].value == obj[calls[i].key]
    ensures forall i, j :: 0 <= i < j < |calls| ==> calls[i].key != calls[j].key
  {
    calls := [];
    var remaining := obj.Keys;
    assert |obj.Keys| == |obj|;
    while remaining != {}
      invariant remaining <= obj.Keys
      invariant VisitedKeys(calls) == obj.Keys - remaining
      invariant |calls| + |remaining| == |obj|
      invariant forall i :: 0 <= i < |calls| ==> calls[i].key in obj && calls[i].value == obj[calls[i].key]
      invariant forall i, j :: 0 <= i < j < |calls| ==> calls[i].key != calls[j].key
      decreases |remaining|
    {
      var k :| k in remaining;
      assert k !in VisitedKeys(calls);
      ghost var before := calls;
      calls := calls + [Visit(k, obj[k])];
      assert calls[..|calls| - 1] == before;
      assert VisitedKeys(calls) == VisitedKeys(before) + {k};
      remaining := remaining - {k};
    }
    r := GoNil;
  }
}
