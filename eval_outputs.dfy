/** The list logic of `inference_epoch_end` in the encoder-decoder trainer: the
    per-batch output dicts are concatenated key by key, then every column is filtered
    with one mask that keeps the first occurrence of each example index. */
module EvalOutputs {
  import opened Wrappers

  /** An entry of a batch output list: an integer (`prediction`, `label`, `idx`) or a
      score. */
  datatype Value = Int(i: int) | Real(r: real)

  /** One batch's output dict, or the accumulated dict. */
  type Outputs = map<string, seq<Value>>

  datatype EvalError =
    | NoOutputs    // `outputs[0]` of an empty list
    | KeyMissing   // a key absent from the dict being read or extended

  /** The part of one batch's output that goes to `key`: its list, or nothing. */
  function Part(batch: Outputs, key: string): seq<Value> {
    if key in batch then batch[key] else []
  }

  /** The lists of `key` of every batch, concatenated in batch order. */
  function ColumnOf(outputs: seq<Outputs>, key: string): seq<Value> {
    if |outputs| == 0 then []
    else ColumnOf(outputs[..|outputs| - 1], key) + Part(outputs[|outputs| - 1], key)
  }

  /** Concatenating the outputs of two runs concatenates every column. */
  lemma {:induction false} ColumnOfAppend(o1: seq<Outputs>, o2: seq<Outputs>, key: string)
    ensures ColumnOf(o1 + o2, key) == ColumnOf(o1, key) + ColumnOf(o2, key)
  {
    if |o2| == 0 {
      assert o1 + o2 == o1;
    } else {
      var last := o2[|o2| - 1];
      assert (o1 + o2)[..|o1 + o2| - 1] == o1 + o2[..|o2| - 1];
      ColumnOfAppend(o1, o2[..|o2| - 1], key);
    }
  }

  /** Every batch only has keys the first batch has. */
  predicate KeysWithin(outputs: seq<Outputs>, keys: set<string>) {
    forall b :: 0 <= b < |outputs| ==> outputs[b].Keys <= keys
  }

  /** One pass of the inner loop over a batch's items: every list of `batch` extends the
      list of its key; a key the accumulated dict lacks raises. */
  method ExtendBy(acc: Outputs, batch: Outputs) returns (r: Result<Outputs, EvalError>)
    ensures r.Failure? <==> !(batch.Keys <= acc.Keys)
    ensures r.Failure? ==> r.error == KeyMissing
    ensures r.Success? ==> r.value.Keys == acc.Keys
    ensures r.Success? ==> forall k :: k in acc ==> r.value[k] == acc[k] + Part(batch, k)
  {
    var todo := batch.Keys;
    var done: set<string> := {};
    var cur := acc;
    while todo != {}
      invariant todo + done == batch.Keys && todo !! done
      invariant cur.Keys == acc.Keys && done <= acc.Keys
      invariant forall k :: k in acc ==> cur[k] == acc[k] + (if k in done then batch[k] else [])
    {
      var k :| k in todo;
      if k !in acc {
        return Failure(KeyMissing);
      }
      cur := cur[k := cur[k] + batch[k]];
      todo := todo - {k};
      done := done + {k};
    }
    r := Success(cur);
  }

  /** The accumulation loop: one list per key of the first batch, each extended by every
      batch in order. An empty output list, or a batch with a key the first batch lacks,
      raises. */
  method Accumulate(outputs: seq<Outputs>) returns (r: Result<Outputs, EvalError>)
    ensures r.Failure? <==> |outputs| == 0 || !KeysWithin(outputs, outputs[0].Keys)
    ensures r.Success? ==> r.value.Keys == outputs[0].Keys
    ensures r.Success? ==> forall k :: k in r.value ==> r.value[k] == ColumnOf(outputs, k)
  {
    if |outputs| == 0 {
      return Failure(NoOutputs);
    }
    var keys := outputs[0].Keys;
    var acc: Outputs := map k | k in keys :: [];
    var b := 0;
    while b < |outputs|
      invariant 0 <= b <= |outputs|
      invariant acc.Keys == keys
      invariant KeysWithin(outputs[..b], keys)
      invariant forall k :: k in keys ==> acc[k] == ColumnOf(outputs[..b], k)
    {
      var next := ExtendBy(acc, outputs[b]);
      if next.Failure? {
        assert !KeysWithin(outputs, keys) by { assert !(outputs[b].Keys <= keys); }
        return Failure(KeyMissing);
      }
      ghost var upto := outputs[..b + 1];
      assert upto == outputs[..b] + [outputs[b]];
      assert upto[..b] == outputs[..b];
      acc := next.value;
      b := b + 1;
    }
    assert outputs[..|outputs|] == outputs;
    r := Success(acc);
  }

  // ---------------------------------------------------------------------------
  // Keep-first deduplication

  /** `valid_mask`: position i is kept iff its index did not occur earlier. */
  function FirstOccurrenceMask(idx: seq<Value>): (mask: seq<bool>)
    ensures |mask| == |idx|
  {
    seq(|idx|, i requires 0 <= i < |idx| => idx[i] !in idx[..i])
  }

  /** The mask loop with its set of seen indices builds exactly `FirstOccurrenceMask`. */
  method DedupMask(idx: seq<Value>) returns (mask: seq<bool>)
    ensures mask == FirstOccurrenceMask(idx)
  {
    mask := [];
    var seen: set<Value> := {};
    var i := 0;
    while i < |idx|
      invariant 0 <= i <= |idx|
      invariant |mask| == i
      invariant mask == FirstOccurrenceMask(idx)[..i]
      invariant forall v :: v in seen <==> v in idx[..i]
    {
      assert idx[..i + 1] == idx[..i] + [idx[i]];
      mask := mask + [idx[i] !in seen];
      seen := seen + {idx[i]};
      i := i + 1;
    }
  }

  /** `[v for v, m in zip(values, mask) if m]`: the values whose mask bit is set, in
      order, `zip` stopping at the shorter of the two. */
  function Keep<T>(values: seq<T>, mask: seq<bool>): (r: seq<T>)
    ensures |r| <= |values|
  {
    var n := if |values| < |mask| then |values| else |mask|;
    if n == 0 then []
    else Keep(values[..n - 1], mask[..n - 1]) + (if mask[n - 1] then [values[n - 1]] else [])
  }

  /** The positions whose mask bit is set, in increasing order. */
  function Positions(mask: seq<bool>): (p: seq<nat>)
    ensures forall j :: 0 <= j < |p| ==> p[j] < |mask| && mask[p[j]]
  {
    if |mask| == 0 then []
    else Positions(mask[..|mask| - 1]) + (if mask[|mask| - 1] then [|mask| - 1] else [])
  }

  /** Filtering a column of the mask's length picks its entries at the mask's positions;
      so every column filtered with one mask has the same length and row j of each comes
      from the same example. */
  lemma {:induction false} KeepAtPositions<T>(values: seq<T>, mask: seq<bool>)
    requires |values| == |mask|
    ensures |Keep(values, mask)| == |Positions(mask)|
    ensures forall j :: 0 <= j < |Positions(mask)| ==> Keep(values, mask)[j] == values[Positions(mask)[j]]
  {
    if |mask| > 0 {
      var n := |mask|;
      KeepAtPositions(values[..n - 1], mask[..n - 1]);
    }
  }

  predicate NoDuplicates<T(==)>(s: seq<T>) {
    forall i, j :: 0 <= i < j < |s| ==> s[i] != s[j]
  }

  /** Keeping the first occurrences leaves every index exactly once. */
  lemma {:induction false} DedupKeepsEachIndexOnce(idx: seq<Value>)
    ensures NoDuplicates(Keep(idx, FirstOccurrenceMask(idx)))
    ensures forall v :: v in Keep(idx, FirstOccurrenceMask(idx)) <==> v in idx
  {
    if |idx| > 0 {
      var n := |idx|;
      var front := idx[..n - 1];
      var mask := FirstOccurrenceMask(idx);
      assert mask[..n - 1] == FirstOccurrenceMask(front) by {
        forall i | 0 <= i < n - 1
          ensures mask[i] == FirstOccurrenceMask(front)[i]
        {
          assert front[..i] == idx[..i];
        }
      }
      DedupKeepsEachIndexOnce(front);
      var kept := Keep(front, mask[..n - 1]);
      assert Keep(idx, mask) == kept + (if mask[n - 1] then [idx[n - 1]] else []);
      assert idx == front + [idx[n - 1]];
      assert mask[n - 1] <==> idx[n - 1] !in front;
    }
  }

  /** The filtering loop over every column with the mask of the `idx` column; a dict
      without `idx` raises. */
  method Deduplicate(acc: Outputs) returns (r: Result<Outputs, EvalError>)
    ensures "idx" !in acc <==> r.Failure?
    ensures r.Failure? ==> r.error == KeyMissing
    ensures r.Success? ==> r.value.Keys == acc.Keys
    ensures r.Success? ==> forall k :: k in acc ==> r.value[k] == Keep(acc[k], FirstOccurrenceMask(acc["idx"]))
  {
    if "idx" !in acc {
      return Failure(KeyMissing);
    }
    var mask := DedupMask(acc["idx"]);
    var out := acc;
    var todo := acc.Keys;
    while todo != {}
      invariant todo <= acc.Keys && out.Keys == acc.Keys
      invariant forall k :: k in acc ==> out[k] == if k in todo then acc[k] else Keep(acc[k], mask)
    {
      var k :| k in todo;
      out := out[k := Keep(out[k], mask)];
      todo := todo - {k};
    }
    r := Success(out);
  }
}
