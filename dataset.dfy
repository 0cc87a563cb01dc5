/**
 * The batching data loader: a restartable cursor that walks a random-access
 * dataset batch by batch, with an optional yield limit and a drop-last policy.
 * The dataset is modelled as a sequence; Python's slices clamp out-of-range
 * bounds, which `Slice` writes out.
 */
module Dataset {
  import opened Wrappers

  /** A workflow input wrapped together with externally supplied dependencies. */
  datatype InputWithDeps<T, D> = InputWithDeps(input: T, dependencies: seq<D>)

  /** The loader's configuration; it is never changed after construction. */
  datatype Dataloader<S> = Dataloader(dataset: seq<S>, batchSize: nat, limit: Option<int>, dropLastBatch: bool)

  /** Python's `s[lo:hi]` for `0 <= lo <= hi`: both bounds are clamped to `|s|`. */
  function Slice<S>(s: seq<S>, lo: nat, hi: nat): (r: seq<S>)
    requires lo <= hi
    ensures |r| == (if hi <= |s| then hi - lo else if lo <= |s| then |s| - lo else 0)
    ensures forall k :: 0 <= k < |r| ==> r[k] == s[lo + k]
  {
    s[Min(lo, |s|)..Min(hi, |s|)]
  }

  /** The number of batches the loader announces (the `batches` attribute). */
  function BatchCount(size: nat, batchSize: nat, dropLast: bool): nat
    requires batchSize >= 1
  {
    size / batchSize + (if !dropLast && size % batchSize != 0 then 1 else 0)
  }

  /** The number of elements the cursor yields before it reports exhaustion. */
  function TotalYield(size: nat, batchSize: nat, limit: Option<int>, dropLast: bool): (r: int)
    requires batchSize >= 1
    ensures limit.Some? ==> r == limit.value
    ensures limit.None? && !dropLast ==> r == size
    ensures limit.None? && dropLast ==> r == size - size % batchSize && 0 <= r <= size
  {
    if limit.Some? then limit.value
    else batchSize * (size / batchSize) + (if dropLast then 0 else size % batchSize)
  }

  /** What one successful `__next__` produces: the batch and the two new counters. */
  datatype Advance<S> = Advance(batch: seq<S>, index: nat, yielded: nat)

  /** One `__next__` from counters (`ci`, `tyd`); `None` is StopIteration. */
  function NextBatch<S>(ds: seq<S>, b: nat, ty: int, ci: nat, tyd: nat): (r: Option<Advance<S>>)
    ensures r.None? <==> tyd >= ty
    ensures r.Some? ==> |r.value.batch| <= b && r.value.index == ci + b
    ensures r.Some? ==> r.value.yielded == tyd + |r.value.batch| <= ty
    ensures r.Some? ==> |r.value.batch| <= |Slice(ds, ci, ci + b)|
    ensures r.Some? ==> r.value.batch == Slice(ds, ci, ci + b)[..|r.value.batch|]
    ensures r.Some? && ci >= |ds| ==> r.value.batch == [] && r.value.yielded == tyd
  {
    if tyd < ty then
      var end := ci + b;
      var batch := Slice(ds, ci, end);
      var batch' := if tyd + |batch| > ty then batch[..ty - tyd] else batch;
      Some(Advance(batch', end, tyd + |batch'|))
    else
      None
  }

  /**
   * The relation between the counters that every state reachable from a
   * reset keeps: the yielded elements are a prefix of the dataset, and the
   * cursor sits right after them unless the yield is complete or the cursor
   * has run past the end of the data.
   */
  predicate CursorOk(n: nat, ty: int, ci: nat, tyd: nat)
  {
    && tyd <= n
    && (tyd <= ty || tyd == 0)
    && (ci == tyd || tyd >= ty || (tyd == n && ci >= n))
  }

  /** A step from a good cursor yields exactly the next slice of the dataset. */
  lemma NextBatchYieldsPrefix<S>(ds: seq<S>, b: nat, ty: int, ci: nat, tyd: nat)
    requires b >= 1 && CursorOk(|ds|, ty, ci, tyd) && tyd < ty
    ensures NextBatch(ds, b, ty, ci, tyd).Some?
    ensures var a := NextBatch(ds, b, ty, ci, tyd).value;
      && CursorOk(|ds|, ty, a.index, a.yielded)
      && a.batch == ds[tyd..a.yielded]
      && (a.batch == [] <==> ci >= |ds|)
      && (a.batch == [] ==> tyd == |ds|)
  {
    var a := NextBatch(ds, b, ty, ci, tyd).value;
    var s := Slice(ds, ci, ci + b);
    if ci == tyd {
      assert a.batch == ds[tyd..a.yielded];
    } else {
      assert s == [];
    }
  }

  /** Concatenation of a list of batches. */
  function Flatten<S>(bs: seq<seq<S>>): seq<S>
  {
    if bs == [] then [] else bs[0] + Flatten(bs[1..])
  }

  /**
   * Every batch the cursor yields from (`ci`, `tyd`) until it reports
   * exhaustion, when the yield total does not exceed the data.
   */
  ghost function Drain<S>(ds: seq<S>, b: nat, ty: int, ci: nat, tyd: nat): seq<seq<S>>
    requires b >= 1 && CursorOk(|ds|, ty, ci, tyd) && ty <= |ds|
    decreases ty - tyd
  {
    if tyd >= ty then []
    else
      NextBatchYieldsPrefix(ds, b, ty, ci, tyd);
      var a := NextBatch(ds, b, ty, ci, tyd).value;
      [a.batch] + Drain(ds, b, ty, a.index, a.yielded)
  }

  /** With a total within the data, the batches concatenate to the yielded prefix. */
  lemma {:induction false} DrainCoversPrefix<S>(ds: seq<S>, b: nat, ty: int, ci: nat, tyd: nat)
    requires b >= 1 && CursorOk(|ds|, ty, ci, tyd) && ty <= |ds|
    ensures Flatten(Drain(ds, b, ty, ci, tyd)) == ds[tyd..Max(ty, tyd)]
    decreases ty - tyd
  {
    if tyd < ty {
      NextBatchYieldsPrefix(ds, b, ty, ci, tyd);
      var a := NextBatch(ds, b, ty, ci, tyd).value;
      DrainCoversPrefix(ds, b, ty, a.index, a.yielded);
      assert ds[tyd..a.yielded] + ds[a.yielded..ty] == ds[tyd..ty];
    }
  }

  /** Every batch is non-empty and at most `b` long; only the last may be shorter. */
  predicate BatchLengthsOk<S>(d: seq<seq<S>>, b: nat)
  {
    && (forall i :: 0 <= i < |d| ==> 0 < |d[i]| <= b)
    && (forall i :: 0 <= i < |d| - 1 ==> |d[i]| == b)
  }

  /** Only the last batch the cursor yields can be shorter than `b`. */
  lemma {:induction false} DrainBatchLengths<S>(ds: seq<S>, b: nat, ty: int, ci: nat, tyd: nat)
    requires b >= 1 && CursorOk(|ds|, ty, ci, tyd) && ty <= |ds|
    ensures BatchLengthsOk(Drain(ds, b, ty, ci, tyd), b)
    decreases ty - tyd
  {
    if tyd < ty {
      NextBatchYieldsPrefix(ds, b, ty, ci, tyd);
      var a := NextBatch(ds, b, ty, ci, tyd).value;
      DrainBatchLengths(ds, b, ty, a.index, a.yielded);
      var rest := Drain(ds, b, ty, a.index, a.yielded);
      var d := Drain(ds, b, ty, ci, tyd);
      assert d == [a.batch] + rest;
      assert ci == tyd < |ds|;
      assert 0 < |a.batch| <= b;
      if rest != [] {
        assert a.yielded < ty;
        assert |a.batch| == b;
      }
      forall i | 0 <= i < |d| ensures 0 < |d[i]| <= b {
        if i > 0 { assert d[i] == rest[i - 1]; }
      }
      forall i | 0 <= i < |d| - 1 ensures |d[i]| == b {
        if i > 0 { assert d[i] == rest[i - 1]; }
      }
    }
  }

  lemma MulNonNegative(a: int, b: int)
    requires a >= 0 && b >= 0
    ensures a * b >= 0
  {
  }

  lemma MulStrictlyInside(d: int, b: int)
    requires b >= 1 && -b < d * b < b
    ensures d == 0
  {
    if d >= 1 {
      assert d * b == (d - 1) * b + b;
      MulNonNegative(d - 1, b);
    } else if d <= -1 {
      assert -d * b == (-d - 1) * b + b;
      MulNonNegative(-d - 1, b);
    }
  }

  /** Integer division and remainder are determined by the quotient-remainder decomposition. */
  lemma DivModUnique(x: int, b: int, q: int, r: int)
    requires b >= 1 && 0 <= r < b && x == q * b + r
    ensures x / b == q && x % b == r
  {
    var q', r' := x / b, x % b;
    assert x == q' * b + r';
    assert (q' - q) * b == r - r';
    MulStrictlyInside(q' - q, b);
  }

  /** Ceiling division of a positive span by the batch size. */
  function CeilDiv(x: nat, b: nat): nat
    requires b >= 1
  {
    (x + b - 1) / b
  }

  lemma CeilDivStep(x: int, b: nat)
    requires b >= 1 && x > b
    ensures CeilDiv(x, b) == CeilDiv(x - b, b) + 1
  {
    var y := x - b + b - 1;
    DivModUnique(y, b, y / b, y % b);
    DivModUnique(x + b - 1, b, y / b + 1, y % b);
  }

  lemma CeilDivOne(x: int, b: nat)
    requires b >= 1 && 0 < x <= b
    ensures CeilDiv(x, b) == 1
  {
    DivModUnique(x + b - 1, b, 1, x - 1);
  }

  /** The cursor makes one call per started batch: the ceiling of the remaining span. */
  lemma {:induction false} DrainCount<S>(ds: seq<S>, b: nat, ty: int, ci: nat, tyd: nat)
    requires b >= 1 && CursorOk(|ds|, ty, ci, tyd) && ty <= |ds|
    ensures |Drain(ds, b, ty, ci, tyd)| == if tyd < ty then CeilDiv(ty - tyd, b) else 0
    decreases ty - tyd
  {
    if tyd < ty {
      NextBatchYieldsPrefix(ds, b, ty, ci, tyd);
      var a := NextBatch(ds, b, ty, ci, tyd).value;
      DrainCount(ds, b, ty, a.index, a.yielded);
      assert |Drain(ds, b, ty, ci, tyd)| == 1 + |Drain(ds, b, ty, a.index, a.yielded)|;
      if a.yielded < ty {
        assert a.yielded == tyd + b;
        CeilDivStep(ty - tyd, b);
      } else {
        CeilDivOne(ty - tyd, b);
      }
    }
  }

  lemma BatchCountIsCeil(n: nat, b: nat, dropLast: bool)
    requires b >= 1
    ensures var ty := TotalYield(n, b, None, dropLast);
      BatchCount(n, b, dropLast) == if ty > 0 then CeilDiv(ty, b) else 0
  {
    var q, r := n / b, n % b;
    assert n == q * b + r;
    if dropLast || r == 0 {
      if q > 0 {
        DivModUnique(q * b + b - 1, b, q, b - 1);
      } else {
        assert q * b == 0;
      }
    } else {
      DivModUnique(n + b - 1, b, q + 1, r - 1);
    }
  }

  /** Without a limit, the announced `batches` is the number of batches actually yielded. */
  lemma UnlimitedBatchCount<S>(ds: seq<S>, b: nat, dropLast: bool)
    requires b >= 1
    ensures CursorOk(|ds|, TotalYield(|ds|, b, None, dropLast), 0, 0)
    ensures |Drain(ds, b, TotalYield(|ds|, b, None, dropLast), 0, 0)| == BatchCount(|ds|, b, dropLast)
  {
    DrainCount(ds, b, TotalYield(|ds|, b, None, dropLast), 0, 0);
    BatchCountIsCeil(|ds|, b, dropLast);
  }

  /**
   * A yield total beyond the data is never reached: every call from a good
   * cursor returns a batch, and once the data is used up that batch is empty
   * and the yielded count stays put.
   */
  lemma LimitPastEndNeverExhausts<S>(ds: seq<S>, b: nat, ty: int, ci: nat, tyd: nat)
    requires b >= 1 && CursorOk(|ds|, ty, ci, tyd) && ty > |ds|
    ensures NextBatch(ds, b, ty, ci, tyd).Some?
    ensures var a := NextBatch(ds, b, ty, ci, tyd).value;
      && CursorOk(|ds|, ty, a.index, a.yielded)
      && (tyd == |ds| ==> a.batch == [] && a.yielded == tyd && a.index >= |ds|)
  {
    NextBatchYieldsPrefix(ds, b, ty, ci, tyd);
  }

  /**
   * The loader's cursor. The configuration fields are fixed at construction;
   * `currentIndex` and `totalYielded` are the two counters `__next__` moves.
   */
  class DataloaderIter<S> {
    const dataset: seq<S>
    const batchSize: nat
    const limit: Option<int>
    const dropLastBatch: bool
    const size: nat
    const batches: nat
    const totalYield: int
    var currentIndex: nat
    var totalYielded: nat

    ghost predicate Valid()
      reads this
    {
      && batchSize >= 1
      && size == |dataset|
      && batches == BatchCount(size, batchSize, dropLastBatch)
      && totalYield == TotalYield(size, batchSize, limit, dropLastBatch)
      && CursorOk(size, totalYield, currentIndex, totalYielded)
    }

    /** `__init__`: the batch count and the yield total, built up with `+=`. */
    constructor (dataloader: Dataloader<S>)
      requires dataloader.batchSize >= 1
      ensures Valid()
      ensures dataset == dataloader.dataset && batchSize == dataloader.batchSize
      ensures limit == dataloader.limit && dropLastBatch == dataloader.dropLastBatch
      ensures currentIndex == 0 && totalYielded == 0
    {
      var ds := dataloader.dataset;
      var bs := dataloader.batchSize;
      var n := |ds|;
      var nb := n / bs;
      var total := bs * nb;
      if !dataloader.dropLastBatch {
        nb := nb + (if n % bs != 0 then 1 else 0);
        total := total + n % bs;
      }
      if dataloader.limit.Some? {
        total := dataloader.limit.value;
      }
      dataset := ds;
      batchSize := bs;
      limit := dataloader.limit;
      dropLastBatch := dataloader.dropLastBatch;
      size := n;
      batches := nb;
      totalYield := total;
      currentIndex := 0;
      totalYielded := 0;
    }

    /** `__iter__`: both counters go back to zero, so the cursor is restartable. */
    method Reset()
      requires Valid()
      modifies this
      ensures Valid()
      ensures currentIndex == 0 && totalYielded == 0
    {
      currentIndex := 0;
      totalYielded := 0;
    }

    /** `__next__`: the next batch, or `None` for StopIteration. */
    method Next() returns (r: Option<seq<S>>)
      requires Valid()
      modifies this
      ensures Valid()
      ensures var a := NextBatch(dataset, batchSize, totalYield, old(currentIndex), old(totalYielded));
        && (a.None? ==> r.None? && currentIndex == old(currentIndex) && totalYielded == old(totalYielded))
        && (a.Some? ==> r == Some(a.value.batch) && currentIndex == a.value.index && totalYielded == a.value.yielded)
      ensures r.Some? ==> r.value == dataset[old(totalYielded)..totalYielded]
      ensures r.Some? ==> (r.value == [] <==> old(currentIndex) >= size)
      ensures r.Some? && r.value == [] ==> totalYielded == size < totalYield
    {
      if totalYielded < totalYield {
        NextBatchYieldsPrefix(dataset, batchSize, totalYield, currentIndex, totalYielded);
        var end := currentIndex + batchSize;
        var batch := Slice(dataset, currentIndex, end);
        if totalYielded + |batch| > totalYield {
          batch := batch[..totalYield - totalYielded];
        }
        currentIndex := end;
        totalYielded := totalYielded + |batch|;
        return Some(batch);
      }
      return None;
    }
  }

  /** `Dataloader.__iter__`: a fresh cursor over the loader, already reset. */
  method Iterate<S>(dataloader: Dataloader<S>) returns (it: DataloaderIter<S>)
    requires dataloader.batchSize >= 1
    ensures fresh(it) && it.Valid()
    ensures it.dataset == dataloader.dataset && it.batchSize == dataloader.batchSize
    ensures it.limit == dataloader.limit && it.dropLastBatch == dataloader.dropLastBatch
    ensures it.currentIndex == 0 && it.totalYielded == 0
  {
    it := new DataloaderIter(dataloader);
    it.Reset();
  }
}
