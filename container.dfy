/**
 * The statistics containers the breaker relies on: the bucketed rolling
 * window that counts requests and accepts, and the error window that keeps
 * recent failure reasons for diagnostics. Time-based aging of the window is
 * not modelled: the window is a fixed ring of buckets with a current slot.
 */
module Container {

  /** One time slice of the rolling window. */
  datatype Bucket = Bucket(requests: nat, accepts: nat)

  function Plus(a: Bucket, b: Bucket): Bucket {
    Bucket(a.requests + b.requests, a.accepts + b.accepts)
  }

  /** The sum of every bucket: what a full `Reduce` over the window yields. */
  function Total(bs: seq<Bucket>): Bucket
    decreases |bs|
  {
    if bs == [] then Bucket(0, 0) else Plus(Total(bs[..|bs| - 1]), bs[|bs| - 1])
  }

  /** Replacing one bucket changes the totals by exactly the difference. */
  lemma {:induction false} TotalUpdate(bs: seq<Bucket>, i: nat, b: Bucket)
    requires i < |bs|
    ensures Total(bs[i := b]).requests + bs[i].requests == Total(bs).requests + b.requests
    ensures Total(bs[i := b]).accepts + bs[i].accepts == Total(bs).accepts + b.accepts
  {
    var last := |bs| - 1;
    if i == last {
      assert bs[i := b][..last] == bs[..last];
    } else {
      TotalUpdate(bs[..last], i, b);
      assert bs[i := b][..last] == bs[..last][i := b];
    }
  }

  /** A window in which nothing was ever recorded sums to zero. */
  lemma {:induction false} TotalOfEmptyBuckets(n: nat)
    ensures Total(seq(n, _ => Bucket(0, 0))) == Bucket(0, 0)
  {
    if n > 0 {
      TotalOfEmptyBuckets(n - 1);
      assert seq(n, _ => Bucket(0, 0))[..n - 1] == seq(n - 1, _ => Bucket(0, 0));
    }
  }

  /** A ring of buckets; `offset` is the current bucket that `Add` writes to. */
  class RollingWindow {
    var buckets: seq<Bucket>
    var offset: nat

    ghost predicate Valid()
      reads this
    {
      offset < |buckets|
    }

    constructor (size: nat)
      requires size > 0
      ensures Valid()
      ensures buckets == seq(size, _ => Bucket(0, 0)) && offset == 0
      ensures Total(buckets) == Bucket(0, 0)
    {
      buckets := seq(size, _ => Bucket(0, 0));
      offset := 0;
      TotalOfEmptyBuckets(size);
    }

    /**
     * The buckets after recording one request whose success weight is `v`:
     * the current bucket gains one request and `v` accepts, nothing else moves.
     */
    function Added(v: nat): (bs: seq<Bucket>)
      reads this
      requires Valid()
      ensures |bs| == |buckets|
      ensures bs[offset] == Bucket(buckets[offset].requests + 1, buckets[offset].accepts + v)
      ensures forall j :: 0 <= j < |bs| && j != offset ==> bs[j] == buckets[j]
      ensures Total(bs) == Bucket(Total(buckets).requests + 1, Total(buckets).accepts + v)
    {
      var b := Bucket(buckets[offset].requests + 1, buckets[offset].accepts + v);
      TotalUpdate(buckets, offset, b);
      buckets[offset := b]
    }

    /** Records one request with success weight `v` (1 for success, 0 for failure). */
    method Add(v: nat)
      requires Valid()
      modifies this
      ensures Valid() && offset == old(offset)
      ensures buckets == old(Added(v))
    {
      buckets := buckets[offset := Bucket(buckets[offset].requests + 1, buckets[offset].accepts + v)];
    }
  }

  /** Recent failure reasons, appended in order; eviction is not modelled. */
  class ErrorWindow {
    var entries: seq<string>

    constructor ()
      ensures entries == []
    {
      entries := [];
    }

    method Add(message: string)
      modifies this
      ensures entries == old(entries) + [message]
    {
      entries := entries + [message];
    }
  }
}
