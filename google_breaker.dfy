/**
 * Google's client-side adaptive throttle (the "Client-Side Throttling" rule
 * of the chapter "Handling Overload" in Google's SRE book). The breaker keeps
 * a rolling window of request and accept counts and, once requests exceed
 * K times the accepts by more than the protection floor, rejects a fraction
 * of new requests equal to the drop ratio.
 *
 * The random sampler is an argument `sample`: the answer `TrueOnProb` gives
 * for this call. A protected call, its classifier and its fallback are
 * values and functions; a Go panic is the `Panics` outcome of a `Call`.
 */
module Breaker {
  import opened Wrappers
  import opened Container

  /** The window spans 10 seconds in 40 buckets. */
  const BucketCount: nat := 40
  /** The acceptance ratio K = 1.5. */
  const K: real := 1.5
  /** Requests that are always let through before throttling may engage. */
  const Protection: int := 5

  /** Informational trip flag; never an input to the decision. */
  datatype State = Closed | Open

  /** Go `error` values that this model distinguishes. */
  datatype Err = ServiceUnavailable | Failed(message: string)

  /** The value a Go panic carries. */
  datatype Panic = Raised(value: string) | NilDereference

  /** The outcome of a Go call that may return normally or panic. */
  datatype Call<T> = Returns(value: T) | Panics(cause: Panic)

  /** `max(0, (requests - protection - K * accepts) / (requests + 1))`. */
  function DropRatio(requests: nat, accepts: nat): (r: real)
    ensures 0.0 <= r < 1.0
  {
    var weightedAccepts := K * accepts as real;
    var dropped := (requests - Protection) as real - weightedAccepts;
    var denominator := (requests + 1) as real;
    assert dropped < denominator;
    Max(0.0, dropped / denominator)
  }

  function Max(a: real, b: real): real {
    if a < b then b else a
  }

  /** The ratio is positive exactly when 2 * (requests - 5) > 3 * accepts. */
  lemma DropRatioPositive(requests: nat, accepts: nat)
    ensures DropRatio(requests, accepts) > 0.0 <==> 2 * (requests - Protection) > 3 * accepts
  {
  }

  /** Cold start: with at most `Protection` requests nothing is ever dropped. */
  lemma ColdStart(requests: nat, accepts: nat)
    requires requests <= Protection
    ensures DropRatio(requests, accepts) == 0.0
  {
    DropRatioPositive(requests, accepts);
  }

  /** 10 requests and 10 accepts: weighted accepts 15 cover everything. */
  lemma ExampleAllAccepted()
    ensures DropRatio(10, 10) == 0.0
  {
    DropRatioPositive(10, 10);
  }

  /** 1000 requests and no accepts: the ratio is 995/1001. */
  lemma ExampleNoneAccepted()
    ensures DropRatio(1000, 0) == 995.0 / 1001.0
  {
  }

  /**
   * The decision of `accept` on window totals `t` and the sampler's answer:
   * rejection with `ServiceUnavailable` exactly when the drop ratio is
   * positive and the sampler says true.
   */
  function Decide(t: Bucket, sample: bool): (r: Option<Err>)
    ensures r.Some? <==> 2 * (t.requests - Protection) > 3 * t.accepts && sample
    ensures r.Some? ==> r.value == ServiceUnavailable
  {
    DropRatioPositive(t.requests, t.accepts);
    if DropRatio(t.requests, t.accepts) <= 0.0 then None
    else if sample then Some(ServiceUnavailable)
    else None
  }

  /** The flag `accept` leaves behind: `Open` exactly when the ratio is positive. */
  function NextState(t: Bucket): (s: State)
    ensures s == Open <==> 2 * (t.requests - Protection) > 3 * t.accepts
  {
    DropRatioPositive(t.requests, t.accepts);
    if DropRatio(t.requests, t.accepts) <= 0.0 then Closed else Open
  }

  /** A window in which every request was accepted never throttles. */
  lemma AllAcceptedNeverThrottles(t: Bucket, sample: bool)
    requires t.accepts >= t.requests
    ensures Decide(t, sample) == None && NextState(t) == Closed
  {
  }

  /**
   * When every recorded request so far was a success, recording another
   * success (what `doReq` does when `acceptable` always says true) keeps the
   * breaker closed for the next decision.
   */
  lemma SuccessesKeepClosed(w: RollingWindow, sample: bool)
    requires w.Valid() && Total(w.buckets).accepts >= Total(w.buckets).requests
    ensures Total(w.Added(1)).accepts >= Total(w.Added(1)).requests
    ensures Decide(Total(w.Added(1)), sample) == None && NextState(Total(w.Added(1))) == Closed
  {
  }

  /**
   * What an admitted `doReq` returns: the request's own outcome, unless the
   * classifier panics on the request's error, in which case that panic.
   */
  function Admitted(acceptable: Option<Err> -> Call<bool>, req: Call<Option<Err>>): (r: Call<Option<Err>>)
    ensures req.Panics? ==> r == req
    ensures req.Returns? && acceptable(req.value).Returns? ==> r == req
    ensures req.Returns? && acceptable(req.value).Panics? ==> r == Panics(acceptable(req.value).cause)
    ensures r.Returns? ==> r == req
  {
    match req
    case Panics(p) => Panics(p)
    case Returns(e) =>
      match acceptable(e)
      case Panics(p) => Panics(p)
      case Returns(_) => Returns(e)
  }

  /** An admitted request is marked a success exactly when it returned and was acceptable. */
  predicate Succeeded(acceptable: Option<Err> -> Call<bool>, req: Call<Option<Err>>)
    ensures Succeeded(acceptable, req) ==> Admitted(acceptable, req) == req && req.Returns?
    ensures req.Panics? ==> !Succeeded(acceptable, req)
  {
    req.Returns? && acceptable(req.value) == Returns(true)
  }

  /** Whatever the classification says, a request that returns has its error passed back unchanged. */
  lemma AdmittedPassesErrorThrough(acceptable: Option<Err> -> Call<bool>, e: Option<Err>)
    requires acceptable(e).Returns?
    ensures Admitted(acceptable, Returns(e)) == Returns(e)
    ensures Succeeded(acceptable, Returns(e)) <==> acceptable(e).value
  {
  }

  /**
   * What a rejected `doReq` returns: the fallback's outcome, which may be a
   * panic, or the rejection itself.
   */
  function Fallback(fallback: Option<Err -> Call<Option<Err>>>, err: Err): (r: Call<Option<Err>>)
    ensures fallback.None? ==> r == Returns(Some(err))
    ensures fallback.Some? ==> r == fallback.value(err)
  {
    if fallback.Some? then fallback.value(err) else Returns(Some(err))
  }

  class GoogleBreaker {
    var state: State
    const stat: RollingWindow

    ghost predicate Valid()
      reads this, stat
    {
      stat.Valid()
    }

    /** A breaker over a fresh window of 40 buckets of 250 ms, initially `Closed`. */
    constructor ()
      ensures Valid() && fresh(stat)
      ensures state == Closed
      ensures |stat.buckets| == BucketCount && Total(stat.buckets) == Bucket(0, 0)
    {
      state := Closed;
      stat := new RollingWindow(BucketCount);
    }

    /** Sums requests and accepts over all buckets of the window. */
    method History() returns (requests: nat, accepts: nat)
      requires Valid()
      ensures Bucket(requests, accepts) == Total(stat.buckets)
    {
      requests, accepts := 0, 0;
      var i := 0;
      while i < |stat.buckets|
        invariant 0 <= i <= |stat.buckets|
        invariant Bucket(requests, accepts) == Total(stat.buckets[..i])
      {
        assert stat.buckets[..i + 1][..i] == stat.buckets[..i];
        requests := requests + stat.buckets[i].requests;
        accepts := accepts + stat.buckets[i].accepts;
        i := i + 1;
      }
      assert stat.buckets[..i] == stat.buckets;
    }

    /**
     * Admission decision. The result depends only on the window totals and
     * the sampler; the flag is updated to reflect the ratio but never read
     * for the decision. The window is not touched.
     */
    method Accept(sample: bool) returns (err: Option<Err>)
      requires Valid()
      modifies this
      ensures Valid()
      ensures state == NextState(Total(stat.buckets))
      ensures err == Decide(Total(stat.buckets), sample)
    {
      var requests, accepts := History();
      var dropRatio := DropRatio(requests, accepts);
      if dropRatio <= 0.0 {
        if state == Open {
          state := Closed;
        }
        return None;
      }
      if state == Closed {
        state := Open;
      }
      if sample {
        return Some(ServiceUnavailable);
      }
      return None;
    }

    /** Admits through a promise that the caller must settle, or rejects with no promise. */
    method Allow(sample: bool) returns (p: GooglePromise?, err: Option<Err>)
      requires Valid()
      modifies this
      ensures Valid()
      ensures state == NextState(Total(stat.buckets))
      ensures err == Decide(Total(stat.buckets), sample)
      ensures p == null <==> err.Some?
      ensures p != null ==> fresh(p) && p.breaker == this
    {
      err := Accept(sample);
      if err.Some? {
        return null, err;
      }
      p := new GooglePromise(this);
    }

    /**
     * Runs `req` under the breaker. On rejection `req` is not invoked and
     * nothing is recorded; on admission exactly one outcome is recorded,
     * a success only when `req` returned and `acceptable` said true, and a
     * panic in `req` or `acceptable` is recorded as a failure and propagated.
     * A panic of the fallback propagates with nothing recorded.
     */
    method DoReq(sample: bool, fallback: Option<Err -> Call<Option<Err>>>,
                 acceptable: Option<Err> -> Call<bool>, req: Call<Option<Err>>)
      returns (result: Call<Option<Err>>, invoked: bool)
      requires Valid()
      modifies this, stat
      ensures Valid() && stat.offset == old(stat.offset)
      ensures state == NextState(old(Total(stat.buckets)))
      ensures invoked <==> Decide(old(Total(stat.buckets)), sample) == None
      ensures !invoked ==> stat.buckets == old(stat.buckets)
      ensures !invoked ==> result == Fallback(fallback, ServiceUnavailable)
      ensures invoked ==> stat.buckets == old(stat.Added(if Succeeded(acceptable, req) then 1 else 0))
      ensures invoked ==> result == Admitted(acceptable, req)
    {
      var err := Accept(sample);
      if err.Some? {
        invoked := false;
        if fallback.Some? {
          // runs before the deferred recover exists: a panic here records nothing
          result := fallback.value(err.value);
        } else {
          result := Returns(err);
        }
        return;
      }
      invoked := true;
      match req {
        case Panics(p) =>
          // the deferred recover marks the failure, then re-panics
          MarkFailure();
          result := Panics(p);
        case Returns(e) =>
          match acceptable(e) {
            case Panics(p) =>
              MarkFailure();
              result := Panics(p);
            case Returns(ok) =>
              if ok {
                MarkSuccess();
              } else {
                MarkFailure();
              }
              result := Returns(e);
          }
      }
    }

    method MarkSuccess()
      requires Valid()
      modifies stat
      ensures Valid() && stat.offset == old(stat.offset)
      ensures stat.buckets == old(stat.Added(1))
    {
      stat.Add(1);
    }

    method MarkFailure()
      requires Valid()
      modifies stat
      ensures Valid() && stat.offset == old(stat.offset)
      ensures stat.buckets == old(stat.Added(0))
    {
      stat.Add(0);
    }
  }

  /** The handle `Allow` returns; settles one admitted request. */
  class GooglePromise {
    const breaker: GoogleBreaker

    constructor (b: GoogleBreaker)
      ensures breaker == b
    {
      breaker := b;
    }

    /** One more request and one more accept. */
    method Accept()
      requires breaker.Valid()
      modifies breaker.stat
      ensures breaker.Valid() && breaker.stat.offset == old(breaker.stat.offset)
      ensures breaker.stat.buckets == old(breaker.stat.Added(1))
    {
      breaker.MarkSuccess();
    }

    /** One more request and no more accepts. */
    method Reject()
      requires breaker.Valid()
      modifies breaker.stat
      ensures breaker.Valid() && breaker.stat.offset == old(breaker.stat.offset)
      ensures breaker.stat.buckets == old(breaker.stat.Added(0))
    {
      breaker.MarkFailure();
    }
  }
}
