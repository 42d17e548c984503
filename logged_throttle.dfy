/**
 * The diagnostic decorator around a breaker: it records why requests failed
 * in an error window and emits one report each time the breaker answers
 * `ServiceUnavailable`. The report sink is an object given to the
 * constructor; a report holds the throttle's name and the error window's
 * entries at the time of the report.
 */
module Throttle {
  import opened Wrappers
  import opened Container
  import opened Breaker

  /** The message text of the rejection sentinel. */
  const ServiceUnavailableText: string := "circuit breaker is open"

  /** `err.Error()`. */
  function ErrorText(e: Err): (text: string)
    ensures e.Failed? ==> text == e.message
    ensures e == ServiceUnavailable ==> text == ServiceUnavailableText
  {
    match e
    case ServiceUnavailable => ServiceUnavailableText
    case Failed(message) => message
  }

  /** What one call of the reporting sink carries. */
  datatype Report = Report(caller: string, recentErrors: seq<string>)

  class ReportSink {
    var reports: seq<Report>

    constructor ()
      ensures reports == []
    {
      reports := [];
    }

    method Emit(r: Report)
      modifies this
      ensures reports == old(reports) + [r]
    {
      reports := reports + [r];
    }
  }

  /**
   * The classifier `doReq` passes to the inner breaker in place of the
   * caller's `acceptable`. It answers as `acceptable` does; when that answer
   * is "not acceptable" it reads the error's text, which for a nil error is
   * a nil dereference.
   */
  function Recording(acceptable: Option<Err> -> Call<bool>): (r: Option<Err> -> Call<bool>)
    ensures forall e: Option<Err> :: e.Some? ==> r(e) == acceptable(e)
    ensures forall e: Option<Err> :: acceptable(e) != Returns(false) ==> r(e) == acceptable(e)
    ensures forall e: Option<Err> :: e.None? && acceptable(e) == Returns(false) ==> r(e) == Panics(NilDereference)
  {
    e => if acceptable(e) == Returns(false) && e.None? then Panics(NilDereference) else acceptable(e)
  }

  /** The wrapper appends to the error window exactly in this situation. */
  predicate Records(acceptable: Option<Err> -> Call<bool>, req: Call<Option<Err>>) {
    req.Returns? && req.value.Some? && acceptable(req.value) == Returns(false)
  }

  /** The wrapper never changes which admitted requests count as successes. */
  lemma RecordingKeepsSuccess(acceptable: Option<Err> -> Call<bool>, req: Call<Option<Err>>)
    ensures Succeeded(Recording(acceptable), req) <==> Succeeded(acceptable, req)
  {
  }

  /** A promise of the decorated throttle: the inner promise (nil on rejection) and the error window. */
  class PromiseWithReason {
    const promise: GooglePromise?
    const errWin: ErrorWindow

    constructor (promise: GooglePromise?, errWin: ErrorWindow)
      ensures this.promise == promise && this.errWin == errWin
    {
      this.promise := promise;
      this.errWin := errWin;
    }

    /** Forwards to the inner promise; on a nil inner promise the call panics. */
    method Accept() returns (c: Call<()>)
      requires promise != null ==> promise.breaker.Valid()
      modifies if promise != null then {promise.breaker.stat} else {}
      ensures promise == null ==> c == Panics(NilDereference)
      ensures promise != null ==> c == Returns(()) && promise.breaker.Valid()
      ensures promise != null ==> promise.breaker.stat.buckets == old(promise.breaker.stat.Added(1))
      ensures promise != null ==> promise.breaker.stat.offset == old(promise.breaker.stat.offset)
      ensures errWin.entries == old(errWin.entries)
    {
      if promise == null {
        return Panics(NilDereference);
      }
      promise.Accept();
      c := Returns(());
    }

    /** Records `reason`, then forwards once to the inner promise's `Reject`. */
    method Reject(reason: string) returns (c: Call<()>)
      requires promise != null ==> promise.breaker.Valid()
      modifies errWin, if promise != null then {promise.breaker.stat} else {}
      ensures errWin.entries == old(errWin.entries) + [reason]
      ensures promise == null ==> c == Panics(NilDereference)
      ensures promise != null ==> c == Returns(()) && promise.breaker.Valid()
      ensures promise != null ==> promise.breaker.stat.buckets == old(promise.breaker.stat.Added(0))
      ensures promise != null ==> promise.breaker.stat.offset == old(promise.breaker.stat.offset)
    {
      errWin.Add(reason);
      if promise == null {
        return Panics(NilDereference);
      }
      promise.Reject();
      c := Returns(());
    }
  }

  class LoggedThrottle {
    const name: string
    const inner: GoogleBreaker
    const errWin: ErrorWindow
    const sink: ReportSink

    ghost predicate Valid()
      reads this, inner, inner.stat
    {
      inner.Valid()
    }

    constructor (name: string, t: GoogleBreaker, sink: ReportSink)
      requires t.Valid()
      ensures Valid() && fresh(errWin)
      ensures this.name == name && inner == t && this.sink == sink
      ensures errWin.entries == []
    {
      this.name := name;
      inner := t;
      errWin := new ErrorWindow();
      this.sink := sink;
    }

    /** Passes `err` through, reporting once when it is the rejection sentinel. */
    method LogError(err: Option<Err>) returns (r: Option<Err>)
      modifies sink
      ensures r == err
      ensures sink.reports == old(sink.reports)
        + (if err == Some(ServiceUnavailable) then [Report(name, errWin.entries)] else [])
    {
      if err == Some(ServiceUnavailable) {
        sink.Emit(Report(name, errWin.entries));
      }
      return err;
    }

    /** Always returns a wrapped promise, around a nil one on rejection, with the inner error. */
    method Allow(sample: bool) returns (p: PromiseWithReason, err: Option<Err>)
      requires Valid()
      modifies inner, sink
      ensures Valid()
      ensures inner.state == NextState(Total(inner.stat.buckets))
      ensures err == Decide(Total(inner.stat.buckets), sample)
      ensures fresh(p) && p.errWin == errWin
      ensures p.promise == null <==> err.Some?
      ensures p.promise != null ==> p.promise.breaker == inner
      ensures sink.reports == old(sink.reports)
        + (if err.Some? then [Report(name, errWin.entries)] else [])
    {
      var promise;
      promise, err := inner.Allow(sample);
      p := new PromiseWithReason(promise, errWin);
      err := LogError(err);
    }

    /**
     * Runs `req` through the inner breaker with the recording classifier
     * and returns what the inner `DoReq` returns, reporting once when that
     * is the rejection sentinel. A panic, the fallback's included, skips the
     * report.
     */
    method DoReq(sample: bool, fallback: Option<Err -> Call<Option<Err>>>,
                 acceptable: Option<Err> -> Call<bool>, req: Call<Option<Err>>)
      returns (result: Call<Option<Err>>, invoked: bool)
      requires Valid()
      modifies inner, inner.stat, errWin, sink
      ensures Valid() && inner.stat.offset == old(inner.stat.offset)
      ensures inner.state == NextState(old(Total(inner.stat.buckets)))
      ensures invoked <==> Decide(old(Total(inner.stat.buckets)), sample) == None
      ensures !invoked ==> inner.stat.buckets == old(inner.stat.buckets)
      ensures !invoked ==> result == Fallback(fallback, ServiceUnavailable)
      ensures invoked ==> inner.stat.buckets == old(inner.stat.Added(if Succeeded(acceptable, req) then 1 else 0))
      ensures invoked ==> result == Admitted(Recording(acceptable), req)
      ensures errWin.entries == old(errWin.entries)
        + (if invoked && Records(acceptable, req) then [ErrorText(req.value.value)] else [])
      ensures sink.reports == old(sink.reports)
        + (if result == Returns(Some(ServiceUnavailable)) then [Report(name, errWin.entries)] else [])
    {
      RecordingKeepsSuccess(acceptable, req);
      result, invoked := inner.DoReq(sample, fallback, Recording(acceptable), req);
      if invoked && Records(acceptable, req) {
        errWin.Add(ErrorText(req.value.value));
      }
      if result.Returns? {
        var logged := LogError(result.value);
        result := Returns(logged);
      }
    }
  }
}
