/**
 * `Publish` (kafka.go:133-181): the synchronous error ladder, then one
 * asynchronous delivery job per target topic. A job's retrying write is an
 * input: only whether it finally succeeded matters here.
 */
module Publisher {
  import opened Common
  import opened Events

  /** `validatePublishEvent(builder, strict)` (not part of this model): None when the builder is acceptable. */
  type PublishValidator = (PublishBuilder, bool) -> Option<Error>

  /** What one spawned goroutine works with: its topic and the values it captured. */
  datatype Job = Job(topic: string, eventName: string, message: Message, event: Event, hasErrorCallback: bool)

  /** The outcome of `backoff.RetryNotify` around one topic's write. */
  datatype RetryResult = Delivered | GaveUp(err: Error)

  /** One call `errorCallback(event, err)`. */
  datatype ErrorCallbackCall = ErrorCallbackCall(event: Event, err: Error)

  /**
   * Returns the error Publish gives its caller and the jobs it spawned, in
   * the order of `builder.topic`. `id` and `timestamp` stand for
   * `generateID()` and the clock.
   */
  method Publish(strictValidation: bool, builder: Option<PublishBuilder>, validate: PublishValidator,
                 id: string, timestamp: string, marshal: Marshaller)
    returns (err: Option<Error>, jobs: seq<Job>)
    ensures builder.None? ==> err == Some(PubNilEvent) && jobs == []
    ensures builder.Some? && validate(builder.value, strictValidation).Some? ==>
      err == validate(builder.value, strictValidation) && jobs == []
    ensures builder.Some? && validate(builder.value, strictValidation).None? ==>
      var b, c := builder.value, ConstructEvent(builder.value, id, timestamp, marshal);
      if c.err.Some? then
        err == Some(ConstructFailed(b.eventName, c.err.value)) && jobs == []
      else
        && err == None
        && |jobs| == |b.topic|
        && forall i :: 0 <= i < |jobs| ==>
             jobs[i].topic == b.topic[i] && jobs[i].eventName == b.eventName
             && jobs[i].message == c.message && jobs[i].event == c.event
             && jobs[i].hasErrorCallback == b.hasErrorCallback
  {
    if builder.None? {
      return Some(PubNilEvent), [];
    }
    var b := builder.value;
    var invalid := validate(b, strictValidation);
    if invalid.Some? {
      return invalid, [];
    }
    var constructed := ConstructEvent(b, id, timestamp, marshal);
    if constructed.err.Some? {
      return Some(ConstructFailed(b.eventName, constructed.err.value)), [];
    }
    jobs := [];
    for i := 0 to |b.topic|
      invariant |jobs| == i
      invariant forall j :: 0 <= j < i ==>
        jobs[j] == Job(b.topic[j], b.eventName, constructed.message, constructed.event, b.hasErrorCallback)
    {
      jobs := jobs + [Job(b.topic[i], b.eventName, constructed.message, constructed.event, b.hasErrorCallback)];
    }
    err := None;
  }

  /**
   * The end of one job (kafka.go:164-176): the error callback is called, at
   * most once and with the job's event and the final error, exactly when the
   * retries gave up and a callback was supplied.
   */
  function CompleteJob(job: Job, result: RetryResult): (r: Option<ErrorCallbackCall>)
    ensures r.Some? <==> result.GaveUp? && job.hasErrorCallback
    ensures r.Some? ==> r.value.event == job.event && r.value.err == result.err
  {
    if result.GaveUp? && job.hasErrorCallback then Some(ErrorCallbackCall(job.event, result.err)) else None
  }

  /** The error callback calls of one finished job: none or one. */
  function JobCallbacks(job: Job, result: RetryResult): (r: seq<ErrorCallbackCall>)
    ensures |r| <= 1
  {
    match CompleteJob(job, result)
    case None => []
    case Some(call) => [call]
  }

  /** The error callbacks of a whole fan-out, job by job, given each job's retry result. */
  function FanOutCallbacks(jobs: seq<Job>, results: seq<RetryResult>): (r: seq<ErrorCallbackCall>)
    requires |jobs| == |results|
    decreases |jobs|
  {
    if jobs == [] then []
    else JobCallbacks(jobs[0], results[0]) + FanOutCallbacks(jobs[1..], results[1..])
  }

  /** The calls of two job lists run side by side are those of the first, then those of the second. */
  lemma {:induction false} FanOutAppend(jobs1: seq<Job>, results1: seq<RetryResult>,
                                        jobs2: seq<Job>, results2: seq<RetryResult>)
    requires |jobs1| == |results1| && |jobs2| == |results2|
    ensures FanOutCallbacks(jobs1 + jobs2, results1 + results2)
      == FanOutCallbacks(jobs1, results1) + FanOutCallbacks(jobs2, results2)
    decreases |jobs1|
  {
    if jobs1 == [] {
      assert jobs1 + jobs2 == jobs2 && results1 + results2 == results2;
    } else {
      FanOutAppend(jobs1[1..], results1[1..], jobs2, results2);
      assert (jobs1 + jobs2)[1..] == jobs1[1..] + jobs2;
      assert (results1 + results2)[1..] == results1[1..] + results2;
    }
  }

  /**
   * Jobs do not affect one another: the calls of a fan-out are those of the
   * jobs before job i, then job i's own (fixed by its own result alone), then
   * those of the jobs after it.
   */
  lemma FanOutSplitsPerJob(jobs: seq<Job>, results: seq<RetryResult>, i: nat)
    requires |jobs| == |results| && i < |jobs|
    ensures FanOutCallbacks(jobs, results)
      == FanOutCallbacks(jobs[..i], results[..i]) + JobCallbacks(jobs[i], results[i])
         + FanOutCallbacks(jobs[i + 1..], results[i + 1..])
  {
    var before, after := jobs[..i], jobs[i + 1..];
    var rBefore, rAfter := results[..i], results[i + 1..];
    assert jobs == before + ([jobs[i]] + after);
    assert results == rBefore + ([results[i]] + rAfter);
    FanOutAppend(before, rBefore, [jobs[i]] + after, [results[i]] + rAfter);
    assert ([jobs[i]] + after)[1..] == after;
    assert ([results[i]] + rAfter)[1..] == rAfter;
  }

  /** How many of the retry results gave up. */
  function GaveUpCount(results: seq<RetryResult>): (n: nat)
    decreases |results|
  {
    if results == [] then 0
    else (if results[0].GaveUp? then 1 else 0) + GaveUpCount(results[1..])
  }

  /**
   * With a callback on every job, there is one call per job that gave up, and
   * every call carries its job's event; when all jobs carry one event (as
   * those of one Publish do), that event is in every call.
   */
  lemma {:induction false} FanOutOneCallPerFailure(jobs: seq<Job>, results: seq<RetryResult>, event: Event)
    requires |jobs| == |results|
    requires forall i :: 0 <= i < |jobs| ==> jobs[i].hasErrorCallback && jobs[i].event == event
    ensures |FanOutCallbacks(jobs, results)| == GaveUpCount(results)
    ensures forall c :: c in FanOutCallbacks(jobs, results) ==> c.event == event
    decreases |jobs|
  {
    if jobs != [] {
      FanOutOneCallPerFailure(jobs[1..], results[1..], event);
      var head := JobCallbacks(jobs[0], results[0]);
      assert forall c :: c in head ==> c.event == event;
    }
  }
}
