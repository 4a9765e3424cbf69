/**
 * What a subscription's consume loop does with what it reads: the filter of
 * `processMessage` (kafka.go:334-350), the copy made by `runCallback`
 * (kafka.go:364-395), and a specification of the whole loop body of
 * `Register` (kafka.go:289-309) as a function of the sequence of read
 * outcomes it meets.
 */
module Consumer {
  import opened Common
  import opened Events

  /** `json.Unmarshal` into an `Event` (not part of this model). */
  type Decoder = seq<byte> -> Result<Event, Error>

  /** What one turn of the `for`/`select` loop meets. */
  datatype ReadOutcome =
    | CancelledAtCheck          // `ctx.Done()` was ready at the top of the turn
    | ReadError(err: Error)     // `ReadMessage` failed; also how a cancellation during the read appears, with ctx.Err()
    | Record(message: Message)  // `ReadMessage` returned a message

  /** One invocation `callback(ctx, event, err)`; None stands for nil. */
  datatype CallbackCall = CallbackCall(event: Option<Event>, err: Option<Error>)

  /** How the loop ended, or Running when the outcomes ran out first. */
  datatype LoopExit = Running | Cancelled | Failed(err: Error)

  datatype Trace = Trace(calls: seq<CallbackCall>, exit: LoopExit)

  /** The subscription's event-name filter lets an event named `eventName` through. */
  predicate Passes(filter: string, eventName: string)
  {
    filter == "" || filter == eventName
  }

  /** The callback receives a copy of the decoded event, field by field, and a nil error. */
  function RunCallback(e: Event): (r: CallbackCall)
    ensures r.event == Some(e) && r.err == None
  {
    CallbackCall(Some(Event(
      id := e.id,
      clientID := e.clientID,
      eventName := e.eventName,
      namespace := e.namespace,
      userID := e.userID,
      sessionID := e.sessionID,
      traceID := e.traceID,
      spanContext := e.spanContext,
      timestamp := e.timestamp,
      eventID := e.eventID,
      eventType := e.eventType,
      eventLevel := e.eventLevel,
      serviceName := e.serviceName,
      clientIDs := e.clientIDs,
      targetUserIDs := e.targetUserIDs,
      targetNamespace := e.targetNamespace,
      privacy := e.privacy,
      version := e.version,
      additionalFields := e.additionalFields,
      payload := e.payload)), None)
  }

  /**
   * The callback invocation one read message causes, if any: there is one
   * exactly when the message decodes and passes the filter.
   */
  function ProcessMessage(filter: string, message: Message, decode: Decoder): (r: Option<CallbackCall>)
    ensures r.Some? <==> decode(message.value).Ok? && Passes(filter, decode(message.value).value.eventName)
    ensures r.Some? ==> r.value == CallbackCall(Some(decode(message.value).value), None)
  {
    match decode(message.value)
    case Err(_) => None
    case Ok(event) =>
      if filter != "" && filter != event.eventName then None
      else Some(RunCallback(event))
  }

  predicate AllRecords(outcomes: seq<ReadOutcome>)
  {
    forall i :: 0 <= i < |outcomes| ==> outcomes[i].Record?
  }

  /** The index of the first outcome that ends the loop, or |outcomes| if none does. */
  function FirstTerminal(outcomes: seq<ReadOutcome>): (k: nat)
    ensures k <= |outcomes| && AllRecords(outcomes[..k])
    ensures k < |outcomes| ==> !outcomes[k].Record?
    decreases |outcomes|
  {
    if outcomes == [] || !outcomes[0].Record? then 0
    else
      var k := 1 + FirstTerminal(outcomes[1..]);
      assert forall i :: 1 <= i < k ==> outcomes[..k][i] == outcomes[1..][..k - 1][i - 1];
      k
  }

  /** FirstTerminal is the one index before which every outcome is a record and at which none is. */
  lemma FirstTerminalIs(outcomes: seq<ReadOutcome>, i: nat)
    requires i <= |outcomes| && AllRecords(outcomes[..i])
    requires i < |outcomes| ==> !outcomes[i].Record?
    ensures FirstTerminal(outcomes) == i
  {
  }

  /** The callback invocations caused by a run of read messages, in order. */
  function Deliveries(filter: string, records: seq<ReadOutcome>, decode: Decoder): (r: seq<CallbackCall>)
    requires AllRecords(records)
    ensures |r| <= |records|
    ensures forall c :: c in r ==> c.event.Some? && c.err == None && Passes(filter, c.event.value.eventName)
    decreases |records|
  {
    if records == [] then []
    else
      var front := records[..|records| - 1];
      assert AllRecords(front) by {
        assert forall i :: 0 <= i < |front| ==> front[i] == records[i];
      }
      Deliveries(filter, front, decode) + LastCalls(filter, records[|records| - 1], decode)
  }

  /**
   * The loop's behaviour on a sequence of outcomes: every message before the
   * first terminating outcome is processed; at a cancellation the callback is
   * called once more with a nil event and the context's error `ctxErr`; at a
   * read error the loop stops without calling it.
   */
  function Consume(filter: string, outcomes: seq<ReadOutcome>, decode: Decoder, ctxErr: Error): (t: Trace)
    ensures t.exit == Running <==> AllRecords(outcomes)
    ensures t.exit != Running ==> FirstTerminal(outcomes) < |outcomes|
    ensures |t.calls| <= (if t.exit == Running then |outcomes| else FirstTerminal(outcomes) + 1)
  {
    var k := FirstTerminal(outcomes);
    var delivered := Deliveries(filter, outcomes[..k], decode);
    if k == |outcomes| then Trace(delivered, Running)
    else if outcomes[k].CancelledAtCheck? then
      Trace(delivered + [CallbackCall(None, Some(ctxErr))], Cancelled)
    else Trace(delivered, Failed(outcomes[k].err))
  }

  /** The calls caused by the last record of a run. */
  function LastCalls(filter: string, record: ReadOutcome, decode: Decoder): (r: seq<CallbackCall>)
    requires record.Record?
  {
    match ProcessMessage(filter, record.message, decode)
    case None => []
    case Some(call) => [call]
  }

  /** A run of records is its front followed by its last record. */
  lemma DeliveriesUnfold(filter: string, records: seq<ReadOutcome>, decode: Decoder)
    requires AllRecords(records) && records != []
    ensures AllRecords(records[..|records| - 1])
    ensures Deliveries(filter, records, decode)
      == Deliveries(filter, records[..|records| - 1], decode) + LastCalls(filter, records[|records| - 1], decode)
  {
  }

  predicate DecodesSomewhere(records: seq<ReadOutcome>, decode: Decoder, e: Event)
    requires AllRecords(records)
  {
    exists j :: 0 <= j < |records| && decode(records[j].message.value) == Ok(e)
  }

  /** Some record of the run decodes to `e` exactly when one of its front does or its last one does. */
  lemma DecodesSomewhereUnfold(records: seq<ReadOutcome>, decode: Decoder, e: Event)
    requires AllRecords(records) && records != [] && AllRecords(records[..|records| - 1])
    ensures DecodesSomewhere(records, decode, e) <==>
      DecodesSomewhere(records[..|records| - 1], decode, e)
      || decode(records[|records| - 1].message.value) == Ok(e)
  {
  }

  /** A message is delivered exactly when some record of the run decodes to it and it passes the filter. */
  lemma {:induction false} DeliveredIff(filter: string, records: seq<ReadOutcome>, decode: Decoder, e: Event)
    requires AllRecords(records)
    ensures CallbackCall(Some(e), None) in Deliveries(filter, records, decode) <==>
      Passes(filter, e.eventName) && DecodesSomewhere(records, decode, e)
    decreases |records|
  {
    if records != [] {
      var n := |records| - 1;
      DeliveriesUnfold(filter, records, decode);
      DecodesSomewhereUnfold(records, decode, e);
      DeliveredIff(filter, records[..n], decode, e);
    }
  }

  /**
   * Cancellation is reported exactly once, as the last invocation, with a
   * nil event and the context's error; every other invocation delivers an
   * event with a nil error, so a read error never reaches the callback.
   */
  lemma CancellationReportedOnce(filter: string, outcomes: seq<ReadOutcome>, decode: Decoder, ctxErr: Error)
    ensures var t := Consume(filter, outcomes, decode, ctxErr);
      && (t.exit == Cancelled ==>
            |t.calls| > 0 && t.calls[|t.calls| - 1] == CallbackCall(None, Some(ctxErr)))
      && (forall i :: 0 <= i < |t.calls| && !(t.exit == Cancelled && i == |t.calls| - 1) ==>
            t.calls[i].event.Some? && t.calls[i].err == None)
      && (t.exit == Cancelled <==> exists i :: 0 <= i < |t.calls| && t.calls[i].event.None?)
  {
  }

  /** Every invocation that carries an event carries one that passed the filter. */
  lemma CallbacksPassFilter(filter: string, outcomes: seq<ReadOutcome>, decode: Decoder, ctxErr: Error)
    ensures var t := Consume(filter, outcomes, decode, ctxErr);
      forall c :: c in t.calls && c.event.Some? ==> Passes(filter, c.event.value.eventName)
  {
  }

  lemma {:induction false} FirstTerminalOfExtension(outcomes: seq<ReadOutcome>, rest: seq<ReadOutcome>)
    requires FirstTerminal(outcomes) < |outcomes|
    ensures FirstTerminal(outcomes + rest) == FirstTerminal(outcomes)
    decreases |outcomes|
  {
    if outcomes[0].Record? {
      assert (outcomes + rest)[1..] == outcomes[1..] + rest;
      FirstTerminalOfExtension(outcomes[1..], rest);
    }
  }

  /** Once the loop has stopped, nothing it could have read afterwards matters. */
  lemma NothingAfterTermination(filter: string, outcomes: seq<ReadOutcome>, rest: seq<ReadOutcome>,
                                decode: Decoder, ctxErr: Error)
    requires Consume(filter, outcomes, decode, ctxErr).exit != Running
    ensures Consume(filter, outcomes + rest, decode, ctxErr) == Consume(filter, outcomes, decode, ctxErr)
  {
    var k := FirstTerminal(outcomes);
    FirstTerminalOfExtension(outcomes, rest);
    assert (outcomes + rest)[..k] == outcomes[..k];
    assert (outcomes + rest)[k] == outcomes[k];
  }

  /**
   * A cancellation that arrives while `ReadMessage` blocks ends the read
   * with the context's error: the loop then exits as on any read error, and
   * the callback is not told of the cancellation.
   */
  lemma CancelledDuringRead(filter: string, records: seq<ReadOutcome>, decode: Decoder, ctxErr: Error)
    requires AllRecords(records)
    ensures Consume(filter, records + [ReadError(ctxErr)], decode, ctxErr)
      == Trace(Deliveries(filter, records, decode), Failed(ctxErr))
  {
  }

  /** With an empty filter every message that decodes is delivered, whatever its name. */
  lemma EmptyFilterDeliversEveryDecoded(records: seq<ReadOutcome>, decode: Decoder, j: nat)
    requires AllRecords(records) && j < |records| && decode(records[j].message.value).Ok?
    ensures CallbackCall(Some(decode(records[j].message.value).value), None) in Deliveries("", records, decode)
  {
    DeliveredIff("", records, decode, decode(records[j].message.value).value);
  }
}
