/**
 * The parts of `KafkaClient` that change state: the subscriber registry
 * (`registerSubscriber`, kafka.go:314-332, and `unregister`, kafka.go:244-247),
 * `Register` (kafka.go:249-312) and the goroutine it starts, run here as a
 * sequential walk over the read outcomes the subscription meets.
 */
module Client {
  import opened Common
  import opened Events
  import opened Consumer

  /**
   * A subscription request. The registry is keyed by the builder object
   * itself, so two builders with equal fields are two entries.
   */
  class SubscribeBuilder {
    const topic: string
    const eventName: string
    const groupID: string

    constructor (topic: string, eventName: string, groupID: string)
      ensures this.topic == topic && this.eventName == eventName && this.groupID == groupID
    {
      this.topic, this.eventName, this.groupID := topic, eventName, groupID;
    }
  }

  /** `validateSubscribeEvent` (not part of this model): None when the builder is acceptable. */
  type SubscribeValidator = SubscribeBuilder -> Option<Error>

  predicate SameSubscription(s: SubscribeBuilder, b: SubscribeBuilder)
  {
    s.topic == b.topic && s.eventName == b.eventName
  }

  /**
   * The dedup rule: `b` is turned away when it has no group id and some
   * entry has its topic and event name.
   */
  predicate IsDuplicate(subscribers: set<SubscribeBuilder>, b: SubscribeBuilder)
    ensures IsDuplicate(subscribers, b) ==> b.groupID == ""
    ensures b.groupID == "" ==> (IsDuplicate(subscribers, b) <==> exists s :: s in subscribers && SameSubscription(s, b))
  {
    b.groupID == "" && exists s :: s in subscribers && SameSubscription(s, b)
  }

  /** A request with a group id is never a duplicate, even of an entry equal to it in every field. */
  lemma GroupedNeverDuplicate(subscribers: set<SubscribeBuilder>, b: SubscribeBuilder)
    requires b.groupID != ""
    ensures !IsDuplicate(subscribers, b)
  {
  }

  class KafkaClient {
    /** The keys of the `subscribers` map. */
    var subscribers: set<SubscribeBuilder>

    constructor ()
      ensures subscribers == {}
    {
      subscribers := {};
    }

    /**
     * Scans the entries and, unless `b` is a duplicate, adds it; the error
     * result is always nil.
     */
    method RegisterSubscriber(b: SubscribeBuilder) returns (isRegistered: bool, err: Option<Error>)
      modifies this
      ensures err == None
      ensures isRegistered == IsDuplicate(old(subscribers), b)
      ensures subscribers == if isRegistered then old(subscribers) else old(subscribers) + {b}
    {
      var unvisited := subscribers;
      while unvisited != {}
        invariant unvisited <= subscribers
        invariant subscribers == old(subscribers)
        invariant forall s :: s in subscribers && s !in unvisited ==> !(SameSubscription(s, b) && b.groupID == "")
        decreases unvisited
      {
        var s :| s in unvisited;
        if s.topic == b.topic && s.eventName == b.eventName {
          if b.groupID == "" {
            return true, None;
          }
        }
        unvisited := unvisited - {s};
      }
      subscribers := subscribers + {b};
      return false, None;
    }

    /** Removes exactly `b`; nothing happens when it is absent. */
    method Unregister(b: SubscribeBuilder)
      modifies this
      ensures subscribers == old(subscribers) - {b}
    {
      subscribers := subscribers - {b};
    }

    /**
     * The goroutine of `Register`: walks the outcomes the way the
     * `for`/`select` loop meets them, and unregisters `b` on either exit.
     * `consumed` is how many outcomes were looked at; `ctxErr` is
     * `ctx.Err()` once the context is done.
     */
    method ConsumeLoop(b: SubscribeBuilder, outcomes: seq<ReadOutcome>, decode: Decoder, ctxErr: Error)
      returns (trace: Trace, consumed: nat)
      modifies this
      ensures trace == Consume(b.eventName, outcomes, decode, ctxErr)
      ensures consumed == if trace.exit == Running then |outcomes| else FirstTerminal(outcomes) + 1
      ensures subscribers == if trace.exit == Running then old(subscribers) else old(subscribers) - {b}
    {
      var calls: seq<CallbackCall> := [];
      var i := 0;
      while i < |outcomes|
        invariant 0 <= i <= |outcomes|
        invariant AllRecords(outcomes[..i])
        invariant calls == Deliveries(b.eventName, outcomes[..i], decode)
        invariant subscribers == old(subscribers)
      {
        match outcomes[i]
        case CancelledAtCheck =>
          FirstTerminalIs(outcomes, i);
          calls := calls + [CallbackCall(None, Some(ctxErr))];
          Unregister(b);
          return Trace(calls, Cancelled), i + 1;
        case ReadError(e) =>
          FirstTerminalIs(outcomes, i);
          Unregister(b);
          return Trace(calls, Failed(e)), i + 1;
        case Record(message) =>
          assert outcomes[..i + 1][..i] == outcomes[..i];
          assert AllRecords(outcomes[..i + 1]) by {
            assert forall j :: 0 <= j < i ==> outcomes[..i + 1][j] == outcomes[..i][j];
          }
          var delivered := ProcessMessage(b.eventName, message, decode);
          if delivered.Some? {
            calls := calls + [delivered.value];
          }
          i := i + 1;
      }
      assert outcomes[..i] == outcomes;
      FirstTerminalIs(outcomes, i);
      return Trace(calls, Running), |outcomes|;
    }

    /**
     * `Register` followed by its goroutine. `loop` is None when no goroutine
     * was started, and otherwise what the goroutine did over `outcomes`.
     */
    method Register(b: SubscribeBuilder?, validate: SubscribeValidator,
                    outcomes: seq<ReadOutcome>, decode: Decoder, ctxErr: Error)
      returns (err: Option<Error>, loop: Option<Trace>)
      modifies this
      ensures b == null ==> err == Some(SubNilEvent) && loop == None && subscribers == old(subscribers)
      ensures b != null && validate(b).Some? ==>
        err == validate(b) && loop == None && subscribers == old(subscribers)
      ensures b != null && validate(b).None? && IsDuplicate(old(subscribers), b) ==>
        err == Some(AlreadyRegistered(b.topic, b.eventName)) && loop == None && subscribers == old(subscribers)
      ensures b != null && validate(b).None? && !IsDuplicate(old(subscribers), b) ==>
        && err == None
        && loop == Some(Consume(b.eventName, outcomes, decode, ctxErr))
        && subscribers == if loop.value.exit == Running then old(subscribers) + {b}
                          else old(subscribers) - {b}
    {
      if b == null {
        return Some(SubNilEvent), None;
      }
      var invalid := validate(b);
      if invalid.Some? {
        return invalid, None;
      }
      var isRegistered, registerErr := RegisterSubscriber(b);
      if registerErr.Some? {
        return registerErr, None;
      }
      if isRegistered {
        return Some(AlreadyRegistered(b.topic, b.eventName)), None;
      }
      var trace, _ := ConsumeLoop(b, outcomes, decode, ctxErr);
      return None, Some(trace);
    }
  }

  /**
   * Two requests for the same topic and event name, both without a group
   * id: the second is turned away and the registry holds one entry.
   */
  method AnonymousDuplicateRejected() returns (first: bool, second: bool, entries: nat)
    ensures !first && second && entries == 1
  {
    var client := new KafkaClient();
    var b1 := new SubscribeBuilder("orders", "created", "");
    var b2 := new SubscribeBuilder("orders", "created", "");
    var err;
    first, err := client.RegisterSubscriber(b1);
    second, err := client.RegisterSubscriber(b2);
    entries := |client.subscribers|;
  }

  /**
   * Two requests for the same topic and event name with the same non-empty
   * group id: both are admitted as separate entries.
   */
  method GroupedDuplicatesKept() returns (first: bool, second: bool, entries: nat)
    ensures !first && !second && entries == 2
  {
    var client := new KafkaClient();
    var b1 := new SubscribeBuilder("orders", "created", "billing");
    var b2 := new SubscribeBuilder("orders", "created", "billing");
    var err;
    first, err := client.RegisterSubscriber(b1);
    second, err := client.RegisterSubscriber(b2);
    entries := |client.subscribers|;
  }
}
