/** The error channel: services publish a five-field record on the error
    topic; the bus consumer turns each record into a message in the
    addressee's mailbox. KafkaTemplate is an oracle that either accepts a
    record onto the topic or throws. */
module ErrorEvents {
  import opened Common
  import opened Entities
  import opened Mailbox

  const DataKey := "data"
  const FlowIdKey := "flow_id"
  const UserIdKey := "user_id"
  const BladKey := "blad"
  const TimestampKey := "timestamp"

  /** A record on the bus: a `Map<String, Object>` whose values are strings
      or null. */
  type Payload = map<string, Option<string>>

  /** `map.get(key)` cast to String: null when the key is absent too. */
  function Field(p: Payload, key: string): Option<string>
  {
    if key in p then p[key] else None
  }

  /** The record `publish` builds. */
  function EventPayload(data: Option<string>, flowId: Option<string>, userId: Option<string>,
                        blad: Option<string>, timestamp: Timestamp): (p: Payload)
    ensures p.Keys == {DataKey, FlowIdKey, UserIdKey, BladKey, TimestampKey}
    ensures Field(p, DataKey) == data && Field(p, FlowIdKey) == flowId
    ensures Field(p, UserIdKey) == userId && Field(p, BladKey) == blad
    ensures Field(p, TimestampKey) == Some(timestamp)
  {
    map[DataKey := data, FlowIdKey := flowId, UserIdKey := userId, BladKey := blad,
        TimestampKey := Some(timestamp)]
  }

  datatype BusRecord = BusRecord(topic: string, payload: Payload)

  /** Whether the next `kafkaTemplate.send` throws; an empty script means
      the broker takes every record. */
  function NextSendThrows(script: seq<bool>): bool
  {
    script != [] && script[0]
  }

  function DropOne(script: seq<bool>): seq<bool>
  {
    if script == [] then [] else script[1..]
  }

  const PublishFailedLog := "Kafka publish failed"

  /** The bus after one publish of `p`: the record is on it unless the send
      throws. */
  function BusAfter(bus: seq<BusRecord>, sendThrows: seq<bool>, topic: string, p: Payload): (r: seq<BusRecord>)
    ensures NextSendThrows(sendThrows) ==> r == bus
    ensures !NextSendThrows(sendThrows) ==> r == bus + [BusRecord(topic, p)]
  {
    if NextSendThrows(sendThrows) then bus else bus + [BusRecord(topic, p)]
  }

  /** The log after one publish: one error line exactly when the send throws. */
  function LogAfter(log: seq<string>, sendThrows: seq<bool>): (r: seq<string>)
    ensures NextSendThrows(sendThrows) ==> r == log + [PublishFailedLog]
    ensures !NextSendThrows(sendThrows) ==> r == log
  {
    if NextSendThrows(sendThrows) then log + [PublishFailedLog] else log
  }

  class ErrorEventPublisher {
    const topic: string
    /** The outcome of each successive send: true when it throws. */
    var sendThrows: seq<bool>
    /** Records accepted onto the bus, oldest first. */
    var bus: seq<BusRecord>
    /** Error-level log lines. */
    var log: seq<string>

    constructor (topic: string, sendThrows: seq<bool>)
      ensures this.topic == topic && this.sendThrows == sendThrows && bus == [] && log == []
    {
      this.topic := topic;
      this.sendThrows := sendThrows;
      bus, log := [], [];
    }

    /** Builds the record and sends it to the topic; a failing send is only
        logged, so publishing never throws. `now` is the publish instant. */
    method Publish(data: Option<string>, flowId: Option<string>, userId: Option<string>,
                   blad: Option<string>, now: Timestamp)
      modifies this
      ensures sendThrows == DropOne(old(sendThrows))
      ensures bus == BusAfter(old(bus), old(sendThrows), topic, EventPayload(data, flowId, userId, blad, now))
      ensures log == LogAfter(old(log), old(sendThrows))
    {
      var payload: Payload := map[];
      payload := payload[DataKey := data];
      payload := payload[FlowIdKey := flowId];
      payload := payload[UserIdKey := userId];
      payload := payload[BladKey := blad];
      payload := payload[TimestampKey := Some(now)];
      var throws := NextSendThrows(sendThrows);
      sendThrows := DropOne(sendThrows);
      if throws {
        log := log + [PublishFailedLog];
      } else {
        bus := bus + [BusRecord(topic, payload)];
      }
    }
  }

  // ---------------------------------------------------------------------
  // Consumer
  // ---------------------------------------------------------------------

  const ErrorPrefix := "Błąd: "
  const UnknownError := "Nieznany błąd"

  /** The mailbox text for a record's `blad` and `flow_id`. */
  function FormatMessage(blad: Option<string>, flowId: Option<string>): (m: string)
    ensures blad.Some? ==> ErrorPrefix + blad.value <= m
    ensures blad.None? ==> ErrorPrefix + UnknownError <= m
    ensures flowId.None? ==> m == ErrorPrefix + (if blad.Some? then blad.value else UnknownError)
    ensures flowId.Some? ==>
              m == ErrorPrefix + (if blad.Some? then blad.value else UnknownError) +
                   " (Flow ID: " + flowId.value + ")"
  {
    var head := ErrorPrefix + (if blad.Some? then blad.value else UnknownError);
    if flowId.Some? then head + " (Flow ID: " + flowId.value + ")" else head
  }

  /** Two records with the same `blad` and different flow ids give
      different texts: the flow id can be read back from the message. */
  lemma FormatMessageKeepsFlowId(blad: Option<string>, x: string, y: string)
    requires FormatMessage(blad, Some(x)) == FormatMessage(blad, Some(y))
    ensures x == y
  {
    var head := ErrorPrefix + (if blad.Some? then blad.value else UnknownError) + " (Flow ID: ";
    var mx, my := FormatMessage(blad, Some(x)), FormatMessage(blad, Some(y));
    assert mx == head + x + ")" && my == head + y + ")";
    assert |x| == |y|;
    assert x == mx[|head|..|head| + |x|];
    assert y == my[|head|..|head| + |y|];
  }

  /** The mailbox call a record turns into. */
  function DeliveryOf(p: Payload): Delivery
  {
    Delivery(Field(p, UserIdKey), FormatMessage(Field(p, BladKey), Field(p, FlowIdKey)))
  }

  class KafkaErrorConsumer {
    const errorNotificationService: ErrorNotificationService

    constructor (errorNotificationService: ErrorNotificationService)
      ensures this.errorNotificationService == errorNotificationService
    {
      this.errorNotificationService := errorNotificationService;
    }

    /** One addError per record, keyed by its `user_id`. */
    method ConsumeError(errorMessage: Payload)
      modifies errorNotificationService
      ensures errorNotificationService.userErrors ==
                Enqueued(old(errorNotificationService.userErrors), Field(errorMessage, UserIdKey),
                         FormatMessage(Field(errorMessage, BladKey), Field(errorMessage, FlowIdKey)))
    {
      var blad := Field(errorMessage, BladKey);
      var flowId := Field(errorMessage, FlowIdKey);
      var userId := Field(errorMessage, UserIdKey);
      var message := ErrorPrefix + (if blad.Some? then blad.value else UnknownError);
      if flowId.Some? {
        message := message + " (Flow ID: " + flowId.value + ")";
      }
      errorNotificationService.AddError(userId, message);
    }
  }

  // ---------------------------------------------------------------------
  // End to end
  // ---------------------------------------------------------------------

  /** A published error reaches the mailbox of the user it names: when the
      send does not throw, the bus gains exactly the record, and consuming
      it appends the text made from `blad` and the flow id to that user's
      queue; the `data` field and the timestamp play no part. When the send
      throws, the bus is unchanged and no mailbox sees the error. */
  lemma PublishThenConsume(bus: seq<BusRecord>, sendThrows: seq<bool>, topic: string, m: Queues,
                           data: Option<string>, flowId: Option<string>, userId: string,
                           blad: Option<string>, now: Timestamp)
    ensures var after := BusAfter(bus, sendThrows, topic, EventPayload(data, flowId, Some(userId), blad, now));
            NextSendThrows(sendThrows) ==> after == bus
    ensures var after := BusAfter(bus, sendThrows, topic, EventPayload(data, flowId, Some(userId), blad, now));
            !NextSendThrows(sendThrows) ==>
              |after| == |bus| + 1 && after[..|bus|] == bus && after[|bus|].topic == topic &&
              var d := DeliveryOf(after[|bus|].payload);
              var r := Enqueued(m, d.user, d.message);
              Pending(r, userId) == Pending(m, userId) + [FormatMessage(blad, flowId)] &&
              forall u :: u != userId ==> Pending(r, u) == Pending(m, u)
  {
    var p := EventPayload(data, flowId, Some(userId), blad, now);
    if !NextSendThrows(sendThrows) {
      var after := BusAfter(bus, sendThrows, topic, p);
      assert after[|bus|] == BusRecord(topic, p);
      assert DeliveryOf(p) == Delivery(Some(userId), FormatMessage(blad, flowId));
    }
  }

  /** An error published without a user id reaches no mailbox. */
  lemma PublishWithoutUserIsDropped(m: Queues, data: Option<string>, flowId: Option<string>,
                                    blad: Option<string>, now: Timestamp)
    ensures var d := DeliveryOf(EventPayload(data, flowId, None, blad, now));
            Enqueued(m, d.user, d.message) == m
  {
  }

  /** Two records that differ only in `data` and `timestamp` produce the
      same mailbox call. */
  lemma DataAndTimestampIgnored(p: Payload, q: Payload)
    requires Field(p, UserIdKey) == Field(q, UserIdKey)
    requires Field(p, BladKey) == Field(q, BladKey)
    requires Field(p, FlowIdKey) == Field(q, FlowIdKey)
    ensures DeliveryOf(p) == DeliveryOf(q)
  {
  }
}
