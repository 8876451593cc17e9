/**
 * The events gateway's request-to-event logic (src/microservices/events/app.py).
 *
 * Each POST handler checks that the JSON body carries the kind's required
 * fields, builds an event record whose id is derived from two of them, sends
 * it to the kind's topic and turns the broker's answer into an HTTP status and
 * body. The three handlers differ only in their tables, so they are modelled
 * as one handler `Handle` over `Kind`. The broker is not modelled: its answer
 * to the one send a handler makes is a parameter, and the handler's outcome
 * records which send (if any) it made.
 */
module Events {
  import opened Wrappers

  /** The three event kinds, one per POST endpoint. */
  datatype Kind = User | Movie | Payment

  /** A decoded JSON object: field name to field value, values already as text. */
  type Payload = map<string, string>

  /** The kind's name: the `type` of its events and its key in the topic table. */
  function KindName(k: Kind): (name: string)
    ensures |name| > 0
  {
    match k
    case User => "user"
    case Movie => "movie"
    case Payment => "payment"
  }

  /** Reads a kind back from its name; the inverse of `KindName`. */
  function ParseKind(name: string): (k: Option<Kind>)
    ensures k.Some? <==> name in Topics
    ensures k.Some? ==> KindName(k.value) == name
  {
    if name == "user" then Some(User)
    else if name == "movie" then Some(Movie)
    else if name == "payment" then Some(Payment)
    else None
  }

  /** The static kind-to-topic table of the gateway. */
  const Topics: map<string, string> :=
    map["movie" := "movie-events", "user" := "user-events", "payment" := "payment-events"]

  /** The topic the events of kind `k` are published to: the table entry under the kind's name. */
  function TopicFor(k: Kind): (topic: string)
    ensures KindName(k) in Topics
    ensures k == User ==> topic == "user-events"
    ensures k == Movie ==> topic == "movie-events"
    ensures k == Payment ==> topic == "payment-events"
  {
    Topics[KindName(k)]
  }

  /** The fields a request of kind `k` must carry, in the order its error message lists them. */
  function RequiredFields(k: Kind): (fields: seq<string>)
    ensures |fields| >= 2
  {
    match k
    case User => ["user_id", "action"]
    case Movie => ["movie_id", "title", "action"]
    case Payment => ["payment_id", "status"]
  }

  /** The two fields the event id is built from: the subject's key and the verb. */
  function IdFields(k: Kind): (fields: (string, string))
    ensures fields.0 in RequiredFields(k) && fields.1 in RequiredFields(k)
    ensures fields.0 != fields.1
  {
    match k
    case User => ("user_id", "action")
    case Movie => ("movie_id", "action")
    case Payment => ("payment_id", "status")
  }

  /** The body of the 400 answer of each handler. */
  function MissingFieldsMessage(k: Kind): string
  {
    MissingFieldsPrefix +
    match k
    case User => "user_id, action"
    case Movie => "movie_id, title, action"
    case Payment => "payment_id, status"
  }

  const MissingFieldsPrefix := "Missing required fields: "

  /** The strings of `parts`, separated by `sep`. */
  function Join(parts: seq<string>, sep: string): string
  {
    if |parts| == 0 then ""
    else if |parts| == 1 then parts[0]
    else parts[0] + sep + Join(parts[1..], sep)
  }

  /** The 400 message names every required field of the kind, in order. */
  lemma MissingFieldsMessageNamesRequiredFields(k: Kind)
    ensures MissingFieldsMessage(k) == MissingFieldsPrefix + Join(RequiredFields(k), ", ")
  {
    match k
    case User =>
      assert Join(RequiredFields(k), ", ") == "user_id, action";
    case Movie =>
      assert RequiredFields(k)[1..] == ["title", "action"];
      assert Join(["title", "action"], ", ") == "title, action";
      assert Join(RequiredFields(k), ", ") == "movie_id, title, action";
    case Payment =>
      assert Join(RequiredFields(k), ", ") == "payment_id, status";
  }

  /**
   * The handlers' guard, written as the source writes it: a body that is
   * present and not empty, holding each required field by name.
   */
  predicate Accepts(k: Kind, body: Option<Payload>)
  {
    && body.Some?
    && body.value != map[]
    && match k
       case User => "user_id" in body.value && "action" in body.value
       case Movie => "movie_id" in body.value && "title" in body.value && "action" in body.value
       case Payment => "payment_id" in body.value && "status" in body.value
  }

  /**
   * The guard is a presence check of the required fields and nothing more:
   * its test for an empty body is implied by the presence checks.
   */
  lemma AcceptsIffRequiredFieldsPresent(k: Kind, body: Option<Payload>)
    ensures Accepts(k, body) <==>
      body.Some? && forall f :: f in RequiredFields(k) ==> f in body.value
  {
    if body.Some? && forall f :: f in RequiredFields(k) ==> f in body.value {
      match k
      case User => assert "user_id" in RequiredFields(k) && "action" in RequiredFields(k);
      case Movie =>
        assert "movie_id" in RequiredFields(k) && "title" in RequiredFields(k) && "action" in RequiredFields(k);
      case Payment => assert "payment_id" in RequiredFields(k) && "status" in RequiredFields(k);
    }
  }

  /** The event id, one f-string per kind as in the source. */
  function EventId(k: Kind, data: Payload): (id: string)
    requires Accepts(k, Some(data))
    ensures id == KindName(k) + "-" + data[IdFields(k).0] + "-" + data[IdFields(k).1]
  {
    match k
    case User => "user-" + data["user_id"] + "-" + data["action"]
    case Movie => "movie-" + data["movie_id"] + "-" + data["action"]
    case Payment => "payment-" + data["payment_id"] + "-" + data["status"]
  }

  /** The event record a handler publishes and echoes. */
  datatype Event = Event(id: string, eventType: string, timestamp: Option<string>, payload: Payload)

  /** Builds the event for an accepted body: id, type, the caller's timestamp if any, the body itself. */
  function BuildEvent(k: Kind, data: Payload): (e: Event)
    requires Accepts(k, Some(data))
    ensures WellFormed(e)
    ensures ParseKind(e.eventType) == Some(k)
    ensures e.payload == data
  {
    Event(EventId(k, data), KindName(k), Get(data, "timestamp"), data)
  }

  /**
   * An event that is consistent with itself: its type names a kind whose
   * required fields its payload holds, and its id and timestamp are the ones
   * that payload determines.
   */
  predicate WellFormed(e: Event)
  {
    && ParseKind(e.eventType).Some?
    && Accepts(ParseKind(e.eventType).value, Some(e.payload))
    && e.id == EventId(ParseKind(e.eventType).value, e.payload)
    && e.timestamp == Get(e.payload, "timestamp")
  }

  /** A well-formed event is exactly the one its kind and payload build: nothing else is stored in it. */
  lemma WellFormedEventIsBuilt(e: Event)
    requires WellFormed(e)
    ensures BuildEvent(ParseKind(e.eventType).value, e.payload) == e
  {
  }

  /** The id does not depend on any field other than the two it is built from. */
  lemma EventIdUsesOnlyIdFields(k: Kind, d1: Payload, d2: Payload)
    requires Accepts(k, Some(d1)) && Accepts(k, Some(d2))
    requires d1[IdFields(k).0] == d2[IdFields(k).0] && d1[IdFields(k).1] == d2[IdFields(k).1]
    ensures EventId(k, d1) == EventId(k, d2)
  {
  }

  /** The id starts with the kind's name, so events of different kinds never share an id. */
  lemma EventIdDeterminesKind(k1: Kind, d1: Payload, k2: Kind, d2: Payload)
    requires Accepts(k1, Some(d1)) && Accepts(k2, Some(d2))
    requires EventId(k1, d1) == EventId(k2, d2)
    ensures k1 == k2
  {
    var id1, id2 := EventId(k1, d1), EventId(k2, d2);
    assert id1[0] == KindName(k1)[0];
    assert id2[0] == KindName(k2)[0];
  }

  /**
   * Within one kind the id is not injective: a `-` inside a field value can
   * move between the key and the verb, so two different requests can yield
   * the same id.
   */
  lemma EventIdCanCollide()
    ensures exists d1: Payload, d2: Payload ::
      && Accepts(User, Some(d1)) && Accepts(User, Some(d2))
      && d1["user_id"] != d2["user_id"]
      && EventId(User, d1) == EventId(User, d2)
  {
    var d1 := map["user_id" := "a-b", "action" := "c"];
    var d2 := map["user_id" := "a", "action" := "b-c"];
    assert "user_id" in d1 && "user_id" in d2;
    assert EventId(User, d1) == "user-a-b-c" == EventId(User, d2);
  }

  /** What the broker answered to the handler's send: the placement of the record, or a failure. */
  datatype BrokerOutcome = Acked(partition: nat, offset: nat) | Failed

  /** A send to the broker: the topic and the event record. */
  datatype Send = Send(topic: string, event: Event)

  /** The JSON bodies a handler answers with. */
  datatype Body =
    | ErrorBody(error: string)
    | SuccessBody(status: string, partition: nat, offset: nat, event: Event)

  datatype Response = Response(code: int, body: Body)

  /** What one call of a handler did: the send it made, if any, and the HTTP answer. */
  datatype Outcome = Outcome(sent: Option<Send>, response: Response)

  /** The answer to a publish of `e` that the broker answered with `broker`. */
  function PublishResponse(e: Event, broker: BrokerOutcome): (r: Response)
    ensures r.code == 201 <==> broker.Acked?
    ensures r.code == 500 <==> broker.Failed?
    ensures r.body.SuccessBody? <==> broker.Acked?
    ensures broker.Acked? ==>
      r.body.partition == broker.partition && r.body.offset == broker.offset && r.body.event == e
    ensures broker.Acked? ==> r.body.status == "success"
    ensures broker.Failed? ==> r.body == ErrorBody("Failed to publish event")
  {
    match broker
    case Acked(partition, offset) => Response(201, SuccessBody("success", partition, offset, e))
    case Failed => Response(500, ErrorBody("Failed to publish event"))
  }

  /**
   * One POST handler of kind `k` on request body `body`; `broker` is what the
   * broker answers if the handler sends.
   */
  function Handle(k: Kind, body: Option<Payload>, broker: BrokerOutcome): (r: Outcome)
    // a rejected request is answered 400 with the kind's message, and nothing is sent
    ensures r.sent.None? <==> !Accepts(k, body)
    ensures r.response.code == 400 <==> !Accepts(k, body)
    ensures r.response.code == 400 ==> r.response.body == ErrorBody(MissingFieldsMessage(k))
    // an accepted request is sent once, to the kind's topic, as the event its body builds
    ensures r.sent.Some? ==>
      && r.sent.value.topic == TopicFor(k)
      && r.sent.value.event.eventType in Topics
      && r.sent.value.topic == Topics[r.sent.value.event.eventType]
      && r.sent.value.event == BuildEvent(k, body.value)
    // 201 with the broker's placement and the event iff the broker acknowledged
    ensures r.response.code == 201 <==> Accepts(k, body) && broker.Acked?
    ensures r.response.code == 201 ==>
      r.response.body == SuccessBody("success", broker.partition, broker.offset, r.sent.value.event)
    // 500 with the generic message, and no placement, iff the send failed
    ensures r.response.code == 500 <==> Accepts(k, body) && broker.Failed?
    ensures r.response.code == 500 ==> r.response.body == ErrorBody("Failed to publish event")
    ensures r.response.code in {201, 400, 500}
  {
    if !Accepts(k, body) then
      Outcome(None, Response(400, ErrorBody(MissingFieldsMessage(k))))
    else
      var e := BuildEvent(k, body.value);
      Outcome(Some(Send(TopicFor(k), e)), PublishResponse(e, broker))
  }

  /** Only a send can produce placement numbers: every answer other than 201 is an error body. */
  lemma NoPlacementWithoutAck(k: Kind, body: Option<Payload>, broker: BrokerOutcome)
    ensures Handle(k, body, broker).response.code != 201 ==> Handle(k, body, broker).response.body.ErrorBody?
  {
  }

  /**
   * The send a handler makes does not depend on the broker's answer: the same
   * request always publishes the same event (the same id) to the same topic,
   * and a rejected request gets the same answer whatever the broker would do.
   */
  lemma SameRequestSameSend(k: Kind, body: Option<Payload>, b1: BrokerOutcome, b2: BrokerOutcome)
    ensures Handle(k, body, b1).sent == Handle(k, body, b2).sent
    ensures !Accepts(k, body) ==> Handle(k, body, b1) == Handle(k, body, b2)
  {
  }

  /** Fields beyond the required ones are accepted and travel unchanged in the payload. */
  lemma ExtraFieldsPassThrough(k: Kind, data: Payload, f: string, v: string, broker: BrokerOutcome)
    requires Accepts(k, Some(data))
    requires f !in RequiredFields(k)
    ensures Accepts(k, Some(data[f := v]))
    ensures Handle(k, Some(data[f := v]), broker).sent.value.event.payload == data[f := v]
    ensures Handle(k, Some(data[f := v]), broker).sent.value.event.id == Handle(k, Some(data), broker).sent.value.event.id
    ensures Handle(k, Some(data[f := v]), broker).sent.value.event.timestamp == Get(data[f := v], "timestamp")
  {
  }

  /** POST of `{"user_id": "42", "action": "signup"}`, acknowledged at partition 0, offset 7. */
  lemma UserSignupExample()
    ensures
      var r := Handle(User, Some(map["user_id" := "42", "action" := "signup"]), Acked(0, 7));
      && r.sent.Some?
      && r.sent.value.topic == "user-events"
      && r.sent.value.event.id == "user-42-signup"
      && r.sent.value.event.timestamp == None
      && r.response.code == 201
      && r.response.body.event.id == "user-42-signup"
  {
    var m := map["user_id" := "42", "action" := "signup"];
    assert "user_id" in m && "action" in m && "timestamp" !in m;
  }

  /** POST of `{"status": "failed"}` to the payment endpoint: 400, and nothing is sent. */
  lemma PaymentWithoutIdExample(broker: BrokerOutcome)
    ensures
      var r := Handle(Payment, Some(map["status" := "failed"]), broker);
      r.sent == None && r.response == Response(400, ErrorBody(MissingFieldsPrefix + "payment_id, status"))
  {
  }
}
