# Events gateway and strangler-fig proxy: a Dafny model

This project models two small Flask services of the cinemaabbys repository.

- **Events gateway** (`src/microservices/events/app.py`). It has three POST endpoints, `/api/events/user`, `/api/events/movie` and `/api/events/payment`. Each one checks that the JSON body has its kind's required fields and builds an event record. The event `id` is an f-string of two of those fields. The handler publishes the event to the kind's Kafka topic, taken from the static `TOPICS` table. It then turns the broker's acknowledgement (partition and offset) or failure into an HTTP answer. The three handlers differ only in their tables, so module `Events` models them as one function, `Handle`, over `Kind = User | Movie | Payment`. The broker's answer is a parameter, `Acked(partition, offset)` or `Failed`. The handler's result records the send it made, if any, as an ordinary field, so "nothing was sent" can be stated.
- **Proxy** (`src/microservices/proxy/app.py`). `proxy_movies` sends `/api/movies` to the new movies service when `random.random() * 100` is below the migration percentage, and to the monolith otherwise. `proxy_other` forwards `/api/<path>` by prefix: paths starting with `events/` go to the events service, and paths starting with `users`, `payments` or `subscriptions` go to the monolith. Every other path gets a 404. Module `Proxy` models both as pure functions. The random draw is a `real` in [0, 1), the percentage is a `real`, and the environment's URLs are a `Config` value. The upstream's reply is a parameter: `Answered(status, json)` or `RequestFailed`.

Files: `wrappers.dfy` (`Option` and Python's `dict.get`), `events.dfy`, `proxy.dfy`.

Details of the code that the model keeps:
- A failed publish is answered with 500 (`events/app.py:83`).
- The payment id is built from `payment_id` and `status` (`events/app.py:122`).
- The 400 message is fixed per kind and lists all of its required fields (`events/app.py:61`).

## Model

| member | source | states |
|---|---|---|
| `Events.KindName` | src/microservices/events/app.py:63-68 | the `type` written into an event is the kind's name, which is never empty |
| `Events.ParseKind` | src/microservices/events/app.py:17-21 | a name is read back as a kind exactly when it is a key of the topic table, and the kind read back has that name |
| `Events.Topics` | src/microservices/events/app.py:17-21 | the static kind-to-topic table; its keys are exactly the three kind names (stated by `Events.ParseKind`), and each kind's entry is its topic (`Events.TopicFor`) |
| `Events.TopicFor` | src/microservices/events/app.py:17-21 | each kind's name is a key of the table; user, movie and payment events go to `user-events`, `movie-events` and `payment-events` |
| `Events.RequiredFields` | src/microservices/events/app.py:60 | the required fields of each kind (lines 89 and 118 for movie and payment); every kind has at least two |
| `Events.IdFields` | src/microservices/events/app.py:64 | the two distinct fields each id is built from are among the kind's required fields (lines 93 and 122 for movie and payment) |
| `Events.MissingFieldsMessageNamesRequiredFields` | src/microservices/events/app.py:61 | the 400 message is the fixed prefix followed by the kind's required fields, comma-separated, in order (lines 90 and 119 likewise) |
| `Events.MissingFieldsMessage` | src/microservices/events/app.py:61 | the fixed 400 body of each kind (lines 90 and 119 for movie and payment); its agreement with the required fields is stated by `Events.MissingFieldsMessageNamesRequiredFields` |
| `Events.Accepts` | src/microservices/events/app.py:60 | the handlers' guard as written: a body that is present and not empty and holds each required field (lines 89 and 118 likewise); its meaning is stated by `Events.AcceptsIffRequiredFieldsPresent` |
| `Events.AcceptsIffRequiredFieldsPresent` | src/microservices/events/app.py:60 | the guard accepts exactly when a body is present and holds every required field; the test for a falsy body adds nothing |
| `Events.EventId` | src/microservices/events/app.py:64 | each per-kind f-string equals kind name, `-`, key field, `-`, verb field (lines 93 and 122 likewise) |
| `Wrappers.Get` | src/microservices/events/app.py:66 | Python's `dict.get`: a value exactly when the key is present, and then the value under it (lines 95 and 124 likewise) |
| `Events.BuildEvent` | src/microservices/events/app.py:63-68 | the built event is well-formed, its type reads back as the kind, and its payload is the request body unchanged |
| `Events.WellFormedEventIsBuilt` | src/microservices/events/app.py:63-68 | an event whose id, type and timestamp agree with its payload is the event its kind and payload build, so it stores nothing else |
| `Events.EventIdUsesOnlyIdFields` | src/microservices/events/app.py:64 | two bodies that agree on the key field and the verb field give the same id: the id is deterministic |
| `Events.EventIdDeterminesKind` | src/microservices/events/app.py:64 | equal ids imply equal kinds, because each id starts with its kind's name |
| `Events.EventIdCanCollide` | src/microservices/events/app.py:64 | two user requests with different `user_id`s can yield the same id, because a `-` inside a value is not escaped |
| `Events.PublishResponse` | src/microservices/events/app.py:70-83 | 201 with a success body iff the broker acknowledged: status `"success"`, its partition and offset unchanged, the event echoed; 500 with exactly `{"error": "Failed to publish event"}` iff it failed |
| `Events.Handle` | src/microservices/events/app.py:57-83 | nothing is sent and 400 with the kind's message iff the guard rejects; otherwise one send to the kind's topic (= `TOPICS[event.type]`) of the built event; 201 with the broker's numbers iff acknowledged; 500 `Failed to publish event` iff failed; no other status |
| `Events.NoPlacementWithoutAck` | src/microservices/events/app.py:81-83 | every answer other than 201 is an error body, with no partition or offset |
| `Events.SameRequestSameSend` | src/microservices/events/app.py:63-71 | the send, and so the event id, is the same whatever the broker answers; a rejected request gets the same answer whatever the broker would do |
| `Events.ExtraFieldsPassThrough` | src/microservices/events/app.py:63-68 | an extra field keeps a body accepted, appears in the sent payload, and leaves the id unchanged; the sent timestamp is the new body's `timestamp`, if any |
| `Events.UserSignupExample` | src/microservices/events/app.py:57-80 | `{"user_id": "42", "action": "signup"}` is sent to `user-events` with id `user-42-signup` and no timestamp, and is answered 201 echoing that id |
| `Events.PaymentWithoutIdExample` | src/microservices/events/app.py:115-119 | `{"status": "failed"}` to the payment endpoint is answered 400 with the payment message, and nothing is sent |
| `Proxy.StartsWith` | src/microservices/proxy/app.py:44 | Python's `str.startswith`: the path's first characters are the prefix (used again at line 46) |
| `Proxy.DefaultConfig` | src/microservices/proxy/app.py:12-17 | the base URLs and the migration percentage (0) used when the environment variables are unset |
| `Proxy.TargetUrl` | src/microservices/proxy/app.py:51 | the target URL is the base, then `/api/`, then the path, each at its position |
| `Proxy.ServicePath` | src/microservices/proxy/app.py:51 | a path recovered from a URL rebuilds exactly that URL |
| `Proxy.ServicePathOfTargetUrl` | src/microservices/proxy/app.py:51 | the path is recovered from the target URL built from it |
| `Proxy.RouteOther` | src/microservices/proxy/app.py:42-51 | `proxy_other` never routes to the movies service; an events route carries the events base URL + `/api/` + path, and a monolith route the monolith base URL + `/api/` + path |
| `Proxy.MonolithPath` | src/microservices/proxy/app.py:46 | the monolith test as written: the path starts with `users`, `payments` or `subscriptions`; `Proxy.RouteOtherByPrefix` states that the monolith route is taken iff it holds |
| `Proxy.RouteOtherByPrefix` | src/microservices/proxy/app.py:44-49 | events route iff the path starts with `events/`; monolith route iff it starts with `users`, `payments` or `subscriptions`; 404 route iff neither |
| `Proxy.RouteMovies` | src/microservices/proxy/app.py:20-27 | `/api/movies` goes either to the movies service or to the monolith, and the URL is that service's base + `/api/movies` |
| `Proxy.MoviesShareIsPercent` | src/microservices/proxy/app.py:22 | for any percentage, a draw goes to the movies service iff it is below percent/100 |
| `Proxy.NoMigrationAllMonolith` | src/microservices/proxy/app.py:17-27 | at 0 percent (the default) or less, every draw goes to the monolith |
| `Proxy.FullMigrationAllMoviesService` | src/microservices/proxy/app.py:22-23 | at 100 percent or more, every draw goes to the movies service |
| `Proxy.MigrationIsMonotone` | src/microservices/proxy/app.py:22 | raising the percentage never sends a draw back from the movies service to the monolith |
| `Proxy.Relay` | src/microservices/proxy/app.py:29-38 | an upstream answer's status and body are passed through unchanged; a failed request becomes 503 `Service unavailable` |
| `Proxy.ProxyMovies` | src/microservices/proxy/app.py:19-38 | exactly one GET is made, to the chosen route's URL; the upstream status and body are passed through; a failed request gives 503 `Service unavailable` |
| `Proxy.ProxyOther` | src/microservices/proxy/app.py:41-62 | no upstream is called iff the route is 404, and then the answer is 404 `Service not found`; otherwise one call with the request's method to the route's URL, whose status and body are passed through, or 503 on failure |
| `Proxy.EventsPathsKeepTheirPath` | src/microservices/proxy/app.py:44-51 | a request on `events/...` is forwarded to the events service at the same path below `/api/`, and that path can be read back from the URL |
| `Proxy.EventsUserExample` | src/microservices/proxy/app.py:44-51 | with the default configuration, `events/user` is forwarded to `http://events-service:8082/api/events/user` |
| `Proxy.RoutingExamples` | src/microservices/proxy/app.py:44-49 | `events` without the slash and `movies` give 404; `usersettings` goes to the monolith |

## Left out

- Kafka producer and consumer configuration (`acks='all'`, `retries=3`, the 10-second `future.get` timeout, JSON serialisation of the record): these are library calls. The broker's answer to the one send is a parameter, and a timeout is one form of `Failed`.
- The background consumer thread and its `for msg in consumer` loop: it only logs what it reads, and concurrency is not modelled.
- Flask routing and `jsonify`, logging, `os.getenv` and the port bootstrap, and both health endpoints: framework plumbing. In particular, the choice between `proxy_movies` and `proxy_other` for `/api/movies` is Flask's rule matching and is not modelled.
- Request bodies that are JSON but not objects (a list, a number): `request.json` is modelled as an optional string-to-string map. `None` stands for a JSON `null` body, and `map[]` for `{}`.
- JSON values that are not strings: the payload's values are text. The f-string's `str()` of a number or other value, and a JSON `null` timestamp (which `data.get` also returns as `None`), are not modelled.
- `random.random()` and the `float()` parsing of `MOVIES_MIGRATION_PERCENT`: the draw and the percentage are exact reals, so they have no rounding, NaN or infinity.
- The proxy's forwarding of query parameters (GET) and of the JSON body (POST) to the upstream, and the decoding of the upstream's body with `resp.json()`: the body is opaque text, and a body that is not JSON is not modelled.
- Flask's own refusal of request bodies it cannot decode: since Werkzeug 2.1, `request.json` rejects a missing, empty or malformed JSON body, or a non-JSON content type, with 400 or 415 at the point where it is read. That is the first step of each events handler (`events/app.py:59`, 88, 117), so such a request never gets the handler's own 400 message. In `proxy_other` it is read only in the POST/HEAD branch, after a route was found (`proxy/app.py:56`): an unknown path still gets the 404, and a matched route is refused instead of forwarded. `Handle` and `ProxyOther` describe only requests whose body Flask has decoded.
- HEAD requests to `proxy_other`: Flask adds HEAD to the GET/POST rule, and the handler's non-GET branch reads `request.json` and posts it. With Werkzeug 2.1 or later a HEAD without a JSON body is refused there, as above. Before 2.1, `request.json` returned `None` and the HEAD was forwarded as a POST. `Method` has only `Get` and `Post`.
