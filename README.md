# nats-bridge in Dafny

A model of the core of `nats-bridge`, a relay between a local NATS message bus
and the PubNub remote bus. The program runs four worker threads joined by two
queues:

- a local subscriber reads the local bus, turns every payload that is not JSON
  into a JSON string, and queues the message for the remote bus;
- a remote publisher takes those messages one at a time and publishes each one,
  retrying the same message every second until PubNub accepts it;
- a remote subscriber reads the remote bus and queues what it reads;
- a local publisher takes those messages and makes one publish attempt on the
  local bus, dropping the message if the attempt fails.

Every worker first builds its client, sleeping one second after each failed
attempt. The `nats-bridge` binary prints one JSON line at start-up. It holds a
PubNub console address built from the configuration, with the channel
namespaced by an optional root. The `nats-wanbus` binary runs the same four
threads without roots or a start-up line. The library's `NATS` record stores
a channel and a socket, and `subscribe` prints the `SUB <channel> 1` frame.

Layout:

- `sequences.dfy` (`Sequences`): sequence helpers used by the specifications.
  These are `Map`, keeping the present values of a sequence of options
  (`Somes`), the elements whose flag is set (`Kept`), and subsequences.
- `channels.dfy` (`Channels`): the `mpsc` queue as a class over a `seq`.
- `workers.dfy` (`Workers`): the generic worker loops as methods.
  - Each method is proved to produce the trace that a recursive specification
    function gives.
  - Lemmas about those functions state the guarantees of each hop.
  - Client construction, `publish` and `next_message` outcomes are inputs: a
    sequence of outcomes that drives the run.
  - A run ends when the outcomes run out or when a worker would block on an
    empty queue.
- `format.dfy` (`Format`): the template rendering of `format!`, `write!` and
  `println!`.
- `json.dfy` (`Json`): the payload rule of the local subscribers.
  `json::parse` succeeding is a predicate parameter. `json::stringify` is a
  function parameter.
- `pubnub.dfy` (`PubNub`): the remote message, and how both local publishers
  map it onto a publish.
- `nats.dfy` (`Nats`): the `NATS` record, `NATS::new`, the subscription frame,
  and the repository's two tests.
- `bridge.dfy` (`Bridge`): the `nats-bridge` binary. It holds the
  configuration, the dashboard address, the start-up line, its message
  mappings, its four threads, and end-to-end properties of both directions.
- `wanbus.dfy` (`Wanbus`): the `nats-wanbus` binary's message mappings, four
  threads and end-to-end properties.

The local-bound publisher makes one publish attempt per message
(`src/bin/nats-bridge.rs:192-197`, `src/bin/nats-wanbus.rs:114-119`). On `Err`
it sleeps one second, logs nothing and takes the next message; it never
retries a message.

The dashboard address keeps the double slash that the code produces
(`https://www.pubnub.com//docs/console?...`). `{domain}/{url}` is filled with a
`url` that itself starts with `/`.

## Model

| member | source | states |
|---|---|---|
| `Channels.Channel.constructor` | src/bin/nats-bridge.rs:79-80 | a new queue is empty |
| `Channels.Channel.Send` | src/bin/nats-bridge.rs:117-119 | `send` appends the message at the tail of the queue |
| `Channels.Channel.Recv` | src/bin/nats-bridge.rs:155-156 | `recv` on a non-empty queue returns the head and leaves the rest, in order |
| `Workers.Construct` | src/bin/nats-bridge.rs:97-110 | the construction loop ends with a client exactly when some constructor call succeeds, and its events are the specified build trace |
| `Workers.BuildTraceQuiet` | src/bin/nats-bridge.rs:181-187 | while a worker has no client it takes nothing from its queue, sends nothing and makes no publish call |
| `Workers.BuildTraceShape` | src/bin/nats-bridge.rs:210-217 | a client is built at most once, as the last construction step, exactly when some attempt succeeds; every failed attempt is followed by a one-second sleep |
| `Workers.BuildDeliversNothing` | src/bin/nats-bridge.rs:138-151 | construction delivers nothing to either bus |
| `Workers.PublishStepContents` | src/bin/nats-bridge.rs:162-166 | one publish call is one attempt of that publication; it is one delivery exactly when it returns Ok; an Err is followed by a one-second sleep |
| `Workers.PublishUntilOk` | src/bin/nats-bridge.rs:161-168 | the retry loop publishes the same message until an Ok, consuming one outcome per call, and takes nothing from the queue |
| `Workers.RetryTurn` | src/bin/nats-bridge.rs:155-168 | one turn receives exactly the head of the queue and then publishes it until Ok; the trace so far plus the rest of the run is the whole specified run |
| `Workers.RetryLoop` | src/bin/nats-bridge.rs:154-169 | the message loop produces the specified retry trace, and what it took from the queue is a prefix of it, the rest left in order |
| `Workers.RemotePublisher` | src/bin/nats-bridge.rs:127-170 | the whole remote-bound thread produces the specified trace: construction, then the retry loop, and it takes exactly the received prefix of the queue |
| `Workers.RetryAttempts` | src/bin/nats-bridge.rs:161-168 | the j-th publish call is for the pending message whose index is the number of Ok outcomes before j: never the next message before an Ok |
| `Workers.RetryDeliveries` | src/bin/nats-bridge.rs:154-168 | the successful publishes are exactly the first pending messages, in order, none skipped and none repeated |
| `Workers.RetryReceives` | src/bin/nats-bridge.rs:155-158 | the received messages are a prefix of the queue, and at most one of them is received and not yet delivered |
| `Workers.RetryBacksOff` | src/bin/nats-bridge.rs:164-166 | every failed publish is immediately followed by a one-second sleep |
| `Workers.RetryCounts` | src/bin/nats-bridge.rs:161-168 | each Ok outcome is one delivery, and the loop stops short of its outcomes only once every pending message is delivered |
| `Workers.RemotePublisherAtLeastOnce` | src/bin/nats-bridge.rs:125-170 | remote-bound delivery is FIFO and gap-free (the deliveries are a prefix of the queue), at most one received message is undelivered, attempt j is for the message indexed by the Ok count before j, and nothing is received without a client |
| `Workers.RemotePublisherCounts` | src/bin/nats-bridge.rs:138-168 | with a client, deliveries equal the Ok outcomes used, and the thread stops early only when the queue is fully delivered |
| `Workers.LocalPublisherCounts` | src/bin/nats-bridge.rs:189-198 | with a client, the local deliveries number the Ok outcomes among the first min(queue length, outcome count) calls: one call per message |
| `Workers.DropTurn` | src/bin/nats-bridge.rs:190-197 | one turn receives the head of the queue and makes exactly one publish attempt for it, extending the specified trace by one step |
| `Workers.DropLoop` | src/bin/nats-bridge.rs:189-198 | the single-shot message loop produces the specified trace and takes exactly its received prefix off the queue |
| `Workers.LocalPublisher` | src/bin/nats-bridge.rs:174-199 | the whole local-bound thread produces the specified trace: construction, then the single-shot loop |
| `Workers.DropStepContents` | src/bin/nats-bridge.rs:190-197 | a turn receives one message and attempts it once; it is delivered exactly when that attempt returns Ok, and an Err is followed by a sleep |
| `Workers.DropAttempts` | src/bin/nats-bridge.rs:189-198 | exactly one attempt per received message, in queue order, one per outcome |
| `Workers.DropDeliveries` | src/bin/nats-bridge.rs:192-197 | the deliveries are exactly the messages whose single attempt returned Ok, in queue order |
| `Workers.DropReceives` | src/bin/nats-bridge.rs:190-191 | the received messages are a prefix of the queue: one per outcome plus the one that finds no outcome left |
| `Workers.DropBacksOff` | src/bin/nats-bridge.rs:194-196 | every failed local publish is followed by a one-second sleep |
| `Workers.LocalPublisherAtMostOnce` | src/bin/nats-bridge.rs:174-199 | local-bound delivery is at-most-once: one attempt per received message, the delivered messages are an order-preserving subsequence of the queue (those whose attempt succeeded), and nothing is received without a client |
| `Workers.PublishersBackOff` | src/bin/nats-bridge.rs:146-197 | both publisher threads sleep one second after every failed construction or publish |
| `Workers.HopsDiffer` | src/bin/nats-bridge.rs:161-197 | for every queue whose first publish fails: once any publish succeeds the remote-bound hop has delivered the head first, while the local-bound hop delivers exactly what it would deliver without the head and that first outcome |
| `Workers.HopsDifferExample` | src/bin/nats-bridge.rs:161-197 | on the queue [a, b] with outcomes Err, Ok, the remote-bound hop delivers a and the local-bound hop delivers b |
| `Workers.ReadTurn` | src/bin/nats-bridge.rs:113-119 | one turn of a subscriber extends the run by one read and appends exactly that read's sends to the queue |
| `Workers.ReadOnce` | src/bin/nats-bridge.rs:113-119 | a read error sends nothing; a successful read sends the message |
| `Workers.ReadLoop` | src/bin/nats-bridge.rs:112-120 | the subscriber's message loop produces the specified trace and appends exactly its sends to the queue |
| `Workers.Subscriber` | src/bin/nats-bridge.rs:86-120 | the whole subscriber thread produces the specified trace and appends exactly its sends to the queue |
| `Workers.ReadSends` | src/bin/nats-bridge.rs:112-120 | the messages sent are the successful reads, each transformed, in read order; errors send nothing |
| `Workers.SubscriberSendsSuccesses` | src/bin/nats-bridge.rs:218-234 | a subscriber thread sends one message per successful read, in read order, and none without a client |
| `Json.NormalizeReplacesOnlyUnparsed` | src/bin/nats-bridge.rs:225-229 | the payload is replaced by its stringified form exactly when it does not parse, and otherwise unchanged |
| `Json.NormalizeYieldsJson` | src/bin/nats-bridge.rs:226-228 | when stringified text always parses, the forwarded payload parses and normalizing again changes nothing |
| `Nats.NewStores` | src/nats.rs:53-61 | `new` keeps the channel, names the socket `NATS` on the given host, and gives the policy the same channel and client id 0 |
| `Nats.NewInjective` | src/nats.rs:53-61 | two clients are equal exactly when host and channel are |
| `Nats.SubscribeFrame` | src/nats.rs:64 | the frame is `SUB `, the channel, then ` 1\r\n` |
| `Nats.SubscribeFrameRoundTrip` | src/nats.rs:64 | the frame is 8 characters longer than the channel, and the channel is read back from it |
| `Nats.SubscribedChannelSound` | src/nats.rs:64 | a frame that names a client's channel is that client's frame |
| `Nats.SubscribeKeepsClient` | src/nats.rs:63-67 | `subscribe` leaves the channel and the socket unchanged and prints exactly the frame for the channel followed by the newline of `println!` |
| `Nats.CreateAndSubscribeOk` | src/nats.rs:116-136 | the `create_ok` and `subscribe_ok` tests: host and channel as given, before and after `subscribe` |
| `Bridge.DashboardChannel` | src/bin/nats-bridge.rs:40-48 | the channel is the plain one exactly when the root is empty, and `root.channel` otherwise |
| `Bridge.QualifiedText` | src/bin/nats-bridge.rs:43-47 | `{root}.{channel}` renders to root, a dot, then channel |
| `Bridge.DashboardPieces` | src/bin/nats-bridge.rs:53-61 | the address template renders piece by piece with its six arguments |
| `Bridge.UrlPrefix` | src/bin/nats-bridge.rs:50-54 | protocol, domain and console path join to the fixed head `https://www.pubnub.com//docs/console?channel=` |
| `Bridge.UrlLiteral` | src/bin/nats-bridge.rs:50-52 | the three constants and the template's separators spell `https://www.pubnub.com//docs/console?channel=` |
| `Bridge.DashboardUrl` | src/bin/nats-bridge.rs:50-61 | the address is exactly the fixed head, the channel, `&sub=` with the subscribe key, then `&pub=` with the publish key |
| `Bridge.InfoLineText` | src/bin/nats-bridge.rs:240 | the start-up line is `{"info":"Dashboard: `, the address, `"}` and a newline; the address is read back from between the fixed head and tail |
| `Bridge.NormalizeMessageFields` | src/bin/nats-bridge.rs:225-229 | only `data` can change, and it is stringified exactly when it does not parse |
| `Bridge.PubNubSubscriber` | src/bin/nats-bridge.rs:112-120 | what the remote subscriber queues is its successful reads, unchanged, in read order |
| `Bridge.PubNubPublisher` | src/bin/nats-bridge.rs:154-168 | the k-th remote delivery is the k-th queued message, as its (subject, data) taken verbatim at lines 157-158 |
| `Bridge.NatsPublisher` | src/bin/nats-bridge.rs:189-198 | the local deliveries are the queued messages whose attempt succeeded, as their (channel, data) taken verbatim at line 192, in order, and none without a client |
| `Bridge.NatsSubscriber` | src/bin/nats-bridge.rs:218-234 | the local subscriber queues one message per successful read, in order, each normalized |
| `Bridge.NatsSubscriberSendsJson` | src/bin/nats-bridge.rs:225-233 | when stringified text always parses, every message the local subscriber queues has a payload that parses |
| `Bridge.LocalToRemote` | src/bin/nats-bridge.rs:154-234 | the k-th remote delivery is the k-th message read from the local bus, under its subject, with its payload normalized |
| `Bridge.RemoteToLocal` | src/bin/nats-bridge.rs:112-198 | the local deliveries are the messages read from the remote bus whose one publish succeeded, in read order |
| `Wanbus.NormalizeMessageFields` | src/bin/nats-wanbus.rs:145-149 | only `data` can change, and it is stringified exactly when it does not parse |
| `Wanbus.PubNubSubscriber` | src/bin/nats-wanbus.rs:40-48 | what the remote subscriber queues is its successful reads, unchanged, in read order |
| `Wanbus.PubNubPublisher` | src/bin/nats-wanbus.rs:78-92 | the k-th remote delivery is the k-th queued message, as its (channel, data) taken verbatim at lines 81-82 |
| `Wanbus.NatsPublisher` | src/bin/nats-wanbus.rs:111-120 | the local deliveries are the queued messages whose attempt succeeded, as their (channel, data) taken verbatim at line 114, in order, and none without a client |
| `Wanbus.NatsSubscriber` | src/bin/nats-wanbus.rs:138-155 | the local subscriber queues one message per successful read, in order, each normalized |
| `Wanbus.LocalToRemote` | src/bin/nats-wanbus.rs:78-155 | the k-th remote delivery is the k-th local read under its channel with its payload normalized, and there are no more deliveries than reads |
| `Wanbus.LocalToRemoteDeliversJson` | src/bin/nats-wanbus.rs:78-155 | when stringified text always parses, every payload delivered on the remote bus parses |
| `Wanbus.RemoteToLocal` | src/bin/nats-wanbus.rs:40-120 | the local deliveries are the remote reads whose one publish succeeded, in read order |

## Left out

- Reading the configuration from the environment is I/O and is not modelled;
  the configuration is a given record. When a variable is missing,
  `nats-bridge` prints a message and ends the process with `process::exit(1)`
  (`src/bin/nats-bridge.rs:65-71`), while `nats-wanbus` calls `expect`
  (`src/bin/nats-wanbus.rs:189-194`), which panics the worker thread that
  asked. The fixed `pubnub_host` value belongs to that loading and is not
  modelled either.
- Threads, `join` and the concurrency of the real `mpsc` channels are left
  out. Each queue is a sequence that one sequential worker consumes, and each
  end-to-end lemma composes whole runs of the two workers.
- `recv` blocks on an empty queue. The model ends the run there instead.
  `send` and `recv` panic when the other end is gone, which is not modelled.
- Sleeps are events in the trace. No time passes.
- The infinite loops are bounded by the outcome sequences they are given. A
  subscriber that keeps getting read errors spins without sleeping; the model
  shows this as one `ReadFailed` event per outcome.
- The PubNub and NATS clients are not part of this model: `SubscribeClient`,
  `PublishClient`, `new`, `publish` and `next_message`. Only their outcomes
  are modelled. A publish that returns `Err` counts as not delivered.
- The definitions of the binaries' local-bus message types are not part of
  this model. For `nats-bridge` the message is modelled with the two fields
  it reads (`subject`, `data`) and one opaque remainder that no thread reads. For `nats-wanbus`
  it is modelled with the fields of the `NATSMessage` record of
  `src/nats.rs:13-18`, whose names match those the binary reads.
- The remote message type's definition is not part of this model. Only its
  `channel` and `data` fields are.
- The JSON library is not modelled: what `json::parse` accepts and what
  `json::stringify` produces are parameters.
- The `Socket` library and the `NATSSocketPolicy` callbacks are not modelled.
  The callbacks only print. The socket is recorded by its name, host and
  policy.
- The commented-out code in `src/nats.rs` is not live behaviour. This covers
  the socket write in `subscribe`, `next_message`, reconnection, `Drop` and
  the ping test.
- A failure to write the start-up line is not modelled. `Display` for the
  configuration is used only by `println!` at `src/bin/nats-bridge.rs:240`,
  which writes to standard output and panics if that write fails.
- The start-up line holds the address without JSON escaping, as the code
  writes it. A key or channel containing a quote would
  make the line invalid JSON. Nothing here restricts them.
