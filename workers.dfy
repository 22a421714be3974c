/**
 * The four forwarding workers of the bridge, one sequential thread each.
 *
 * Every worker first builds its bus client, sleeping 1 s after each failed
 * attempt, and then runs its message loop forever. Here a run is bounded by
 * what it is given: the outcomes of the foreign calls (client construction,
 * `publish`, `next_message`) are oracle sequences, and a run ends when the
 * next foreign call has no outcome left or when the worker would block on an
 * empty channel. What a worker does is recorded as a trace of events; the
 * trace functions below are the specification the worker methods are proved
 * against, and the lemmas state the delivery guarantees of each hop.
 */
module Workers {
  import opened Sequences
  import opened Channels

  /** The (channel, data) pair a publisher hands to its client's `publish`. */
  datatype Publication = Publication(channel: string, data: string)

  datatype Event<M> =
    | BuildFailed                                  // client constructor returned Err
    | Built                                        // client constructor returned Ok
    | Sleep(millis: nat)                           // thread::sleep
    | ReadFailed                                   // next_message returned Err
    | Send(sent: M)                                // message put on the outbound channel
    | Recv(received: M)                            // message taken from the inbound channel
    | Publish(publication: Publication, ok: bool)  // one publish call and its outcome

  /** Every back-off in both binaries is one second. */
  const RetryMillis: nat := 1000

  // ---------------------------------------------------------------------------
  // Reading a trace

  /** Concatenates what `f` extracts from each event, in trace order. */
  function Collect<M, X>(t: seq<Event<M>>, f: Event<M> -> seq<X>): seq<X>
  {
    if t == [] then [] else f(t[0]) + Collect(t[1..], f)
  }

  function ReceivedBy<M>(e: Event<M>): seq<M> { if e.Recv? then [e.received] else [] }
  function SentBy<M>(e: Event<M>): seq<M> { if e.Send? then [e.sent] else [] }
  function AttemptedBy<M>(e: Event<M>): seq<Publication> { if e.Publish? then [e.publication] else [] }
  function DeliveredBy<M>(e: Event<M>): seq<Publication> { if e.Publish? && e.ok then [e.publication] else [] }

  /** Messages taken from the inbound channel. */
  function Receives<M>(t: seq<Event<M>>): seq<M> { Collect(t, ReceivedBy<M>) }
  /** Messages put on the outbound channel. */
  function Sends<M>(t: seq<Event<M>>): seq<M> { Collect(t, SentBy<M>) }
  /** Every publish call, successful or not. */
  function Attempts<M>(t: seq<Event<M>>): seq<Publication> { Collect(t, AttemptedBy<M>) }
  /** The publish calls that returned Ok. */
  function Deliveries<M>(t: seq<Event<M>>): seq<Publication> { Collect(t, DeliveredBy<M>) }

  lemma {:induction false} CollectAppend<M, X>(a: seq<Event<M>>, b: seq<Event<M>>, f: Event<M> -> seq<X>)
    ensures Collect(a + b, f) == Collect(a, f) + Collect(b, f)
  {
    if a == [] {
      assert a + b == b;
    } else {
      assert (a + b)[0] == a[0];
      assert (a + b)[1..] == a[1..] + b;
      CollectAppend(a[1..], b, f);
    }
  }

  lemma CollectSingle<M, X>(e: Event<M>, f: Event<M> -> seq<X>)
    ensures Collect([e], f) == f(e)
  {
    assert [e][1..] == [];
  }

  /** Appending an event to a trace appends what that event contributes. */
  lemma CollectSnoc<M, X>(t: seq<Event<M>>, e: Event<M>, f: Event<M> -> seq<X>)
    ensures Collect(t + [e], f) == Collect(t, f) + f(e)
  {
    CollectAppend(t, [e], f);
    CollectSingle(e, f);
  }

  /** A failed construction or a failed publish. */
  predicate Failure<M>(e: Event<M>)
  {
    e.BuildFailed? || (e.Publish? && !e.ok)
  }

  /** No busy retry: every failure is immediately followed by a one-second sleep. */
  ghost predicate BacksOff<M>(t: seq<Event<M>>)
  {
    forall i :: 0 <= i < |t| && Failure(t[i]) ==> i + 1 < |t| && t[i + 1] == Sleep(RetryMillis)
  }

  lemma BacksOffAppend<M>(a: seq<Event<M>>, b: seq<Event<M>>)
    requires BacksOff(a) && BacksOff(b)
    ensures BacksOff(a + b)
  {
    var t := a + b;
    forall i | 0 <= i < |t| && Failure(t[i])
      ensures i + 1 < |t| && t[i + 1] == Sleep(RetryMillis)
    {
      if i < |a| {
        assert t[i] == a[i];
        assert t[i + 1] == a[i + 1];
      } else {
        assert t[i] == b[i - |a|];
        assert t[i + 1] == b[i + 1 - |a|];
      }
    }
  }

  /** One publish call and, when it returns Err, the one-second back-off after it. */
  function PublishStep<M>(p: Publication, ok: bool): seq<Event<M>>
  {
    [Publish(p, ok)] + (if ok then [] else [Sleep(RetryMillis)])
  }

  lemma PublishStepContents<M>(p: Publication, ok: bool)
    ensures Receives(PublishStep<M>(p, ok)) == []
    ensures Attempts(PublishStep<M>(p, ok)) == [p]
    ensures Deliveries(PublishStep<M>(p, ok)) == (if ok then [p] else [])
    ensures BacksOff(PublishStep<M>(p, ok))
  {
    var tail: seq<Event<M>> := if ok then [] else [Sleep(RetryMillis)];
    CollectAppend([Publish(p, ok)], tail, ReceivedBy<M>);
    CollectAppend([Publish(p, ok)], tail, AttemptedBy<M>);
    CollectAppend([Publish(p, ok)], tail, DeliveredBy<M>);
    CollectSingle(Publish(p, ok), ReceivedBy<M>);
    CollectSingle(Publish(p, ok), AttemptedBy<M>);
    CollectSingle(Publish(p, ok), DeliveredBy<M>);
    if !ok {
      CollectSingle(Sleep(RetryMillis), ReceivedBy<M>);
      CollectSingle(Sleep(RetryMillis), AttemptedBy<M>);
      CollectSingle(Sleep(RetryMillis), DeliveredBy<M>);
    }
  }

  // ---------------------------------------------------------------------------
  // Construction: `match Client::new(..) { Ok(c) => c, Err(_) => { sleep(1 s); continue } }`

  /** The events of the outer loop, fed with the outcomes of the constructor calls. */
  function BuildTrace<M>(builds: seq<bool>): seq<Event<M>>
  {
    if builds == [] then []
    else if builds[0] then [Built]
    else [BuildFailed, Sleep(RetryMillis)] + BuildTrace(builds[1..])
  }

  /** The construction loop. */
  method Construct<M>(builds: seq<bool>) returns (built: bool, trace: seq<Event<M>>)
    ensures built <==> true in builds
    ensures trace == BuildTrace(builds)
  {
    built, trace := false, [];
    var i := 0;
    while i < |builds| && !built
      invariant 0 <= i <= |builds|
      invariant built ==> true in builds && trace == BuildTrace(builds)
      invariant !built ==> true !in builds[..i] && trace + BuildTrace(builds[i..]) == BuildTrace(builds)
    {
      assert builds[i..][0] == builds[i] && builds[i..][1..] == builds[i + 1..];
      assert builds[..i + 1] == builds[..i] + [builds[i]];
      if builds[i] {
        trace := trace + [Built];
        built := true;
      } else {
        trace := trace + [BuildFailed, Sleep(RetryMillis)];
      }
      i := i + 1;
    }
    if !built {
      assert builds[..i] == builds;
    }
  }

  /** While a worker has no client it touches neither channel and publishes nothing. */
  lemma {:induction false} BuildTraceQuiet<M>(builds: seq<bool>)
    ensures Receives(BuildTrace<M>(builds)) == []
    ensures Sends(BuildTrace<M>(builds)) == []
    ensures Attempts(BuildTrace<M>(builds)) == []
  {
    var t := BuildTrace<M>(builds);
    if builds == [] {
    } else if builds[0] {
      CollectSingle(Built, ReceivedBy<M>);
      CollectSingle(Built, SentBy<M>);
      CollectSingle(Built, AttemptedBy<M>);
    } else {
      var head: seq<Event<M>> := [BuildFailed, Sleep(RetryMillis)];
      BuildTraceQuiet<M>(builds[1..]);
      CollectAppend(head, BuildTrace<M>(builds[1..]), ReceivedBy<M>);
      CollectAppend(head, BuildTrace<M>(builds[1..]), SentBy<M>);
      CollectAppend(head, BuildTrace<M>(builds[1..]), AttemptedBy<M>);
    }
  }

  /** A client is built at most once, as the last step of the construction loop, and
      exactly when some constructor call succeeds; each failed call is followed by a sleep. */
  lemma {:induction false} BuildTraceShape<M>(builds: seq<bool>)
    ensures var t := BuildTrace<M>(builds);
      && (true in builds <==> (t != [] && t[|t| - 1] == Built))
      && (forall i :: 0 <= i < |t| - 1 ==> t[i] != Built)
      && BacksOff(t)
  {
    var t := BuildTrace<M>(builds);
    if builds == [] {
    } else if builds[0] {
    } else {
      BuildTraceShape<M>(builds[1..]);
      var rest := BuildTrace<M>(builds[1..]);
      assert t == [BuildFailed, Sleep(RetryMillis)] + rest;
      assert true in builds <==> true in builds[1..] by {
        assert builds == [builds[0]] + builds[1..];
      }
      forall i | 0 <= i < |t| - 1 ensures t[i] != Built {
        if i >= 2 { assert t[i] == rest[i - 2]; }
      }
      var head: seq<Event<M>> := [BuildFailed, Sleep(RetryMillis)];
      assert BacksOff(head);
      BacksOffAppend(head, rest);
    }
  }

  // ---------------------------------------------------------------------------
  // Remote-bound publisher: receive one message, then
  // `loop { match publish(channel, data) { Ok(_) => break, Err(_) => sleep(1 s) } }`

  /** The messages a publisher still owes: the one in flight (if any), then the channel. */
  function Pending<M>(inflight: Option<M>, queue: seq<M>): seq<M>
  {
    (if inflight.Some? then [inflight.value] else []) + queue
  }

  /** The message loop of the retrying publisher, from the state `inflight` / `queue`. */
  function RetryTrace<M>(inflight: Option<M>, queue: seq<M>, project: M -> Publication, outcomes: seq<bool>): seq<Event<M>>
    decreases |outcomes|, |queue|
  {
    match inflight
    case None =>
      if queue == [] then []
      else [Recv(queue[0])] + RetryTrace(Some(queue[0]), queue[1..], project, outcomes)
    case Some(m) =>
      if outcomes == [] then []
      else PublishStep(project(m), outcomes[0]) + RetryTrace(if outcomes[0] then None else inflight, queue, project, outcomes[1..])
  }

  /** One publish of the message in flight, for the methods below. */
  lemma RetryPublishes<M>(m: M, queue: seq<M>, project: M -> Publication, outcomes: seq<bool>)
    requires outcomes != []
    ensures RetryTrace(Some(m), queue, project, outcomes)
         == PublishStep(project(m), outcomes[0]) + RetryTrace(if outcomes[0] then None else Some(m), queue, project, outcomes[1..])
  {
  }

  /** The whole remote-bound publisher thread. */
  function RemotePublisherTrace<M>(builds: seq<bool>, queue: seq<M>, project: M -> Publication, outcomes: seq<bool>): seq<Event<M>>
  {
    BuildTrace(builds) + (if true in builds then RetryTrace(None, queue, project, outcomes) else [])
  }

  /** The retry loop for one received message `m`; `queue` is the (ghost) channel
      contents behind it, which the loop does not touch. */
  method PublishUntilOk<M>(m: M, project: M -> Publication, outcomes: seq<bool>, start: nat, ghost queue: seq<M>)
    returns (events: seq<Event<M>>, next: nat, delivered: bool)
    requires start <= |outcomes|
    ensures start <= next <= |outcomes|
    ensures !delivered ==> next == |outcomes|
    ensures events + RetryTrace(if delivered then None else Some(m), queue, project, outcomes[next..])
         == RetryTrace(Some(m), queue, project, outcomes[start..])
    ensures Receives(events) == []
  {
    events, next, delivered := [], start, false;
    ghost var whole := RetryTrace(Some(m), queue, project, outcomes[start..]);
    while !delivered && next < |outcomes|
      invariant start <= next <= |outcomes|
      invariant events + RetryTrace(if delivered then None else Some(m), queue, project, outcomes[next..]) == whole
      invariant Receives(events) == []
      decreases |outcomes| - next, if delivered then 0 else 1
    {
      var ok := outcomes[next];
      ghost var before := events;
      RetryStep(before, m, queue, project, outcomes, next, whole);
      events := events + [Publish(project(m), ok)];
      if !ok {
        events := events + [Sleep(RetryMillis)];
      }
      assert events == before + PublishStep<M>(project(m), ok);
      delivered := ok;
      next := next + 1;
    }
  }

  /** One publish of the message in flight keeps the retry loop's invariant. */
  lemma RetryStep<M>(before: seq<Event<M>>, m: M, queue: seq<M>, project: M -> Publication,
                     outcomes: seq<bool>, next: nat, whole: seq<Event<M>>)
    requires next < |outcomes|
    requires before + RetryTrace(Some(m), queue, project, outcomes[next..]) == whole
    requires Receives(before) == []
    ensures var step := PublishStep<M>(project(m), outcomes[next]);
      && (before + step) + RetryTrace(if outcomes[next] then None else Some(m), queue, project, outcomes[next + 1..]) == whole
      && Receives(before + step) == []
  {
    var ok := outcomes[next];
    var step := PublishStep<M>(project(m), ok);
    var rest := RetryTrace(if ok then None else Some(m), queue, project, outcomes[next + 1..]);
    RetryPublishes(m, queue, project, outcomes[next..]);
    assert outcomes[next..][1..] == outcomes[next + 1..];
    ConcatAssoc(before, step, rest);
    PublishStepContents<M>(project(m), ok);
    CollectAppend(before, step, ReceivedBy<M>);
  }

  /** The message loop of the retrying publisher once it has a client. */
  method RetryLoop<M>(rx: Channel<M>, project: M -> Publication, outcomes: seq<bool>)
    returns (trace: seq<Event<M>>)
    modifies rx
    ensures trace == RetryTrace(None, old(rx.items), project, outcomes)
    ensures old(rx.items) == Receives(trace) + rx.items
  {
    ghost var q0 := rx.items;
    trace := [];
    var next: nat := 0;
    var stalled := false;
    while rx.items != [] && !stalled
      invariant next <= |outcomes|
      invariant trace + (if stalled then [] else RetryTrace(None, rx.items, project, outcomes[next..]))
             == RetryTrace(None, q0, project, outcomes)
      invariant q0 == Receives(trace) + rx.items
      decreases |rx.items|, if stalled then 0 else 1
    {
      trace, next, stalled := RetryTurn(rx, project, outcomes, trace, next, q0);
    }
    assert trace + [] == trace;
  }

  /** One turn of the retrying publisher's message loop: receive a message, then publish
      it until Ok, extending the run so far; `stalled` says the outcomes ran out first. */
  method RetryTurn<M>(rx: Channel<M>, project: M -> Publication, outcomes: seq<bool>,
                      trace: seq<Event<M>>, start: nat, ghost q0: seq<M>)
    returns (trace': seq<Event<M>>, next: nat, stalled: bool)
    requires rx.items != [] && start <= |outcomes|
    requires trace + RetryTrace(None, rx.items, project, outcomes[start..]) == RetryTrace(None, q0, project, outcomes)
    requires q0 == Receives(trace) + rx.items
    modifies rx
    ensures rx.items == old(rx.items)[1..] && next <= |outcomes|
    ensures trace' + (if stalled then [] else RetryTrace(None, rx.items, project, outcomes[next..]))
         == RetryTrace(None, q0, project, outcomes)
    ensures q0 == Receives(trace') + rx.items
  {
    ghost var before := rx.items;
    var m := rx.Recv();
    assert before == [m] + rx.items;
    ghost var waiting := RetryTrace(Some(m), rx.items, project, outcomes[start..]);
    assert RetryTrace(None, before, project, outcomes[start..]) == [Recv(m)] + waiting;
    var tail, delivered;
    tail, next, delivered := PublishUntilOk(m, project, outcomes, start, rx.items);
    stalled := !delivered;
    ghost var rest := RetryTrace(if delivered then None else Some(m), rx.items, project, outcomes[next..]);
    if stalled {
      assert outcomes[next..] == [] && rest == [];
    }
    var events := [Recv(m)] + tail;
    ConcatAssoc([Recv(m)], tail, rest);
    ConcatAssoc(trace, events, rest);
    CollectAppend([Recv(m)], tail, ReceivedBy<M>);
    CollectSingle(Recv(m), ReceivedBy<M>);
    CollectAppend(trace, events, ReceivedBy<M>);
    ConcatAssoc(Receives(trace), [m], rx.items);
    trace' := trace + events;
  }

  method RemotePublisher<M>(rx: Channel<M>, project: M -> Publication, builds: seq<bool>, outcomes: seq<bool>)
    returns (trace: seq<Event<M>>)
    modifies rx
    ensures trace == RemotePublisherTrace(builds, old(rx.items), project, outcomes)
    ensures old(rx.items) == Receives(trace) + rx.items
  {
    var built;
    built, trace := Construct(builds);
    BuildTraceQuiet<M>(builds);
    if built {
      var rest := RetryLoop(rx, project, outcomes);
      CollectAppend(trace, rest, ReceivedBy<M>);
      trace := trace + rest;
    } else {
      assert trace + [] == trace;
    }
  }

  /** The j-th publish attempt is for the message whose position in the pending sequence
      is the number of successes before it: the same message is retried until Ok, and
      the next one is taken only then. */
  lemma {:induction false} RetryAttempts<M>(inflight: Option<M>, queue: seq<M>, project: M -> Publication, outcomes: seq<bool>)
    ensures var a := Attempts(RetryTrace(inflight, queue, project, outcomes));
      var p := Pending(inflight, queue);
      && |a| <= |outcomes|
      && forall j :: 0 <= j < |a| ==> CountTrue(outcomes[..j]) < |p| && a[j] == project(p[CountTrue(outcomes[..j])])
    decreases |outcomes|, |queue|
  {
    var t := RetryTrace(inflight, queue, project, outcomes);
    var p := Pending(inflight, queue);
    match inflight
    case None =>
      if queue != [] {
        var rest := RetryTrace(Some(queue[0]), queue[1..], project, outcomes);
        RetryAttempts(Some(queue[0]), queue[1..], project, outcomes);
        CollectAppend([Recv(queue[0])], rest, AttemptedBy<M>);
        CollectSingle(Recv(queue[0]), AttemptedBy<M>);
        assert Pending(Some(queue[0]), queue[1..]) == p;
      }
    case Some(m) =>
      if outcomes != [] {
        var ok := outcomes[0];
        var head := PublishStep<M>(project(m), ok);
        var next := if ok then None else inflight;
        var rest := RetryTrace(next, queue, project, outcomes[1..]);
        assert t == head + rest;
        RetryAttempts(next, queue, project, outcomes[1..]);
        CollectAppend(head, rest, AttemptedBy<M>);
        PublishStepContents<M>(project(m), ok);
        AttemptsShift(Attempts(t), Attempts(rest), p, Pending(next, queue), project, outcomes);
      }
  }

  /** The attempt formula of RetryAttempts survives one more publish in front. */
  lemma AttemptsShift<M>(a: seq<Publication>, a': seq<Publication>, p: seq<M>, p': seq<M>,
                         project: M -> Publication, outcomes: seq<bool>)
    requires outcomes != [] && p != []
    requires a == [project(p[0])] + a'
    requires p' == if outcomes[0] then p[1..] else p
    requires |a'| <= |outcomes| - 1
    requires forall j :: 0 <= j < |a'| ==>
      CountTrue(outcomes[1..][..j]) < |p'| && a'[j] == project(p'[CountTrue(outcomes[1..][..j])])
    ensures |a| <= |outcomes|
    ensures forall j :: 0 <= j < |a| ==> CountTrue(outcomes[..j]) < |p| && a[j] == project(p[CountTrue(outcomes[..j])])
  {
    forall j | 0 <= j < |a|
      ensures CountTrue(outcomes[..j]) < |p| && a[j] == project(p[CountTrue(outcomes[..j])])
    {
      if j == 0 {
        assert outcomes[..0] == [];
      } else {
        CountTrueCons(outcomes, j);
        assert a[j] == a'[j - 1];
      }
    }
  }

  /** The successful publishes are the pending messages in order, without a gap:
      at-least-once, first-in first-out. */
  lemma {:induction false} RetryDeliveries<M>(inflight: Option<M>, queue: seq<M>, project: M -> Publication, outcomes: seq<bool>)
    ensures var d := Deliveries(RetryTrace(inflight, queue, project, outcomes));
      var p := Pending(inflight, queue);
      |d| <= |p| && d == Map(project, p[..|d|])
    decreases |outcomes|, |queue|
  {
    var t := RetryTrace(inflight, queue, project, outcomes);
    var p := Pending(inflight, queue);
    match inflight
    case None =>
      if queue != [] {
        var rest := RetryTrace(Some(queue[0]), queue[1..], project, outcomes);
        RetryDeliveries(Some(queue[0]), queue[1..], project, outcomes);
        CollectAppend([Recv(queue[0])], rest, DeliveredBy<M>);
        CollectSingle(Recv(queue[0]), DeliveredBy<M>);
        assert Pending(Some(queue[0]), queue[1..]) == p;
      }
    case Some(m) =>
      if outcomes != [] {
        var ok := outcomes[0];
        var head := PublishStep<M>(project(m), ok);
        var next := if ok then None else inflight;
        var rest := RetryTrace(next, queue, project, outcomes[1..]);
        assert t == head + rest;
        RetryDeliveries(next, queue, project, outcomes[1..]);
        CollectAppend(head, rest, DeliveredBy<M>);
        PublishStepContents<M>(project(m), ok);
        if ok {
          var d' := Deliveries(rest);
          var p' := Pending(next, queue);
          assert p' == p[1..];
          assert p[..|d'| + 1] == [m] + p'[..|d'|];
          MapCons(project, m, p'[..|d'|]);
        }
      }
  }

  /** The received messages are a prefix of the channel, and all but at most one of the
      messages taken off it (the one in flight) have been delivered: none is dropped. */
  lemma {:induction false} RetryReceives<M>(inflight: Option<M>, queue: seq<M>, project: M -> Publication, outcomes: seq<bool>)
    ensures var t := RetryTrace(inflight, queue, project, outcomes);
      var r := Receives(t);
      var owed := |Pending(inflight, r)|;
      && |r| <= |queue| && r == queue[..|r|]
      && |Deliveries(t)| <= owed <= |Deliveries(t)| + 1
    decreases |outcomes|, |queue|
  {
    var t := RetryTrace(inflight, queue, project, outcomes);
    match inflight
    case None =>
      if queue != [] {
        var rest := RetryTrace(Some(queue[0]), queue[1..], project, outcomes);
        RetryReceives(Some(queue[0]), queue[1..], project, outcomes);
        CollectAppend([Recv(queue[0])], rest, ReceivedBy<M>);
        CollectSingle(Recv(queue[0]), ReceivedBy<M>);
        CollectAppend([Recv(queue[0])], rest, DeliveredBy<M>);
        CollectSingle(Recv(queue[0]), DeliveredBy<M>);
        var r' := Receives(rest);
        assert Receives(t) == [queue[0]] + r';
        assert queue == [queue[0]] + queue[1..];
      }
    case Some(m) =>
      if outcomes != [] {
        var ok := outcomes[0];
        var head := PublishStep<M>(project(m), ok);
        var next := if ok then None else inflight;
        var rest := RetryTrace(next, queue, project, outcomes[1..]);
        assert t == head + rest;
        RetryReceives(next, queue, project, outcomes[1..]);
        CollectAppend(head, rest, ReceivedBy<M>);
        CollectAppend(head, rest, DeliveredBy<M>);
        PublishStepContents<M>(project(m), ok);
      }
  }

  lemma {:induction false} RetryBacksOff<M>(inflight: Option<M>, queue: seq<M>, project: M -> Publication, outcomes: seq<bool>)
    ensures BacksOff(RetryTrace(inflight, queue, project, outcomes))
    decreases |outcomes|, |queue|
  {
    match inflight
    case None =>
      if queue != [] {
        RetryBacksOff(Some(queue[0]), queue[1..], project, outcomes);
        BacksOffAppend([Recv(queue[0])], RetryTrace(Some(queue[0]), queue[1..], project, outcomes));
      }
    case Some(m) =>
      if outcomes != [] {
        var ok := outcomes[0];
        var head := PublishStep<M>(project(m), ok);
        var next := if ok then None else inflight;
        RetryBacksOff(next, queue, project, outcomes[1..]);
        PublishStepContents<M>(project(m), ok);
        BacksOffAppend(head, RetryTrace(next, queue, project, outcomes[1..]));
      }
  }

  /** The remote-bound hop is at-least-once and FIFO: what reaches the remote bus is the
      channel's messages in order with none skipped, every message taken off the channel
      but one is delivered, each attempt retries the oldest undelivered message, and
      nothing is taken off the channel while no client exists. */
  lemma RemotePublisherAtLeastOnce<M>(builds: seq<bool>, queue: seq<M>, project: M -> Publication, outcomes: seq<bool>)
    ensures var t := RemotePublisherTrace(builds, queue, project, outcomes);
      var d := Deliveries(t);
      var r := Receives(t);
      && |d| <= |queue| && d == Map(project, queue[..|d|])
      && |r| <= |queue| && r == queue[..|r|] && |d| <= |r| <= |d| + 1
      && |Attempts(t)| <= |outcomes|
      && (forall j :: 0 <= j < |Attempts(t)| ==>
            CountTrue(outcomes[..j]) < |queue| && Attempts(t)[j] == project(queue[CountTrue(outcomes[..j])]))
      && (true !in builds ==> r == [] && Attempts(t) == [])
  {
    var b := BuildTrace<M>(builds);
    var rest := if true in builds then RetryTrace(None, queue, project, outcomes) else [];
    BuildTraceQuiet<M>(builds);
    CollectAppend(b, rest, ReceivedBy<M>);
    CollectAppend(b, rest, AttemptedBy<M>);
    CollectAppend(b, rest, DeliveredBy<M>);
    assert Deliveries(b) == [] by {
      BuildDeliversNothing<M>(builds);
    }
    if true in builds {
      RetryDeliveries(None, queue, project, outcomes);
      RetryReceives(None, queue, project, outcomes);
      RetryAttempts(None, queue, project, outcomes);
      assert Pending(None, queue) == queue;
    }
  }

  lemma BuildDeliversNothing<M>(builds: seq<bool>)
    ensures Deliveries(BuildTrace<M>(builds)) == []
  {
    var t := BuildTrace<M>(builds);
    BuildTraceQuiet<M>(builds);
    AttemptsCoverDeliveries(t);
  }

  /** Every successful publish is a publish: no attempts means no deliveries. */
  lemma {:induction false} AttemptsCoverDeliveries<M>(t: seq<Event<M>>)
    ensures |Deliveries(t)| <= |Attempts(t)|
  {
    if t != [] {
      AttemptsCoverDeliveries(t[1..]);
    }
  }

  // ---------------------------------------------------------------------------
  // Local-bound publisher: receive one message, then
  // `match publish(channel, data) { Ok(()) => {}, Err(_) => sleep(1 s) }` and go on.

  /** The message loop of the single-shot publisher. */
  function DropTrace<M>(queue: seq<M>, project: M -> Publication, outcomes: seq<bool>): seq<Event<M>>
    decreases |queue|
  {
    if queue == [] then []
    else if outcomes == [] then [Recv(queue[0])]
    else DropStep(queue[0], project, outcomes[0]) + DropTrace(queue[1..], project, outcomes[1..])
  }

  /** The whole local-bound publisher thread. */
  function LocalPublisherTrace<M>(builds: seq<bool>, queue: seq<M>, project: M -> Publication, outcomes: seq<bool>): seq<Event<M>>
  {
    BuildTrace(builds) + (if true in builds then DropTrace(queue, project, outcomes) else [])
  }

  /** The message loop of the single-shot publisher once it has a client. */
  method DropLoop<M>(rx: Channel<M>, project: M -> Publication, outcomes: seq<bool>)
    returns (trace: seq<Event<M>>)
    modifies rx
    ensures trace == DropTrace(old(rx.items), project, outcomes)
    ensures old(rx.items) == Receives(trace) + rx.items
  {
    ghost var q0 := rx.items;
    trace := [];
    var next: nat := 0;
    while rx.items != [] && next < |outcomes|
      invariant next <= |outcomes| && next <= |q0|
      invariant rx.items == q0[next..]
      invariant trace == DropTrace(q0[..next], project, outcomes[..next]) && Receives(trace) == q0[..next]
      decreases |outcomes| - next
    {
      trace := DropTurn(rx, project, outcomes, trace, next, q0);
      next := next + 1;
    }
    if rx.items != [] {
      // The outcomes ran out: the next message is received, and its publish has no outcome.
      DropStall(q0, project, outcomes, next);
      var m := rx.Recv();
      CollectSnoc(trace, Recv(m), ReceivedBy<M>);
      assert q0[..next] + [m] + rx.items == q0;
      trace := trace + [Recv(m)];
    } else {
      DropSplit(q0, project, outcomes, next);
      assert q0[..next] == q0 && q0[next..] == [];
      assert trace + [] == trace;
    }
  }

  /** One turn of the single-shot publisher's message loop: receive a message and make
      its one publish call, extending the run so far. */
  method DropTurn<M>(rx: Channel<M>, project: M -> Publication, outcomes: seq<bool>,
                     trace: seq<Event<M>>, next: nat, ghost q0: seq<M>)
    returns (trace': seq<Event<M>>)
    requires next < |outcomes| && next < |q0| && rx.items == q0[next..]
    requires trace == DropTrace(q0[..next], project, outcomes[..next]) && Receives(trace) == q0[..next]
    modifies rx
    ensures rx.items == q0[next + 1..]
    ensures trace' == DropTrace(q0[..next + 1], project, outcomes[..next + 1])
    ensures Receives(trace') == q0[..next + 1]
  {
    var m := rx.Recv();
    var ok := outcomes[next];
    var events := PublishStep<M>(project(m), ok);
    DropSnoc(q0, project, outcomes, next);
    DropStepContents(m, project, ok);
    CollectAppend(trace, DropStep(m, project, ok), ReceivedBy<M>);
    assert q0[..next] + [m] == q0[..next + 1];
    ConcatAssoc(trace, [Recv(m)], events);
    trace' := trace + [Recv(m)] + events;
  }

  /** Extending both inputs by one element appends one step. */
  lemma DropSnoc<M>(queue: seq<M>, project: M -> Publication, outcomes: seq<bool>, k: nat)
    requires k < |queue| && k < |outcomes|
    ensures DropTrace(queue[..k + 1], project, outcomes[..k + 1])
         == DropTrace(queue[..k], project, outcomes[..k]) + DropStep(queue[k], project, outcomes[k])
  {
    DropSplit(queue[..k + 1], project, outcomes[..k + 1], k);
    assert queue[..k + 1][..k] == queue[..k] && outcomes[..k + 1][..k] == outcomes[..k];
    assert queue[..k + 1][k..] == [queue[k]] && outcomes[..k + 1][k..] == [outcomes[k]];
    assert DropTrace([queue[k]], project, [outcomes[k]])
        == DropStep(queue[k], project, outcomes[k]) + DropTrace([], project, []);
  }

  /** Once the outcomes run out, the next message is received and the run ends. */
  lemma DropStall<M>(queue: seq<M>, project: M -> Publication, outcomes: seq<bool>, k: nat)
    requires k < |queue| && k == |outcomes|
    ensures DropTrace(queue, project, outcomes) == DropTrace(queue[..k], project, outcomes[..k]) + [Recv(queue[k])]
  {
    DropSplit(queue, project, outcomes, k);
    assert outcomes[..k] == outcomes && outcomes[k..] == [];
  }

  /** A run of the single-shot publisher splits at any point both inputs reach. */
  lemma {:induction false} DropSplit<M>(queue: seq<M>, project: M -> Publication, outcomes: seq<bool>, k: nat)
    requires k <= |queue| && k <= |outcomes|
    ensures DropTrace(queue, project, outcomes)
         == DropTrace(queue[..k], project, outcomes[..k]) + DropTrace(queue[k..], project, outcomes[k..])
    decreases k
  {
    if k == 0 {
      assert queue[..0] == [] && queue[0..] == queue && outcomes[0..] == outcomes;
    } else {
      DropSplit(queue[1..], project, outcomes[1..], k - 1);
      assert queue[..k][0] == queue[0] && queue[..k][1..] == queue[1..][..k - 1];
      assert outcomes[..k][0] == outcomes[0] && outcomes[..k][1..] == outcomes[1..][..k - 1];
      assert queue[1..][k - 1..] == queue[k..] && outcomes[1..][k - 1..] == outcomes[k..];
    }
  }

  method LocalPublisher<M>(rx: Channel<M>, project: M -> Publication, builds: seq<bool>, outcomes: seq<bool>)
    returns (trace: seq<Event<M>>)
    modifies rx
    ensures trace == LocalPublisherTrace(builds, old(rx.items), project, outcomes)
    ensures old(rx.items) == Receives(trace) + rx.items
  {
    var built;
    built, trace := Construct(builds);
    BuildTraceQuiet<M>(builds);
    if built {
      var rest := DropLoop(rx, project, outcomes);
      CollectAppend(trace, rest, ReceivedBy<M>);
      trace := trace + rest;
    } else {
      assert trace + [] == trace;
    }
  }

  /** One turn of the single-shot publisher: receive, then one publish. */
  function DropStep<M>(m: M, project: M -> Publication, ok: bool): seq<Event<M>>
  {
    [Recv(m)] + PublishStep(project(m), ok)
  }

  lemma DropStepContents<M>(m: M, project: M -> Publication, ok: bool)
    ensures Receives(DropStep(m, project, ok)) == [m]
    ensures Attempts(DropStep(m, project, ok)) == [project(m)]
    ensures Deliveries(DropStep(m, project, ok)) == (if ok then [project(m)] else [])
    ensures BacksOff(DropStep(m, project, ok))
  {
    var step := PublishStep<M>(project(m), ok);
    PublishStepContents<M>(project(m), ok);
    CollectAppend([Recv(m)], step, ReceivedBy<M>);
    CollectAppend([Recv(m)], step, AttemptedBy<M>);
    CollectAppend([Recv(m)], step, DeliveredBy<M>);
    CollectSingle(Recv(m), ReceivedBy<M>);
    CollectSingle(Recv(m), AttemptedBy<M>);
    CollectSingle(Recv(m), DeliveredBy<M>);
    assert BacksOff([Recv(m)]);
    BacksOffAppend([Recv(m)], step);
  }

  lemma DropTraceUnfold<M>(queue: seq<M>, project: M -> Publication, outcomes: seq<bool>)
    requires queue != [] && outcomes != []
    ensures DropTrace(queue, project, outcomes)
         == DropStep(queue[0], project, outcomes[0]) + DropTrace(queue[1..], project, outcomes[1..])
  {
  }

  /** Exactly one publish per received message, in channel order: attempt j is for the
      j-th message, and one attempt is made for each outcome while messages remain. */
  lemma {:induction false} DropAttempts<M>(queue: seq<M>, project: M -> Publication, outcomes: seq<bool>)
    ensures var a := Attempts(DropTrace(queue, project, outcomes));
      |a| == Min(|queue|, |outcomes|) && a == Map(project, queue[..|a|])
    decreases |queue|
  {
    var t := DropTrace(queue, project, outcomes);
    if queue == [] {
    } else if outcomes == [] {
      CollectSingle(Recv(queue[0]), AttemptedBy<M>);
    } else {
      var rest := DropTrace(queue[1..], project, outcomes[1..]);
      DropTraceUnfold(queue, project, outcomes);
      DropStepContents(queue[0], project, outcomes[0]);
      CollectAppend(DropStep(queue[0], project, outcomes[0]), rest, AttemptedBy<M>);
      DropAttempts(queue[1..], project, outcomes[1..]);
      var a' := Attempts(rest);
      assert queue[..|a'| + 1] == [queue[0]] + queue[1..][..|a'|];
      MapCons(project, queue[0], queue[1..][..|a'|]);
    }
  }

  /** The successful publishes are the messages whose single attempt succeeded: an
      order-preserving selection of the channel; failed ones are dropped for good. */
  lemma {:induction false} DropDeliveries<M>(queue: seq<M>, project: M -> Publication, outcomes: seq<bool>)
    ensures Deliveries(DropTrace(queue, project, outcomes)) == Map(project, Kept(queue, outcomes))
    decreases |queue|
  {
    var t := DropTrace(queue, project, outcomes);
    if queue == [] {
    } else if outcomes == [] {
      CollectSingle(Recv(queue[0]), DeliveredBy<M>);
    } else {
      var rest := DropTrace(queue[1..], project, outcomes[1..]);
      DropTraceUnfold(queue, project, outcomes);
      DropStepContents(queue[0], project, outcomes[0]);
      CollectAppend(DropStep(queue[0], project, outcomes[0]), rest, DeliveredBy<M>);
      DropDeliveries(queue[1..], project, outcomes[1..]);
      var k := Kept(queue, outcomes);
      var k' := Kept(queue[1..], outcomes[1..]);
      assert k == (if outcomes[0] then [queue[0]] else []) + k';
      if outcomes[0] {
        MapCons(project, queue[0], k');
      }
    }
  }

  /** The received messages are a prefix of the channel: one per outcome, plus the one
      received when the outcomes ran out. */
  lemma {:induction false} DropReceives<M>(queue: seq<M>, project: M -> Publication, outcomes: seq<bool>)
    ensures var r := Receives(DropTrace(queue, project, outcomes));
      |r| == Min(|queue|, |outcomes| + 1) && r == queue[..|r|]
    decreases |queue|
  {
    var t := DropTrace(queue, project, outcomes);
    if queue == [] {
    } else if outcomes == [] {
      CollectSingle(Recv(queue[0]), ReceivedBy<M>);
    } else {
      var rest := DropTrace(queue[1..], project, outcomes[1..]);
      DropTraceUnfold(queue, project, outcomes);
      DropStepContents(queue[0], project, outcomes[0]);
      CollectAppend(DropStep(queue[0], project, outcomes[0]), rest, ReceivedBy<M>);
      DropReceives(queue[1..], project, outcomes[1..]);
      var r' := Receives(rest);
      assert Receives(t) == [queue[0]] + r';
      assert queue == [queue[0]] + queue[1..];
    }
  }

  lemma {:induction false} DropBacksOff<M>(queue: seq<M>, project: M -> Publication, outcomes: seq<bool>)
    ensures BacksOff(DropTrace(queue, project, outcomes))
    decreases |queue|
  {
    if queue != [] && outcomes != [] {
      DropTraceUnfold(queue, project, outcomes);
      DropStepContents(queue[0], project, outcomes[0]);
      DropBacksOff(queue[1..], project, outcomes[1..]);
      BacksOffAppend(DropStep(queue[0], project, outcomes[0]), DropTrace(queue[1..], project, outcomes[1..]));
    }
  }

  /** The local-bound hop is at-most-once: each message taken off the channel is published
      once, in channel order; what reaches the bus is the order-preserving selection of the
      messages whose attempt succeeded, and the rest are lost; nothing is taken off the
      channel while no client exists. */
  lemma LocalPublisherAtMostOnce<M>(builds: seq<bool>, queue: seq<M>, project: M -> Publication, outcomes: seq<bool>)
    ensures var t := LocalPublisherTrace(builds, queue, project, outcomes);
      var a := Attempts(t);
      var r := Receives(t);
      && |a| <= |queue| && a == Map(project, queue[..|a|])
      && |r| <= |queue| && r == queue[..|r|] && |a| <= |r| <= |a| + 1
      && (true in builds ==> Deliveries(t) == Map(project, Kept(queue, outcomes)))
      && IsSubsequence(Kept(queue, outcomes), queue)
      && (true !in builds ==> r == [] && a == [])
  {
    var b := BuildTrace<M>(builds);
    var rest := if true in builds then DropTrace(queue, project, outcomes) else [];
    BuildTraceQuiet<M>(builds);
    BuildDeliversNothing<M>(builds);
    CollectAppend(b, rest, ReceivedBy<M>);
    CollectAppend(b, rest, AttemptedBy<M>);
    CollectAppend(b, rest, DeliveredBy<M>);
    KeptIsSubsequence(queue, outcomes);
    if true in builds {
      DropAttempts(queue, project, outcomes);
      DropDeliveries(queue, project, outcomes);
      DropReceives(queue, project, outcomes);
    }
  }

  /** Both publishers back off one second after every failed construction or publish. */
  lemma PublishersBackOff<M>(builds: seq<bool>, queue: seq<M>, project: M -> Publication, outcomes: seq<bool>)
    ensures BacksOff(RemotePublisherTrace(builds, queue, project, outcomes))
    ensures BacksOff(LocalPublisherTrace(builds, queue, project, outcomes))
  {
    BuildTraceShape<M>(builds);
    RetryBacksOff(None, queue, project, outcomes);
    DropBacksOff(queue, project, outcomes);
    assert BacksOff<M>([]);
    BacksOffAppend(BuildTrace<M>(builds), if true in builds then RetryTrace(None, queue, project, outcomes) else []);
    BacksOffAppend(BuildTrace<M>(builds), if true in builds then DropTrace(queue, project, outcomes) else []);
  }

  /** The asymmetry between the two hops, on every input whose first publish fails: the
      remote-bound publisher still delivers the head of the queue first once any publish
      succeeds, while the local-bound publisher delivers exactly what it would have
      delivered had the head never been queued, nor that first outcome drawn. */
  lemma HopsDiffer<M>(builds: seq<bool>, queue: seq<M>, project: M -> Publication, outcomes: seq<bool>)
    requires true in builds && queue != [] && outcomes != [] && !outcomes[0]
    ensures var d := Deliveries(RemotePublisherTrace(builds, queue, project, outcomes));
      true in outcomes ==> d != [] && d[0] == project(queue[0])
    ensures Deliveries(LocalPublisherTrace(builds, queue, project, outcomes))
         == Deliveries(LocalPublisherTrace(builds, queue[1..], project, outcomes[1..]))
  {
    RemotePublisherAtLeastOnce(builds, queue, project, outcomes);
    RemotePublisherCounts(builds, queue, project, outcomes);
    var t := RemotePublisherTrace(builds, queue, project, outcomes);
    var n := |Attempts(t)|;
    if true in outcomes && n == |outcomes| {
      assert outcomes[..n] == outcomes;
      CountTruePositive(outcomes);
    }
    LocalPublisherAtMostOnce(builds, queue, project, outcomes);
    LocalPublisherAtMostOnce(builds, queue[1..], project, outcomes[1..]);
    assert Kept(queue, outcomes) == Kept(queue[1..], outcomes[1..]);
  }

  /** The same asymmetry on two messages: the first publish of `a` fails and the second
      call succeeds. The remote-bound publisher retries and delivers `a`; the local-bound
      publisher drops `a` and delivers `b`. */
  lemma HopsDifferExample<M>(a: M, b: M, project: M -> Publication)
    ensures Deliveries(RemotePublisherTrace([true], [a, b], project, [false, true])) == [project(a)]
    ensures Deliveries(LocalPublisherTrace([true], [a, b], project, [false, true])) == [project(b)]
  {
    var o := [false, true];
    assert CountTrue(o[..2]) == 1 && CountTrue(o[..1]) == 0 && CountTrue(o[..0]) == 0 by {
      assert o[..2] == o && o[..1] == [false] && o[..0] == [];
      assert o[1..] == [true] && o[1..][1..] == [];
    }
    RemotePublisherAtLeastOnce([true], [a, b], project, o);
    RemotePublisherCounts([true], [a, b], project, o);
    LocalPublisherAtMostOnce([true], [a, b], project, o);
    assert Kept([a, b], o) == [b] by {
      var tail: seq<M> := [];
      assert [b][1..] == tail && [true][1..] == [];
      assert Kept([b], [true]) == [b] + Kept(tail, []);
      assert [a, b][1..] == [b] && o[1..] == [true];
      assert Kept([a, b], o) == Kept([b], [true]);
    }
  }

  /** Each Ok outcome is one delivery, and the retrying publisher only stops short of its
      outcomes once every pending message is delivered. */
  lemma {:induction false} RetryCounts<M>(inflight: Option<M>, queue: seq<M>, project: M -> Publication, outcomes: seq<bool>)
    ensures var t := RetryTrace(inflight, queue, project, outcomes);
      var n := |Attempts(t)|;
      && n <= |outcomes|
      && |Deliveries(t)| == CountTrue(outcomes[..n])
      && (n == |outcomes| || CountTrue(outcomes[..n]) == |Pending(inflight, queue)|)
    decreases |outcomes|, |queue|
  {
    var t := RetryTrace(inflight, queue, project, outcomes);
    match inflight
    case None =>
      if queue != [] {
        var rest := RetryTrace(Some(queue[0]), queue[1..], project, outcomes);
        RetryCounts(Some(queue[0]), queue[1..], project, outcomes);
        CollectAppend([Recv(queue[0])], rest, AttemptedBy<M>);
        CollectSingle(Recv(queue[0]), AttemptedBy<M>);
        CollectAppend([Recv(queue[0])], rest, DeliveredBy<M>);
        CollectSingle(Recv(queue[0]), DeliveredBy<M>);
        assert Pending(Some(queue[0]), queue[1..]) == Pending(inflight, queue);
      }
    case Some(m) =>
      if outcomes != [] {
        var ok := outcomes[0];
        var head := PublishStep<M>(project(m), ok);
        var next := if ok then None else inflight;
        var rest := RetryTrace(next, queue, project, outcomes[1..]);
        assert t == head + rest;
        RetryCounts(next, queue, project, outcomes[1..]);
        CollectAppend(head, rest, AttemptedBy<M>);
        CollectAppend(head, rest, DeliveredBy<M>);
        PublishStepContents<M>(project(m), ok);
        var n := |Attempts(t)|;
        var n' := |Attempts(rest)|;
        assert n == n' + 1;
        CountTrueCons(outcomes, n);
        if ok {
          assert Pending(next, queue) == Pending(inflight, queue)[1..];
        }
      }
  }

  lemma RemotePublisherCounts<M>(builds: seq<bool>, queue: seq<M>, project: M -> Publication, outcomes: seq<bool>)
    requires true in builds
    ensures var t := RemotePublisherTrace(builds, queue, project, outcomes);
      var n := |Attempts(t)|;
      && n <= |outcomes|
      && |Deliveries(t)| == CountTrue(outcomes[..n])
      && (n == |outcomes| || CountTrue(outcomes[..n]) == |queue|)
  {
    var b := BuildTrace<M>(builds);
    var rest := RetryTrace(None, queue, project, outcomes);
    BuildTraceQuiet<M>(builds);
    BuildDeliversNothing<M>(builds);
    CollectAppend(b, rest, AttemptedBy<M>);
    CollectAppend(b, rest, DeliveredBy<M>);
    RetryCounts(None, queue, project, outcomes);
  }

  /** With a client, the local-bound publisher delivers one message per Ok outcome it
      used, and it uses one outcome per message until either runs out. */
  lemma LocalPublisherCounts<M>(builds: seq<bool>, queue: seq<M>, project: M -> Publication, outcomes: seq<bool>)
    requires true in builds
    ensures |Deliveries(LocalPublisherTrace(builds, queue, project, outcomes))|
         == CountTrue(outcomes[..Min(|queue|, |outcomes|)])
  {
    LocalPublisherAtMostOnce(builds, queue, project, outcomes);
    KeptLength(queue, outcomes);
  }

  // ---------------------------------------------------------------------------
  // Subscribers: `loop { match next_message() { Ok(m) => m, Err(_) => continue }; ... send(m) }`

  /** The message loop of a subscriber; `transform` is what happens to a message between
      reading and sending it. */
  function ReadTrace<M>(incoming: seq<Option<M>>, transform: M -> M): seq<Event<M>>
  {
    if incoming == [] then [] else ReadStep(incoming[0], transform) + ReadTrace(incoming[1..], transform)
  }

  /** One `next_message` call: Err is skipped, Ok(m) sends the transformed message. */
  function ReadStep<M>(r: Option<M>, transform: M -> M): seq<Event<M>>
  {
    if r.Some? then [Send(transform(r.value))] else [ReadFailed]
  }

  /** The whole subscriber thread. */
  function SubscriberTrace<M>(builds: seq<bool>, incoming: seq<Option<M>>, transform: M -> M): seq<Event<M>>
  {
    BuildTrace(builds) + (if true in builds then ReadTrace(incoming, transform) else [])
  }

  /** The message loop of a subscriber once it has a client. */
  method ReadLoop<M>(tx: Channel<M>, transform: M -> M, incoming: seq<Option<M>>)
    returns (trace: seq<Event<M>>)
    modifies tx
    ensures trace == ReadTrace(incoming, transform)
    ensures tx.items == old(tx.items) + Sends(trace)
  {
    ghost var sent0 := tx.items;
    trace := [];
    var i := 0;
    while i < |incoming|
      invariant 0 <= i <= |incoming|
      invariant trace == ReadTrace(incoming[..i], transform)
      invariant tx.items == sent0 + Sends(trace)
    {
      trace := ReadTurn(tx, transform, incoming, i, trace, sent0);
      i := i + 1;
    }
    assert incoming[..i] == incoming;
  }

  /** One turn of a subscriber's message loop, extending the run so far by one read. */
  method ReadTurn<M>(tx: Channel<M>, transform: M -> M, incoming: seq<Option<M>>, i: nat,
                     trace: seq<Event<M>>, ghost sent0: seq<M>)
    returns (trace': seq<Event<M>>)
    requires i < |incoming| && trace == ReadTrace(incoming[..i], transform)
    requires tx.items == sent0 + Sends(trace)
    modifies tx
    ensures trace' == ReadTrace(incoming[..i + 1], transform)
    ensures tx.items == sent0 + Sends(trace')
  {
    var step := ReadOnce(tx, incoming[i], transform);
    ReadTraceSnoc(incoming[..i], incoming[i], transform);
    assert incoming[..i + 1] == incoming[..i] + [incoming[i]];
    CollectAppend(trace, step, SentBy<M>);
    ConcatAssoc(sent0, Sends(trace), Sends(step));
    trace' := trace + step;
  }

  lemma {:induction false} ReadTraceSnoc<M>(incoming: seq<Option<M>>, r: Option<M>, transform: M -> M)
    ensures ReadTrace(incoming + [r], transform) == ReadTrace(incoming, transform) + ReadStep(r, transform)
  {
    if incoming == [] {
      assert [] + [r] == [r];
      assert [r][1..] == [];
    } else {
      assert (incoming + [r])[0] == incoming[0];
      assert (incoming + [r])[1..] == incoming[1..] + [r];
      ReadTraceSnoc(incoming[1..], r, transform);
    }
  }

  method Subscriber<M>(tx: Channel<M>, transform: M -> M, builds: seq<bool>, incoming: seq<Option<M>>)
    returns (trace: seq<Event<M>>)
    modifies tx
    ensures trace == SubscriberTrace(builds, incoming, transform)
    ensures tx.items == old(tx.items) + Sends(trace)
  {
    var built;
    built, trace := Construct(builds);
    BuildTraceQuiet<M>(builds);
    if built {
      var rest := ReadLoop(tx, transform, incoming);
      CollectAppend(trace, rest, SentBy<M>);
      trace := trace + rest;
    } else {
      assert trace + [] == trace;
    }
  }

  /** One iteration of a subscriber's message loop. */
  method ReadOnce<M>(tx: Channel<M>, r: Option<M>, transform: M -> M) returns (events: seq<Event<M>>)
    modifies tx
    ensures events == ReadStep(r, transform)
    ensures tx.items == old(tx.items) + Sends(events)
  {
    match r {
      case None =>
        events := [ReadFailed];
      case Some(m) =>
        var out := transform(m);
        tx.Send(out);
        events := [Send(out)];
    }
    CollectSingle(events[0], SentBy<M>);
  }

  /** A read error sends nothing; each successful read sends exactly one message, in
      read order. */
  lemma {:induction false} ReadSends<M>(incoming: seq<Option<M>>, transform: M -> M)
    ensures Sends(ReadTrace(incoming, transform)) == Map(transform, Somes(incoming))
    ensures Receives(ReadTrace(incoming, transform)) == []
    ensures Attempts(ReadTrace(incoming, transform)) == []
  {
    if incoming != [] {
      var head: seq<Event<M>> := if incoming[0].Some? then [Send(transform(incoming[0].value))] else [ReadFailed];
      var rest := ReadTrace(incoming[1..], transform);
      ReadSends(incoming[1..], transform);
      CollectAppend(head, rest, SentBy<M>);
      CollectAppend(head, rest, ReceivedBy<M>);
      CollectAppend(head, rest, AttemptedBy<M>);
      CollectSingle(head[0], SentBy<M>);
      CollectSingle(head[0], ReceivedBy<M>);
      CollectSingle(head[0], AttemptedBy<M>);
      var s := Sends(ReadTrace(incoming, transform));
      var s' := Sends(rest);
      var ok := Somes(incoming);
      var ok' := Somes(incoming[1..]);
      if incoming[0].Some? {
        assert ok == [incoming[0].value] + ok';
        MapCons(transform, incoming[0].value, ok');
      } else {
        assert ok == ok';
      }
    }
  }

  /** A subscriber sends one message per successful read, transformed and in read order,
      never reads the inbound side, publishes nothing, and sends nothing without a client. */
  lemma SubscriberSendsSuccesses<M>(builds: seq<bool>, incoming: seq<Option<M>>, transform: M -> M)
    ensures var t := SubscriberTrace(builds, incoming, transform);
      && Sends(t) == (if true in builds then Map(transform, Somes(incoming)) else [])
      && Receives(t) == [] && Attempts(t) == []
  {
    var b := BuildTrace<M>(builds);
    var rest := if true in builds then ReadTrace(incoming, transform) else [];
    BuildTraceQuiet<M>(builds);
    ReadSends(incoming, transform);
    CollectAppend(b, rest, SentBy<M>);
    CollectAppend(b, rest, ReceivedBy<M>);
    CollectAppend(b, rest, AttemptedBy<M>);
  }
}
