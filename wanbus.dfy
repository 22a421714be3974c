/**
 * The `nats-wanbus` binary: the same four worker threads as the bridge, without
 * channel or subject roots and without a start-up line. The definition of its
 * local-bus message is not part of this model; the message is modelled with the
 * fields of the library's `NATSMessage` record, whose names match those the binary
 * reads. The remote publisher publishes under the message's `channel`.
 *
 * The remote-to-local hop (`PubNubSubscriber`, `NatsPublisher`, `RemoteToLocal`)
 * is the same model as the bridge's: both binaries run the same code over the
 * remote-bus message. It is repeated here so that each binary's threads stand
 * against that binary's own lines.
 */
module Wanbus {
  import opened Sequences
  import opened Json
  import opened Channels
  import opened Workers
  import Nats
  import PubNub

  /** The remote publish takes the local message's channel and data verbatim. */
  function ToPubNub(m: Nats.Message): Publication
  {
    Publication(m.channel, m.data)
  }

  /** The local subscriber's payload rule, applied to a whole message. */
  function NormalizeMessage(m: Nats.Message, parses: string -> bool, stringify: string -> string): Nats.Message
  {
    m.(data := Normalize(m.data, parses, stringify))
  }

  function Normalizer(parses: string -> bool, stringify: string -> string): Nats.Message -> Nats.Message
  {
    m => NormalizeMessage(m, parses, stringify)
  }

  /** Only `data` can change: it is stringified exactly when it does not parse. */
  lemma NormalizeMessageFields(m: Nats.Message, parses: string -> bool, stringify: string -> string)
    ensures var r := NormalizeMessage(m, parses, stringify);
      && r.channel == m.channel && r.myId == m.myId && r.senderId == m.senderId
      && (parses(m.data) ==> r == m)
      && (!parses(m.data) ==> r.data == stringify(m.data))
  {
  }

  // ---------------------------------------------------------------------------
  // The four threads

  /** Remote subscriber: every message read is queued for the local bus unchanged. */
  method PubNubSubscriber(tx: Channel<PubNub.Message>, builds: seq<bool>, incoming: seq<Option<PubNub.Message>>)
    returns (trace: seq<Event<PubNub.Message>>)
    modifies tx
    ensures trace == SubscriberTrace(builds, incoming, Identity<PubNub.Message>)
    ensures tx.items == old(tx.items) + (if true in builds then Somes(incoming) else [])
  {
    trace := Subscriber(tx, Identity<PubNub.Message>, builds, incoming);
    SubscriberSendsSuccesses(builds, incoming, Identity<PubNub.Message>);
    MapIdentity(Somes(incoming));
  }

  /** Remote publisher: the local messages reach the remote bus as (channel, data), in
      queue order, none skipped. */
  method PubNubPublisher(rx: Channel<Nats.Message>, builds: seq<bool>, outcomes: seq<bool>)
    returns (trace: seq<Event<Nats.Message>>)
    modifies rx
    ensures trace == RemotePublisherTrace(builds, old(rx.items), ToPubNub, outcomes)
    ensures old(rx.items) == Receives(trace) + rx.items
    ensures var d := Deliveries(trace);
      |d| <= |old(rx.items)|
      && forall i :: 0 <= i < |d| ==> d[i] == Publication(old(rx.items)[i].channel, old(rx.items)[i].data)
  {
    ghost var queue := rx.items;
    trace := RemotePublisher(rx, ToPubNub, builds, outcomes);
    RemotePublisherAtLeastOnce(builds, queue, ToPubNub, outcomes);
  }

  /** Local publisher: one attempt per remote message, as (channel, data); what reaches
      the local bus is the messages whose attempt succeeded, in queue order. */
  method NatsPublisher(rx: Channel<PubNub.Message>, builds: seq<bool>, outcomes: seq<bool>)
    returns (trace: seq<Event<PubNub.Message>>)
    modifies rx
    ensures trace == LocalPublisherTrace(builds, old(rx.items), PubNub.ToNats, outcomes)
    ensures old(rx.items) == Receives(trace) + rx.items
    ensures true in builds ==> Deliveries(trace) == Map(PubNub.ToNats, Kept(old(rx.items), outcomes))
    ensures true in builds ==>
      var k := Kept(old(rx.items), outcomes);
      var d := Deliveries(trace);
      |d| == |k| && forall i :: 0 <= i < |d| ==> d[i] == Publication(k[i].channel, k[i].data)
    ensures true !in builds ==> Deliveries(trace) == []
  {
    ghost var queue := rx.items;
    trace := LocalPublisher(rx, PubNub.ToNats, builds, outcomes);
    LocalPublisherAtMostOnce(builds, queue, PubNub.ToNats, outcomes);
    if true !in builds {
      AttemptsCoverDeliveries(trace);
    }
  }

  /** Local subscriber: every message read is queued for the remote bus with its payload
      normalized, and nothing else about it changed. */
  method NatsSubscriber(tx: Channel<Nats.Message>, parses: string -> bool, stringify: string -> string,
                        builds: seq<bool>, incoming: seq<Option<Nats.Message>>)
    returns (trace: seq<Event<Nats.Message>>)
    modifies tx
    ensures trace == SubscriberTrace(builds, incoming, Normalizer(parses, stringify))
    ensures tx.items == old(tx.items) + Sends(trace)
    ensures var s := Sends(trace);
      && |s| == (if true in builds then |Somes(incoming)| else 0)
      && forall i :: 0 <= i < |s| ==> s[i] == NormalizeMessage(Somes(incoming)[i], parses, stringify)
  {
    trace := Subscriber(tx, Normalizer(parses, stringify), builds, incoming);
    SubscriberSendsSuccesses(builds, incoming, Normalizer(parses, stringify));
  }

  // ---------------------------------------------------------------------------
  // End to end

  /** Local to remote: the k-th delivery on the remote bus is the k-th message read from
      the local bus, under its own channel, with its payload normalized; none is skipped. */
  lemma LocalToRemote(subscriberBuilds: seq<bool>, incoming: seq<Option<Nats.Message>>,
                      parses: string -> bool, stringify: string -> string,
                      publisherBuilds: seq<bool>, outcomes: seq<bool>)
    ensures var queued := Sends(SubscriberTrace(subscriberBuilds, incoming, Normalizer(parses, stringify)));
      var d := Deliveries(RemotePublisherTrace(publisherBuilds, queued, ToPubNub, outcomes));
      var read := Somes(incoming);
      && |d| <= |read|
      && forall i :: 0 <= i < |d| ==> d[i] == Publication(read[i].channel, Normalize(read[i].data, parses, stringify))
  {
    var queued := Sends(SubscriberTrace(subscriberBuilds, incoming, Normalizer(parses, stringify)));
    SubscriberSendsSuccesses(subscriberBuilds, incoming, Normalizer(parses, stringify));
    RemotePublisherAtLeastOnce(publisherBuilds, queued, ToPubNub, outcomes);
  }

  /** Every payload delivered on the remote bus parses, given that stringified text does. */
  lemma LocalToRemoteDeliversJson(subscriberBuilds: seq<bool>, incoming: seq<Option<Nats.Message>>,
                                  parses: string -> bool, stringify: string -> string,
                                  publisherBuilds: seq<bool>, outcomes: seq<bool>)
    requires forall s :: parses(stringify(s))
    ensures var queued := Sends(SubscriberTrace(subscriberBuilds, incoming, Normalizer(parses, stringify)));
      var d := Deliveries(RemotePublisherTrace(publisherBuilds, queued, ToPubNub, outcomes));
      forall i :: 0 <= i < |d| ==> parses(d[i].data)
  {
    LocalToRemote(subscriberBuilds, incoming, parses, stringify, publisherBuilds, outcomes);
    var queued := Sends(SubscriberTrace(subscriberBuilds, incoming, Normalizer(parses, stringify)));
    var d := Deliveries(RemotePublisherTrace(publisherBuilds, queued, ToPubNub, outcomes));
    var read := Somes(incoming);
    forall i | 0 <= i < |d| ensures parses(d[i].data) {
      NormalizeYieldsJson(read[i].data, parses, stringify);
    }
  }

  /** Remote to local: what reaches the local bus is the messages read from the remote
      bus whose one publish succeeded, in read order, each under its channel. */
  lemma RemoteToLocal(subscriberBuilds: seq<bool>, incoming: seq<Option<PubNub.Message>>,
                      publisherBuilds: seq<bool>, outcomes: seq<bool>)
    requires true in subscriberBuilds && true in publisherBuilds
    ensures var queued := Sends(SubscriberTrace(subscriberBuilds, incoming, Identity<PubNub.Message>));
      var d := Deliveries(LocalPublisherTrace(publisherBuilds, queued, PubNub.ToNats, outcomes));
      && d == Map(PubNub.ToNats, Kept(Somes(incoming), outcomes))
      && IsSubsequence(Kept(Somes(incoming), outcomes), Somes(incoming))
  {
    var queued := Sends(SubscriberTrace(subscriberBuilds, incoming, Identity<PubNub.Message>));
    SubscriberSendsSuccesses(subscriberBuilds, incoming, Identity<PubNub.Message>);
    MapIdentity(Somes(incoming));
    LocalPublisherAtMostOnce(publisherBuilds, queued, PubNub.ToNats, outcomes);
  }
}
