/**
 * The `nats-bridge` binary: its configuration record and the dashboard line it
 * prints, the message types of its two buses, and its four worker threads as
 * instances of the generic workers, with the field mappings each hop applies.
 */
module Bridge {
  import opened Sequences
  import opened Format
  import opened Json
  import opened Channels
  import opened Workers
  import PubNub

  /** The configuration record; reading it from the environment is not modelled. */
  datatype Configuration = Configuration(
    natsHost: string,
    natsSubject: string,
    natsSubjectRoot: string,
    pubnubHost: string,
    pubnubChannel: string,
    pubnubChannelRoot: string,
    publishKey: string,
    subscribeKey: string,
    secretKey: string)

  // ---------------------------------------------------------------------------
  // The dashboard address (`Display for Configuration`)

  /** `"{root}.{channel}"`, arguments (root, channel). */
  const QualifiedTemplate: seq<Piece> := [Hole(0), Lit("."), Hole(1)]

  /** The remote channel the dashboard shows: namespaced by the root when there is one. */
  function DashboardChannel(c: Configuration): (ch: string)
    ensures ch == c.pubnubChannel <==> c.pubnubChannelRoot == []
    ensures c.pubnubChannelRoot != [] ==> ch == c.pubnubChannelRoot + "." + c.pubnubChannel
  {
    if c.pubnubChannelRoot == [] then c.pubnubChannel
    else
      QualifiedText(c.pubnubChannelRoot, c.pubnubChannel);
      Render(QualifiedTemplate, [c.pubnubChannelRoot, c.pubnubChannel])
  }

  lemma QualifiedText(root: string, channel: string)
    ensures Closed(QualifiedTemplate, [root, channel])
    ensures Render(QualifiedTemplate, [root, channel]) == root + "." + channel
  {
    RenderTriple(QualifiedTemplate, [root, channel]);
  }

  /** `"{proto}://{domain}/{url}?channel={channel}&sub={sub}&pub={pub}"`. */
  const DashboardTemplate: seq<Piece> := [
    Hole(ProtoArg), Lit("://"), Hole(DomainArg), Lit("/"), Hole(UrlArg),
    Lit("?channel="), Hole(ChannelArg), Lit("&sub="), Hole(SubArg), Lit("&pub="), Hole(PubArg)]

  const ProtoArg: nat := 0
  const DomainArg: nat := 1
  const UrlArg: nat := 2
  const ChannelArg: nat := 3
  const SubArg: nat := 4
  const PubArg: nat := 5

  const Protocol: string := "https"
  const Domain: string := "www.pubnub.com"
  const ConsolePath: string := "/docs/console"

  function DashboardArgs(c: Configuration): seq<string>
  {
    [Protocol, Domain, ConsolePath, DashboardChannel(c), c.subscribeKey, c.publishKey]
  }

  function Dashboard(c: Configuration): string
  {
    DashboardClosed(c);
    Render(DashboardTemplate, DashboardArgs(c))
  }

  lemma DashboardClosed(c: Configuration)
    ensures Closed(DashboardTemplate, DashboardArgs(c))
  {
  }

  /** The exact dashboard address. The path keeps the double slash that the template's
      `/` and the path's own leading `/` make together. */
  lemma DashboardUrl(c: Configuration)
    ensures Dashboard(c)
         == "https://www.pubnub.com//docs/console?channel=" + DashboardChannel(c)
          + "&sub=" + c.subscribeKey + "&pub=" + c.publishKey
  {
    var query := DashboardChannel(c) + ("&sub=" + (c.subscribeKey + ("&pub=" + c.publishKey)));
    DashboardPieces(c);
    UrlPrefix(query);
    ConcatAssoc(DashboardChannel(c) + "&sub=", c.subscribeKey, "&pub=" + c.publishKey);
    ConcatAssoc(DashboardChannel(c), "&sub=", c.subscribeKey + ("&pub=" + c.publishKey));
    ConcatAssoc(DashboardChannel(c) + "&sub=" + c.subscribeKey, "&pub=", c.publishKey);
    var p := "https://www.pubnub.com//docs/console?channel=";
    ConcatAssoc(p, DashboardChannel(c), "&sub=");
    ConcatAssoc(p + DashboardChannel(c), "&sub=", c.subscribeKey);
    ConcatAssoc(p + DashboardChannel(c) + "&sub=", c.subscribeKey, "&pub=");
    ConcatAssoc(p + DashboardChannel(c) + "&sub=" + c.subscribeKey, "&pub=", c.publishKey);
    ConcatAssoc(p, DashboardChannel(c) + "&sub=" + c.subscribeKey + "&pub=", c.publishKey);
    ConcatAssoc(p, DashboardChannel(c) + "&sub=" + c.subscribeKey, "&pub=");
    ConcatAssoc(p, DashboardChannel(c) + "&sub=", c.subscribeKey);
    ConcatAssoc(p, DashboardChannel(c), "&sub=");
  }

  /** The template rendered piece by piece. */
  lemma DashboardPieces(c: Configuration)
    ensures Dashboard(c)
         == Protocol + ("://" + (Domain + ("/" + (ConsolePath + ("?channel=" + (DashboardChannel(c)
          + ("&sub=" + (c.subscribeKey + ("&pub=" + c.publishKey)))))))))
  {
    var args := DashboardArgs(c);
    var t := DashboardTemplate;
    DashboardClosed(c);
    assert t[11..] == [];
    RenderFrom(t, 10, args);
    var pub := c.publishKey;
    assert Render(t[10..], args) == pub;
    RenderFrom(t, 9, args);
    var q9 := "&pub=" + pub;
    assert Render(t[9..], args) == q9;
    RenderFrom(t, 8, args);
    var q8 := c.subscribeKey + q9;
    assert Render(t[8..], args) == q8;
    RenderFrom(t, 7, args);
    var q7 := "&sub=" + q8;
    assert Render(t[7..], args) == q7;
    RenderFrom(t, 6, args);
    var q6 := DashboardChannel(c) + q7;
    assert Render(t[6..], args) == q6;
    RenderFrom(t, 5, args);
    var q5 := "?channel=" + q6;
    assert Render(t[5..], args) == q5;
    RenderFrom(t, 4, args);
    var q4 := ConsolePath + q5;
    assert Render(t[4..], args) == q4;
    RenderFrom(t, 3, args);
    var q3 := "/" + q4;
    assert Render(t[3..], args) == q3;
    RenderFrom(t, 2, args);
    var q2 := Domain + q3;
    assert Render(t[2..], args) == q2;
    RenderFrom(t, 1, args);
    var q1 := "://" + q2;
    assert Render(t[1..], args) == q1;
    RenderFrom(t, 0, args);
    assert t[0..] == t;
  }

  /** The fixed part of the address, up to the channel. */
  lemma UrlPrefix(query: string)
    ensures Protocol + ("://" + (Domain + ("/" + (ConsolePath + ("?channel=" + query)))))
         == "https://www.pubnub.com//docs/console?channel=" + query
  {
    var p1 := Protocol + "://";
    var p2 := p1 + Domain;
    var p3 := p2 + "/";
    var p4 := p3 + ConsolePath;
    ConcatAssoc(p4, "?channel=", query);
    ConcatAssoc(p3, ConsolePath, "?channel=" + query);
    ConcatAssoc(p2, "/", ConsolePath + ("?channel=" + query));
    ConcatAssoc(p1, Domain, "/" + (ConsolePath + ("?channel=" + query)));
    ConcatAssoc(Protocol, "://", Domain + ("/" + (ConsolePath + ("?channel=" + query))));
    UrlLiteral();
  }

  lemma UrlLiteral()
    ensures Protocol + "://" + Domain + "/" + ConsolePath + "?channel="
         == "https://www.pubnub.com//docs/console?channel="
  {
    assert "https" + "://" == "https://";
    assert "https://" + "www.pubnub.com" == "https://www.pubnub.com";
    assert "https://www.pubnub.com" + "/" == "https://www.pubnub.com/";
    assert "https://www.pubnub.com/" + "/docs/console" == "https://www.pubnub.com//docs/console";
    assert "https://www.pubnub.com//docs/console" + "?channel=" == "https://www.pubnub.com//docs/console?channel=";
  }

  /** `"{{\"info\":\"Dashboard: {}\"}}"`: the doubled braces stand for literal braces. */
  const InfoTemplate: seq<Piece> := [Lit("{\"info\":\"Dashboard: "), Hole(0), Lit("\"}")]

  /** The line printed at start-up; `println!` ends it with a newline. */
  function InfoLine(c: Configuration): string
  {
    assert Closed(InfoTemplate, [Dashboard(c)]);
    Render(InfoTemplate, [Dashboard(c)]) + "\n"
  }

  /** The start-up line is a one-field JSON object whose value is "Dashboard: " and the
      dashboard address, inserted as it is; the address can be read back from between
      the fixed 20-character head and the 3-character tail. */
  lemma InfoLineText(c: Configuration)
    ensures InfoLine(c) == "{\"info\":\"Dashboard: " + Dashboard(c) + "\"}\n"
    ensures |InfoLine(c)| == |Dashboard(c)| + 23
    ensures InfoLine(c)[20..|InfoLine(c)| - 3] == Dashboard(c)
  {
    var d := Dashboard(c);
    RenderTriple(InfoTemplate, [d]);
    ConcatAssoc("{\"info\":\"Dashboard: " + d, "\"}", "\n");
    var l := InfoLine(c);
    assert l[20..|l| - 3] == d;
  }

  // ---------------------------------------------------------------------------
  // Messages and the mapping applied by each hop

  /** The local-bus message the bridge's clients produce and consume; its defining file
      is not part of this model. The threads read only `subject` and `data`; whatever
      else the message carries is held in `rest`, which nothing reads. */
  datatype NatsMessage = NatsMessage(subject: string, data: string, rest: seq<string>)

  /** The remote publish takes the local message's subject and data verbatim. */
  function ToPubNub(m: NatsMessage): Publication
  {
    Publication(m.subject, m.data)
  }

  /** The local subscriber's payload rule, applied to a whole message. */
  function NormalizeMessage(m: NatsMessage, parses: string -> bool, stringify: string -> string): NatsMessage
  {
    m.(data := Normalize(m.data, parses, stringify))
  }

  function Normalizer(parses: string -> bool, stringify: string -> string): NatsMessage -> NatsMessage
  {
    m => NormalizeMessage(m, parses, stringify)
  }

  /** Only `data` can change: it is stringified exactly when it does not parse. */
  lemma NormalizeMessageFields(m: NatsMessage, parses: string -> bool, stringify: string -> string)
    ensures var r := NormalizeMessage(m, parses, stringify);
      && r.subject == m.subject && r.rest == m.rest
      && (parses(m.data) ==> r == m)
      && (!parses(m.data) ==> r.data == stringify(m.data))
  {
  }

  // ---------------------------------------------------------------------------
  // The four threads

  /** Remote subscriber: every message read is queued for the local bus unchanged. */
  method PubNubSubscriber(tx: Channel<PubNub.Message>, builds: seq<bool>, incoming: seq<Option<PubNub.Message>>)
    returns (trace: seq<Event<PubNub.Message>>)
    modifies tx
    ensures trace == SubscriberTrace(builds, incoming, Identity<PubNub.Message>)
    ensures tx.items == old(tx.items) + (if true in builds then Somes(incoming) else [])
  {
    trace := Subscriber(tx, Identity<PubNub.Message>, builds, incoming);
    SubscriberSendsSuccesses(builds, incoming, Identity<PubNub.Message>);
    MapIdentity(Somes(incoming));
  }

  /** Remote publisher: the local messages reach the remote bus as (subject, data), in
      queue order, none skipped. */
  method PubNubPublisher(rx: Channel<NatsMessage>, builds: seq<bool>, outcomes: seq<bool>)
    returns (trace: seq<Event<NatsMessage>>)
    modifies rx
    ensures trace == RemotePublisherTrace(builds, old(rx.items), ToPubNub, outcomes)
    ensures old(rx.items) == Receives(trace) + rx.items
    ensures var d := Deliveries(trace);
      |d| <= |old(rx.items)|
      && forall i :: 0 <= i < |d| ==> d[i] == Publication(old(rx.items)[i].subject, old(rx.items)[i].data)
  {
    ghost var queue := rx.items;
    trace := RemotePublisher(rx, ToPubNub, builds, outcomes);
    RemotePublisherAtLeastOnce(builds, queue, ToPubNub, outcomes);
  }

  /** Local publisher: one attempt per remote message, as (channel, data); what reaches
      the local bus is the messages whose attempt succeeded, in queue order. */
  method NatsPublisher(rx: Channel<PubNub.Message>, builds: seq<bool>, outcomes: seq<bool>)
    returns (trace: seq<Event<PubNub.Message>>)
    modifies rx
    ensures trace == LocalPublisherTrace(builds, old(rx.items), PubNub.ToNats, outcomes)
    ensures old(rx.items) == Receives(trace) + rx.items
    ensures true in builds ==> Deliveries(trace) == Map(PubNub.ToNats, Kept(old(rx.items), outcomes))
    ensures true in builds ==>
      var k := Kept(old(rx.items), outcomes);
      var d := Deliveries(trace);
      |d| == |k| && forall i :: 0 <= i < |d| ==> d[i] == Publication(k[i].channel, k[i].data)
    ensures true !in builds ==> Deliveries(trace) == []
  {
    ghost var queue := rx.items;
    trace := LocalPublisher(rx, PubNub.ToNats, builds, outcomes);
    LocalPublisherAtMostOnce(builds, queue, PubNub.ToNats, outcomes);
    if true !in builds {
      AttemptsCoverDeliveries(trace);
    }
  }

  /** Local subscriber: every message read is queued for the remote bus with its payload
      normalized, and nothing else about it changed. */
  method NatsSubscriber(tx: Channel<NatsMessage>, parses: string -> bool, stringify: string -> string,
                        builds: seq<bool>, incoming: seq<Option<NatsMessage>>)
    returns (trace: seq<Event<NatsMessage>>)
    modifies tx
    ensures trace == SubscriberTrace(builds, incoming, Normalizer(parses, stringify))
    ensures tx.items == old(tx.items) + Sends(trace)
    ensures var s := Sends(trace);
      && |s| == (if true in builds then |Somes(incoming)| else 0)
      && forall i :: 0 <= i < |s| ==> s[i] == NormalizeMessage(Somes(incoming)[i], parses, stringify)
  {
    trace := Subscriber(tx, Normalizer(parses, stringify), builds, incoming);
    SubscriberSendsSuccesses(builds, incoming, Normalizer(parses, stringify));
  }

  /** What the local subscriber queues always parses, given that stringified text does. */
  lemma NatsSubscriberSendsJson(builds: seq<bool>, incoming: seq<Option<NatsMessage>>,
                                parses: string -> bool, stringify: string -> string)
    requires forall s :: parses(stringify(s))
    ensures var s := Sends(SubscriberTrace(builds, incoming, Normalizer(parses, stringify)));
      forall i :: 0 <= i < |s| ==> parses(s[i].data)
  {
    SubscriberSendsSuccesses(builds, incoming, Normalizer(parses, stringify));
    var s := Sends(SubscriberTrace(builds, incoming, Normalizer(parses, stringify)));
    forall i | 0 <= i < |s| ensures parses(s[i].data) {
      NormalizeYieldsJson(Somes(incoming)[i].data, parses, stringify);
    }
  }

  /** Local to remote, end to end: the k-th delivery on the remote bus is the k-th
      message read from the local bus, under its own subject, with its payload
      normalized; none is skipped. */
  lemma LocalToRemote(subscriberBuilds: seq<bool>, incoming: seq<Option<NatsMessage>>,
                      parses: string -> bool, stringify: string -> string,
                      publisherBuilds: seq<bool>, outcomes: seq<bool>)
    ensures var queued := Sends(SubscriberTrace(subscriberBuilds, incoming, Normalizer(parses, stringify)));
      var d := Deliveries(RemotePublisherTrace(publisherBuilds, queued, ToPubNub, outcomes));
      var read := Somes(incoming);
      && |d| <= |read|
      && forall i :: 0 <= i < |d| ==> d[i] == Publication(read[i].subject, Normalize(read[i].data, parses, stringify))
  {
    var queued := Sends(SubscriberTrace(subscriberBuilds, incoming, Normalizer(parses, stringify)));
    SubscriberSendsSuccesses(subscriberBuilds, incoming, Normalizer(parses, stringify));
    RemotePublisherAtLeastOnce(publisherBuilds, queued, ToPubNub, outcomes);
  }

  /** Remote to local, end to end: what reaches the local bus is the messages read from
      the remote bus whose one publish succeeded, in read order, each under its channel. */
  lemma RemoteToLocal(subscriberBuilds: seq<bool>, incoming: seq<Option<PubNub.Message>>,
                      publisherBuilds: seq<bool>, outcomes: seq<bool>)
    requires true in subscriberBuilds && true in publisherBuilds
    ensures var queued := Sends(SubscriberTrace(subscriberBuilds, incoming, Identity<PubNub.Message>));
      var d := Deliveries(LocalPublisherTrace(publisherBuilds, queued, PubNub.ToNats, outcomes));
      && d == Map(PubNub.ToNats, Kept(Somes(incoming), outcomes))
      && IsSubsequence(Kept(Somes(incoming), outcomes), Somes(incoming))
  {
    var queued := Sends(SubscriberTrace(subscriberBuilds, incoming, Identity<PubNub.Message>));
    SubscriberSendsSuccesses(subscriberBuilds, incoming, Identity<PubNub.Message>);
    MapIdentity(Somes(incoming));
    LocalPublisherAtMostOnce(publisherBuilds, queued, PubNub.ToNats, outcomes);
  }
}
