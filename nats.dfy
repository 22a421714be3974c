/**
 * The stub local-bus client `NATS`: a record of the subscribed channel and of the
 * socket built for the host, and the one frame `subscribe` produces. The socket
 * library it builds on is not part of this model; only the socket's name, host and
 * policy are recorded.
 */
module Nats {
  import opened Sequences
  import opened Format

  newtype u64 = x: int | 0 <= x < 0x1_0000_0000_0000_0000

  /** `NATSSocketPolicy`; its callbacks only print and are not modelled. */
  datatype SocketPolicy = SocketPolicy(channel: string, clientId: u64)

  datatype Socket = Socket(name: string, host: string, policy: SocketPolicy)

  /** `NATS`: the channel and the socket. Nothing updates either field after `new`. */
  datatype Client = Client(channel: string, socket: Socket)

  /** `NATSMessage`. */
  datatype Message = Message(channel: string, myId: string, senderId: string, data: string)

  const SocketName: string := "NATS"
  const InitialClientId: u64 := 0

  /** `NATS::new(host, channel)`. */
  function New(host: string, channel: string): Client
  {
    Client(channel, Socket(SocketName, host, SocketPolicy(channel, InitialClientId)))
  }

  /** `new` keeps the channel verbatim, names the socket "NATS", connects it to the given
      host, and gives the policy the same channel and client id 0. */
  lemma NewStores(host: string, channel: string)
    ensures New(host, channel).channel == channel
    ensures New(host, channel).socket.name == "NATS" && New(host, channel).socket.host == host
    ensures New(host, channel).socket.policy == SocketPolicy(channel, 0)
  {
  }

  /** Clients built from different hosts or channels differ. */
  lemma NewInjective(h1: string, c1: string, h2: string, c2: string)
    ensures New(h1, c1) == New(h2, c2) <==> h1 == h2 && c1 == c2
  {
    if New(h1, c1) == New(h2, c2) {
      assert New(h1, c1).socket.host == New(h2, c2).socket.host;
    }
  }

  /** The `SUB <subject> <sid>` frame of the local-bus protocol, subscription id 1. */
  const SubscribeTemplate: seq<Piece> := [Lit("SUB "), Hole(0), Lit(" 1\r\n")]

  function SubscribeFrame(n: Client): (frame: string)
    ensures frame == "SUB " + n.channel + " 1\r\n"
  {
    var args := [n.channel];
    SubscribeFrameText(n.channel);
    Render(SubscribeTemplate, args)
  }

  lemma SubscribeFrameText(channel: string)
    ensures Closed(SubscribeTemplate, [channel])
    ensures Render(SubscribeTemplate, [channel]) == "SUB " + channel + " 1\r\n"
  {
    RenderTriple(SubscribeTemplate, [channel]);
  }

  /** The channel a well-formed subscription frame names; the inverse of SubscribeFrame. */
  ghost function SubscribedChannel(frame: string): Option<string>
  {
    if |frame| >= 8 && frame[..4] == "SUB " && frame[|frame| - 4..] == " 1\r\n"
    then Some(frame[4..|frame| - 4])
    else None
  }

  /** The frame carries exactly the client's channel between its fixed head and tail. */
  lemma SubscribeFrameRoundTrip(n: Client)
    ensures |SubscribeFrame(n)| == |n.channel| + 8
    ensures SubscribedChannel(SubscribeFrame(n)) == Some(n.channel)
  {
    var f := SubscribeFrame(n);
    assert f[..4] == "SUB ";
    assert f[|f| - 4..] == " 1\r\n";
    assert f[4..|f| - 4] == n.channel;
  }

  /** Only the subscription frame of a client's channel names that channel. */
  lemma SubscribedChannelSound(frame: string, n: Client)
    requires SubscribedChannel(frame) == Some(n.channel)
    ensures frame == SubscribeFrame(n)
  {
    assert frame == frame[..4] + frame[4..|frame| - 4] + frame[|frame| - 4..];
  }

  /** What `subscribe` leaves behind and what it prints: the client is unchanged, and
      `println!` writes the frame followed by a newline. */
  datatype Subscribed = Subscribed(client: Client, output: string)

  function Subscribe(n: Client): Subscribed
  {
    Subscribed(n, SubscribeFrame(n) + "\n")
  }

  /** `subscribe` touches neither the channel nor the socket, and prints one SUB frame
      for the channel. */
  lemma SubscribeKeepsClient(n: Client)
    ensures Subscribe(n).client.channel == n.channel
    ensures Subscribe(n).client.socket == n.socket
    ensures Subscribe(n).output == SubscribeFrame(n) + "\n"
    ensures SubscribedChannel(Subscribe(n).output[..|Subscribe(n).output| - 1]) == Some(n.channel)
  {
    var out := Subscribe(n).output;
    assert out[..|out| - 1] == SubscribeFrame(n);
    SubscribeFrameRoundTrip(n);
  }

  /** The repository's two tests, `create_ok` and `subscribe_ok`. */
  lemma CreateAndSubscribeOk()
    ensures var n := New("0.0.0.0:4222", "demo-channel");
      && n.socket.host == "0.0.0.0:4222" && n.channel == "demo-channel"
      && Subscribe(n).client.socket.host == "0.0.0.0:4222" && Subscribe(n).client.channel == "demo-channel"
      && Subscribe(n).output == "SUB demo-channel 1\r\n\n"
  {
  }
}
