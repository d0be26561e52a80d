/** A client: a named peer that accepts a bounded number of Posts and is
    bound once, by a handshake, to the server it talks to. */
module Clients {
  import opened Comms
  import opened Messages
  import Decimal

  datatype Client = Client(name: string, postCount: nat, limit: nat, connectedServer: Option<string>)
  {
    /** The resting states of a client: never more Posts than its limit. */
    predicate WithinLimit() {
      postCount <= limit
    }
  }

  /** A fresh client: no Posts received and not bound to any server. */
  function New(name: string, limit: nat): (c: Client)
    ensures c.name == name && c.limit == limit
    ensures c.postCount == 0 && c.connectedServer == None
    ensures c.WithinLimit()
  {
    Client(name, 0, limit, None)
  }

  /** What `receive` returns, together with the client as it is afterwards. */
  datatype Reply = Reply(result: Result<Option<string>>, client: Client)

  /** The client consumes one message. Name and limit never change, a failed
      message leaves the client as it was, only an accepted Post moves the
      count (by one), a binding once made is kept, and the limit is kept. */
  function Receive(c: Client, msg: Message): (r: Reply)
    ensures r.client.name == c.name && r.client.limit == c.limit
    ensures r.result.Err? ==> r.client == c
    ensures r.client.postCount == (if msg.msgType == Post && r.result.Ok? then c.postCount + 1 else c.postCount)
    ensures c.connectedServer.Some? ==> r.client.connectedServer == c.connectedServer
    ensures msg.msgType != Handshake ==> r.client.connectedServer == c.connectedServer
    ensures c.WithinLimit() ==> r.client.WithinLimit()
  {
    match msg.msgType
    case Handshake =>
      if c.connectedServer.Some? then
        Reply(Err(UnexpectedHandshake(c.name, c.connectedServer.value)), c)
      else
        Reply(Ok(None), c.(connectedServer := Some(msg.load)))
    case Post =>
      if c.postCount >= c.limit then
        Reply(Err(CannotIngest(c.name)), c)
      else
        Reply(Ok(None), c.(postCount := c.postCount + 1))
    case Get =>
      Reply(Ok(Some(Decimal.Show(c.postCount))), c)
  }

  /** The first Handshake binds the client to its load and answers nothing;
      every later one is refused, naming the server already bound, and
      rebinds nothing. */
  lemma HandshakeBindsOnce(c: Client, load: string)
    ensures var r := Receive(c, Message(Handshake, load));
      && (r.result.Ok? <==> c.connectedServer.None?)
      && (c.connectedServer.None? ==>
            r.result == Ok(None) && r.client == c.(connectedServer := Some(load)))
      && (c.connectedServer.Some? ==>
            && r.result == Err(UnexpectedHandshake(c.name, c.connectedServer.value))
            && Text(r.result.error) == "Client '" + c.name + "' received unexpected handshake. Already connected to '" + c.connectedServer.value + "'."
            && r.client == c)
  {
  }

  /** Get always succeeds and changes nothing; its answer is the decimal
      text of the Post count, which reads back as that count. */
  lemma GetReportsCount(c: Client, load: string)
    ensures var r := Receive(c, Message(Get, load));
      && r.result == Ok(Some(Decimal.Show(c.postCount)))
      && Decimal.AllDigits(r.result.value.value)
      && Decimal.Value(r.result.value.value) == c.postCount
      && r.client == c
  {
    Decimal.ValueOfShow(c.postCount);
  }

  /** A Post is accepted exactly while the count is below the limit; at the
      limit it is refused with the capacity message. */
  lemma PostCapacity(c: Client, load: string)
    ensures var r := Receive(c, Message(Post, load));
      && (r.result.Ok? <==> c.postCount < c.limit)
      && (r.result.Ok? ==> r.result.value == None && r.client == c.(postCount := c.postCount + 1))
      && (c.postCount == c.limit ==>
            && r.result == Err(CannotIngest(c.name))
            && Text(r.result.error) == "Client '" + c.name + "' cannot ingest more messages.")
  {
  }

  /** Feeds a sequence of messages to a client, one `Receive` at a time,
      ignoring the answers. */
  function Deliver(c: Client, msgs: seq<Message>): Client
    decreases |msgs|
  {
    if msgs == [] then c else Deliver(Receive(c, msgs[0]).client, msgs[1..])
  }

  /** The number of Posts in a sequence of messages. */
  function Posts(msgs: seq<Message>): nat {
    if msgs == [] then 0 else (if msgs[0].msgType == Post then 1 else 0) + Posts(msgs[1..])
  }

  /** The load of the first Handshake in a sequence of messages, if any. */
  function FirstHandshake(msgs: seq<Message>): Option<string> {
    if msgs == [] then None
    else if msgs[0].msgType == Handshake then Some(msgs[0].load)
    else FirstHandshake(msgs[1..])
  }

  /** Over any sequence of messages a client within its limit accepts Posts
      until the limit and refuses the rest, so the count ends at the number
      of Posts sent, capped by the limit; and the server it ends up bound to
      is the one it was bound to, or else the first Handshake's. */
  lemma {:induction false} DeliverAcceptsUpToLimit(c: Client, msgs: seq<Message>)
    requires c.WithinLimit()
    decreases |msgs|
    ensures var d := Deliver(c, msgs);
      && d.name == c.name && d.limit == c.limit
      && d.postCount == (if c.postCount + Posts(msgs) <= c.limit then c.postCount + Posts(msgs) else c.limit)
      && d.connectedServer == (if c.connectedServer.Some? then c.connectedServer else FirstHandshake(msgs))
  {
    if msgs != [] {
      var c' := Receive(c, msgs[0]).client;
      if msgs[0].msgType == Post {
        PostCapacity(c, msgs[0].load);
      }
      DeliverAcceptsUpToLimit(c', msgs[1..]);
    }
  }

  /** The client exchange of the source's unit test: bind to "localhost",
      refuse a second handshake, report "0", accept one Post and refuse the
      next at limit 1. */
  lemma ClientExchange()
    ensures var c0 := New("TestClient", 1);
      var r1 := Receive(c0, Message(Handshake, "localhost"));
      var r2 := Receive(r1.client, Message(Handshake, "localhost"));
      var r3 := Receive(r2.client, Message(Get, ""));
      var r4 := Receive(r3.client, Message(Post, "The tale begins..."));
      var r5 := Receive(r4.client, Message(Post, "...and quickly ends."));
      && c0.connectedServer == None
      && r1.result == Ok(None) && r1.client.postCount == 0
      && r1.client.connectedServer == Some("localhost")
      && r2.result.Err?
      && Text(r2.result.error)
         == "Client '" + "TestClient" + "' received unexpected handshake. Already connected to '" + "localhost" + "'."
      && r3.result == Ok(Some("0")) && r3.client.postCount == 0
      && r4.result == Ok(None) && r4.client.postCount == 1
      && r5.result.Err?
      && Text(r5.result.error) == "Client '" + "TestClient" + "' cannot ingest more messages."
  {
  }
}
