/** The server: its own address and a table from peer address to the state
    of the connection with that peer. The table operations are first given
    as functions on table values (the specification), then as the methods
    of `Server`, which update its table in place. */
module Servers {
  import opened Comms
  import opened Messages
  import opened Clients

  /** The state of one connection. Only an open one routes messages; a
      halted one keeps its client for inspection. */
  datatype Connection = Closed | Halted(client: Client) | Open(client: Client)

  type Table = map<string, Connection>

  /** What a table operation returns, together with the table afterwards. */
  datatype Step<+T> = Step(result: Result<T>, table: Table)

  /** `is_open`: the connection exists and is open, which is exactly when a
      Get sent there is routed to a client and answered. */
  predicate IsOpenIn(t: Table, addr: string): (b: bool)
    ensures b <==> SendIn(t, addr, Message(Get, "")).result.Ok?
  {
    addr in t && t[addr].Open?
  }

  function HaltedIn(t: Table): (hs: set<string>)
    ensures hs <= t.Keys
  {
    set a | a in t && t[a].Halted?
  }

  /** The number of halted connections. */
  function CountHaltedIn(t: Table): (n: nat)
    ensures n <= |t|
    ensures n == 0 <==> forall a :: a in t ==> !t[a].Halted?
  {
    var hs := HaltedIn(t);
    assert t.Keys == hs + (t.Keys - hs);
    assert |t.Keys| == |t|;
    assert (forall a :: a in t ==> !t[a].Halted?) ==> hs == {};
    |hs|
  }

  /** Every client the table holds is bound to the server at `ip`. */
  ghost predicate BoundTo(t: Table, ip: string) {
    forall a :: a in t && !t[a].Closed? ==> t[a].client.connectedServer == Some(ip)
  }

  /** Every client the table holds is within its Post limit. */
  ghost predicate WithinLimits(t: Table) {
    forall a :: a in t && !t[a].Closed? ==> t[a].client.WithinLimit()
  }

  /** `open`: an address already in the table, in whatever state, is refused
      and the table kept; otherwise the server's handshake is sent to the
      client, and if the client accepts it, it is stored as open, bound to
      the server. */
  function OpenIn(t: Table, ip: string, addr: string, client: Client): (s: Step<()>)
    ensures addr in t ==> s == Step(Err(AlreadyExists(addr)), t)
    ensures s.result.Ok? <==> addr !in t && client.connectedServer.None?
    ensures s.result.Ok? ==> s.table == t[addr := Open(client.(connectedServer := Some(ip)))]
    ensures addr !in t && client.connectedServer.Some? ==>
      s.result == Err(UnexpectedHandshake(client.name, client.connectedServer.value))
    ensures s.result.Err? ==> s.table == t
  {
    if addr in t then
      Step(Err(AlreadyExists(addr)), t)
    else
      var hello := Receive(client, Message(Handshake, ip));
      if hello.result.Err? then Step(Err(hello.result.error), t)
      else Step(Ok(()), t[addr := Open(hello.client)])
  }

  /** `send`: only an open connection routes the message to its client.
      The client's answer is passed back as it is; if it is an error, the
      connection becomes halted, keeping the client. No other entry and no
      key changes; sending elsewhere than to an open connection fails and
      changes nothing. */
  function SendIn(t: Table, addr: string, msg: Message): (s: Step<Option<string>>)
    ensures s.table.Keys == t.Keys
    ensures forall a :: a in t && a != addr ==> s.table[a] == t[a]
    ensures !(addr in t && t[addr].Open?) ==> s.result.Err? && s.table == t
    ensures addr !in t ==> s.result == Err(NoConnection(addr))
    ensures addr in t && t[addr].Closed? ==> s.result == Err(ClosedConnection(addr))
    ensures addr in t && t[addr].Halted? ==> s.result == Err(HaltedConnection(addr))
    ensures addr in t && t[addr].Open? ==>
      var r := Receive(t[addr].client, msg);
      && s.result == r.result
      && s.table[addr] == (if r.result.Ok? then Open(r.client) else Halted(t[addr].client))
  {
    if addr !in t then Step(Err(NoConnection(addr)), t)
    else
      match t[addr]
      case Closed => Step(Err(ClosedConnection(addr)), t)
      case Halted(_) => Step(Err(HaltedConnection(addr)), t)
      case Open(c) =>
        var r := Receive(c, msg);
        if r.result.Ok? then Step(r.result, t[addr := Open(r.client)])
        else Step(r.result, t[addr := Halted(c)])
  }

  /** `close_all`: every entry becomes closed; no key is added or removed. */
  function CloseAllIn(t: Table): (t': Table)
    ensures t'.Keys == t.Keys
    ensures forall a :: a in t' ==> t'[a] == Closed
  {
    map a | a in t :: Closed
  }

  /** The one-way life of a connection: an open one may become anything,
      a halted one only stays halted or is closed, a closed one stays
      closed. */
  predicate Later(c: Connection, c': Connection) {
    match c
    case Open(_) => true
    case Halted(_) => c'.Halted? || c'.Closed?
    case Closed => c'.Closed?
  }

  /** `t'` is a possible successor of `t`: no key lost, no connection back
      to an earlier state. */
  ghost predicate Follows(t: Table, t': Table) {
    && t.Keys <= t'.Keys
    && forall a :: a in t ==> Later(t[a], t'[a])
  }

  /** No operation removes an entry or brings a connection back: a halted
      or closed connection never opens again. */
  lemma OperationsFollowLifecycle(t: Table, ip: string, addr: string, client: Client, msg: Message)
    ensures Follows(t, OpenIn(t, ip, addr, client).table)
    ensures Follows(t, SendIn(t, addr, msg).table)
    ensures Follows(t, CloseAllIn(t))
  {
  }

  /** Every operation keeps every held client bound to the server. `send`
      and `close_all` keep every held client within its limit, and so does
      `open` when the client it is given is within its limit. */
  lemma OperationsKeepInvariants(t: Table, ip: string, addr: string, client: Client, msg: Message)
    requires BoundTo(t, ip)
    ensures BoundTo(OpenIn(t, ip, addr, client).table, ip)
    ensures BoundTo(SendIn(t, addr, msg).table, ip)
    ensures BoundTo(CloseAllIn(t), ip)
    ensures WithinLimits(t) && client.WithinLimit() ==> WithinLimits(OpenIn(t, ip, addr, client).table)
    ensures WithinLimits(t) ==> WithinLimits(SendIn(t, addr, msg).table)
    ensures WithinLimits(CloseAllIn(t))
  {
  }

  /** A Handshake routed to an open connection of a server whose clients are
      all bound to it is always refused by the client, naming the server,
      and halts the connection. */
  lemma HandshakeThroughServerHalts(t: Table, ip: string, addr: string, load: string)
    requires BoundTo(t, ip) && IsOpenIn(t, addr)
    ensures SendIn(t, addr, Message(Handshake, load))
         == Step(Err(UnexpectedHandshake(t[addr].client.name, ip)), t[addr := Halted(t[addr].client)])
  {
  }

  /** Once a client's error has halted a connection, every later send to
      that address fails with the halted message and changes nothing. */
  lemma HaltedStaysHalted(t: Table, addr: string, m1: Message, m2: Message)
    requires IsOpenIn(t, addr) && SendIn(t, addr, m1).result.Err?
    ensures var t1 := SendIn(t, addr, m1).table;
      && !IsOpenIn(t1, addr)
      && SendIn(t1, addr, m2) == Step(Err(HaltedConnection(addr)), t1)
      && Text(SendIn(t1, addr, m2).result.error)
         == "Tried to send a message through a halted connection ('" + addr + "')."
  {
  }

  /** `open` refuses any address it has seen before, so after `close_all`
      an address can never be opened again. */
  lemma NoReopenAfterCloseAll(t: Table, ip: string, addr: string, client: Client)
    requires addr in t
    ensures var t' := CloseAllIn(t);
      && OpenIn(t', ip, addr, client) == Step(Err(AlreadyExists(addr)), t')
      && Text(AlreadyExists(addr))
         == "Cannot open connection to '" + addr + "'. Connection already exists."
  {
  }

  /** Where `is_open` holds: right after a successful `open` of the address,
      never for an address not in the table, never after `close_all`, and
      no longer after a send that the client refused. */
  lemma IsOpenTracksLifecycle(t: Table, ip: string, addr: string, client: Client, msg: Message)
    ensures addr !in t ==> !IsOpenIn(t, addr)
    ensures OpenIn(t, ip, addr, client).result.Ok? ==> IsOpenIn(OpenIn(t, ip, addr, client).table, addr)
    ensures forall a :: !IsOpenIn(CloseAllIn(t), a)
    ensures SendIn(t, addr, msg).result.Err? ==> !IsOpenIn(SendIn(t, addr, msg).table, addr)
    ensures SendIn(t, addr, msg).result.Ok? ==> IsOpenIn(SendIn(t, addr, msg).table, addr)
  {
  }

  /** A successful `open` adds an open connection, so the halted count is
      unchanged. */
  lemma OpenKeepsHaltedCount(t: Table, ip: string, addr: string, client: Client)
    ensures CountHaltedIn(OpenIn(t, ip, addr, client).table) == CountHaltedIn(t)
  {
    var s := OpenIn(t, ip, addr, client);
    if s.result.Ok? {
      assert HaltedIn(s.table) == HaltedIn(t);
    }
  }

  /** A send raises the halted count by one exactly when it halts an open
      connection, and leaves it unchanged otherwise. */
  lemma SendHaltedCount(t: Table, addr: string, msg: Message)
    ensures CountHaltedIn(SendIn(t, addr, msg).table)
         == CountHaltedIn(t) + (if IsOpenIn(t, addr) && SendIn(t, addr, msg).result.Err? then 1 else 0)
  {
    var s := SendIn(t, addr, msg);
    if IsOpenIn(t, addr) {
      if s.result.Err? {
        assert HaltedIn(s.table) == HaltedIn(t) + {addr};
      } else {
        assert HaltedIn(s.table) == HaltedIn(t);
      }
    }
  }

  /** `close_all` leaves nothing open and nothing halted, and doing it again
      changes nothing. */
  lemma CloseAllSettles(t: Table)
    ensures CountHaltedIn(CloseAllIn(t)) == 0
    ensures CloseAllIn(CloseAllIn(t)) == CloseAllIn(t)
  {
  }

  /** The server object. Its table is updated in place by `Open`, `Send`
      and `CloseAll`, each of which does what the table function of the
      same name specifies. */
  class Server {
    const ip: string
    var connections: Table

    /** Every client the server holds is bound to this server. */
    ghost predicate Valid()
      reads this
    {
      BoundTo(connections, ip)
    }

    constructor (ip: string)
      ensures Valid()
      ensures this.ip == ip && connections == map[]
    {
      this.ip := ip;
      connections := map[];
    }

    method Open(addr: string, client: Client) returns (r: Result<()>)
      requires Valid()
      modifies this
      ensures Valid()
      ensures Step(r, connections) == OpenIn(old(connections), ip, addr, client)
    {
      if addr in connections {
        return Err(AlreadyExists(addr));
      }
      var hello := Receive(client, Message(Handshake, ip));
      if hello.result.Err? {
        return Err(hello.result.error);
      }
      connections := connections[addr := Connection.Open(hello.client)];
      r := Ok(());
    }

    method Send(addr: string, msg: Message) returns (r: Result<Option<string>>)
      requires Valid()
      modifies this
      ensures Valid()
      ensures Step(r, connections) == SendIn(old(connections), addr, msg)
    {
      if addr !in connections {
        return Err(NoConnection(addr));
      }
      match connections[addr]
      case Closed =>
        r := Err(ClosedConnection(addr));
      case Halted(_) =>
        r := Err(HaltedConnection(addr));
      case Open(c) =>
        var reply := Receive(c, msg);
        r := reply.result;
        if r.Ok? {
          connections := connections[addr := Connection.Open(reply.client)];
        } else {
          connections := connections[addr := Halted(c)];
        }
    }

    /** Overwrites the entries one at a time. */
    method CloseAll()
      requires Valid()
      modifies this
      ensures Valid()
      ensures connections == CloseAllIn(old(connections))
    {
      var pending := connections.Keys;
      while pending != {}
        invariant pending <= connections.Keys
        invariant connections.Keys == old(connections).Keys
        invariant forall a :: a in pending ==> connections[a] == old(connections)[a]
        invariant forall a :: a in connections && a !in pending ==> connections[a] == Closed
        decreases pending
      {
        var a :| a in pending;
        connections := connections[a := Closed];
        pending := pending - {a};
      }
      assert BoundTo(old(connections), ip);
    }

    /** Whether the connection to `addr` exists and is open. */
    function IsOpen(addr: string): (b: bool)
      reads this
      ensures b <==> addr in connections && connections[addr].Open?
    {
      IsOpenIn(connections, addr)
    }

    /** The number of connections that are halted. */
    function CountHalted(): (n: nat)
      reads this
      ensures n == |set a | a in connections && connections[a].Halted?|
      ensures n <= |connections|
    {
      CountHaltedIn(connections)
    }
  }

  /** The source's `open` test: a first `open` succeeds and binds the client
      to the server; a second one on the same address fails and leaves the
      first connection in place. */
  method OpenTwiceExample() returns (first: Result<()>, second: Result<()>, bound: Option<string>)
    ensures first == Ok(())
    ensures bound == Some("localhost")
    ensures second == Err(AlreadyExists("197.0.0.1"))
    ensures Text(second.error)
         == "Cannot open connection to '" + "197.0.0.1" + "'. Connection already exists."
  {
    var server := new Server("localhost");
    first := server.Open("197.0.0.1", New("TestClient", 2));
    assert server.IsOpen("197.0.0.1");
    bound := server.connections["197.0.0.1"].client.connectedServer;
    second := server.Open("197.0.0.1", New("TestClient2", 100));
    assert server.IsOpen("197.0.0.1");
  }

  /** The source's `send` test: with a limit-1 client, Get answers "0", a
      Post is accepted, the next Post is refused with the client's capacity
      error, and from then on the connection reports itself halted. */
  method SendUntilHaltedExample() returns (r1: Result<Option<string>>, r2: Result<Option<string>>,
                                           r3: Result<Option<string>>, r4: Result<Option<string>>)
    ensures r1 == Ok(Some("0"))
    ensures r2 == Ok(None)
    ensures r3 == Err(CannotIngest("TestClient"))
    ensures Text(r3.error) == "Client '" + "TestClient" + "' cannot ingest more messages."
    ensures r4 == Err(HaltedConnection("197.0.0.1"))
    ensures Text(r4.error)
         == "Tried to send a message through a halted connection ('" + "197.0.0.1" + "')."
  {
    var server := new Server("localhost");
    var o := server.Open("197.0.0.1", New("TestClient", 1));
    assert Decimal.Show(0) == "0";
    r1 := server.Send("197.0.0.1", Message(Get, ""));
    r2 := server.Send("197.0.0.1", Message(Post, "Another tale"));
    r3 := server.Send("197.0.0.1", Message(Post, "Another abrupt end"));
    r4 := server.Send("197.0.0.1", Message(Post, "Maybe this time?"));
  }

  /** The body of the loop in the source's `count_halted` test: two Posts
      through an open connection whose limit-1 client has had none; the
      first is accepted and the second halts the connection. */
  method PostPastLimit(server: Server, addr: string)
    requires server.Valid() && addr in server.connections && server.connections[addr].Open?
    requires server.connections[addr].client.postCount == 0 && server.connections[addr].client.limit == 1
    modifies server
    ensures server.Valid()
    ensures server.connections
         == old(server.connections)[addr := Halted(old(server.connections)[addr].client.(postCount := 1))]
    ensures server.CountHalted() == old(server.CountHalted()) + 1
  {
    ghost var t0 := server.connections;
    var accepted := server.Send(addr, Message(Post, "Push the limit"));
    SendHaltedCount(t0, addr, Message(Post, "Push the limit"));
    ghost var t1 := server.connections;
    var refused := server.Send(addr, Message(Post, "Too much"));
    SendHaltedCount(t1, addr, Message(Post, "Too much"));
  }

  /** A fresh limit-1 client named after its address, bound to `ip`. */
  function BoundFreshClient(name: string, ip: string): Client {
    New(name, 1).(connectedServer := Some(ip))
  }

  /** The opening half of the source's `count_halted` test: five limit-1
      clients, each named after its address, opened on a fresh server. */
  method OpenFive(a1: string, a2: string, a3: string, a4: string, a5: string) returns (server: Server)
    requires |{a1, a2, a3, a4, a5}| == 5
    ensures fresh(server) && server.Valid() && server.ip == "localhost"
    ensures server.connections
         == map[a1 := Connection.Open(BoundFreshClient(a1, "localhost")), a2 := Connection.Open(BoundFreshClient(a2, "localhost")),
                a3 := Connection.Open(BoundFreshClient(a3, "localhost")), a4 := Connection.Open(BoundFreshClient(a4, "localhost")),
                a5 := Connection.Open(BoundFreshClient(a5, "localhost"))]
  {
    server := new Server("localhost");
    var o1 := server.Open(a1, New(a1, 1));
    var o2 := server.Open(a2, New(a2, 1));
    var o3 := server.Open(a3, New(a3, 1));
    var o4 := server.Open(a4, New(a4, 1));
    var o5 := server.Open(a5, New(a5, 1));
  }

  /** The source's `count_halted` test: of five limit-1 clients, two are
      sent two Posts each; the second Post halts each of those two
      connections, so two are halted and the other three stay open. */
  method CountHaltedExample() returns (halted: nat, othersOpen: bool)
    ensures halted == 2
    ensures othersOpen
  {
    var a1, a2, a3, a4, a5 := "197.0.0.1", "197.0.0.2", "197.0.0.3", "197.0.0.4", "197.0.0.5";
    var server := OpenFive(a1, a2, a3, a4, a5);
    ghost var t := server.connections;
    assert CountHaltedIn(t) == 0;
    PostPastLimit(server, a1);
    PostPastLimit(server, a3);
    assert forall a :: a in {a2, a4, a5} ==> server.connections[a] == t[a] && t[a].Open?;
    halted := server.CountHalted();
    othersOpen := server.IsOpen(a2) && server.IsOpen(a4) && server.IsOpen(a5);
  }
}
