/**
 * The in-memory transport pair that connects the MCP client to the
 * on-device MCP server without a socket. Each endpoint has a nullable peer;
 * `send` hands the message straight to the peer's `receiveMsg`, which
 * passes it to that endpoint's own message handler. The handler
 * (`_onMessage`, installed by the MCP SDK) is represented by the log of the
 * messages it has been given, `received`.
 */
module Transport {
  import opened JsonValue

  /** `InMemoryServerTransport` */
  class ServerTransport {
    var clientTransport: ClientTransport?
    var received: seq<Json>

    constructor ()
      ensures clientTransport == null && received == []
    {
      clientTransport := null;
      received := [];
    }

    /** `connectClient`: replaces whatever peer was set before. */
    method ConnectClient(c: ClientTransport)
      modifies this
      ensures clientTransport == c && received == old(received)
    {
      clientTransport := c;
    }

    /** `close`: does nothing; the peer stays set. */
    method Close()
      ensures clientTransport == old(clientTransport) && received == old(received)
    {
    }

    /** `start`: does nothing. */
    method Start()
      ensures clientTransport == old(clientTransport) && received == old(received)
    {
    }

    /** `send`: delivers to the peer's handler at once, or drops the message when there is no peer. */
    method Send(m: Json)
      modifies clientTransport
      ensures clientTransport == old(clientTransport) && received == old(received)
      ensures clientTransport != null ==>
        clientTransport.received == old(clientTransport.received) + [m]
        && clientTransport.serverTransport == old(clientTransport.serverTransport)
    {
      if clientTransport != null {
        clientTransport.ReceiveMsg(m);
      }
    }

    /** `receiveMsg`: passes the message unchanged to this endpoint's handler. */
    method ReceiveMsg(m: Json)
      modifies this
      ensures received == old(received) + [m] && clientTransport == old(clientTransport)
    {
      received := received + [m];
    }
  }

  /** `InMemoryClientTransport` */
  class ClientTransport {
    var serverTransport: ServerTransport?
    var received: seq<Json>

    constructor ()
      ensures serverTransport == null && received == []
    {
      serverTransport := null;
      received := [];
    }

    /** `connectServer`: replaces whatever peer was set before. */
    method ConnectServer(s: ServerTransport)
      modifies this
      ensures serverTransport == s && received == old(received)
    {
      serverTransport := s;
    }

    /** `close`: does nothing; the peer stays set. */
    method Close()
      ensures serverTransport == old(serverTransport) && received == old(received)
    {
    }

    /** `start`: does nothing. */
    method Start()
      ensures serverTransport == old(serverTransport) && received == old(received)
    {
    }

    /** `send`: delivers to the peer's handler at once, or drops the message when there is no peer. */
    method Send(m: Json)
      modifies serverTransport
      ensures serverTransport == old(serverTransport) && received == old(received)
      ensures serverTransport != null ==>
        serverTransport.received == old(serverTransport.received) + [m]
        && serverTransport.clientTransport == old(serverTransport.clientTransport)
    {
      if serverTransport != null {
        serverTransport.ReceiveMsg(m);
      }
    }

    /** `receiveMsg`: passes the message unchanged to this endpoint's handler. */
    method ReceiveMsg(m: Json)
      modifies this
      ensures received == old(received) + [m] && serverTransport == old(serverTransport)
    {
      received := received + [m];
    }
  }

  /**
   * A message the server endpoint sends before it has a peer is dropped,
   * not queued: once connected, the client's handler sees only what was
   * sent afterwards.
   */
  method SendBeforeConnectIsDropped(early: Json, late: Json) returns (atClient: seq<Json>)
    ensures atClient == [late]
  {
    var server := new ServerTransport();
    var client := new ClientTransport();
    server.Send(early);
    server.ConnectClient(client);
    server.Send(late);
    atClient := client.received;
  }

  /** Reconnecting replaces the peer: only the latest peer receives. */
  method ReconnectReplacesPeer(first: Json, second: Json) returns (atOld: seq<Json>, atNew: seq<Json>)
    ensures atOld == [first] && atNew == [second]
  {
    var client := new ClientTransport();
    var oldServer := new ServerTransport();
    var newServer := new ServerTransport();
    client.ConnectServer(oldServer);
    client.Send(first);
    client.ConnectServer(newServer);
    client.Send(second);
    atOld := oldServer.received;
    atNew := newServer.received;
  }

  /** `start` and `close` leave a connection working: sends still arrive. */
  method CloseKeepsDelivering(m: Json) returns (atServer: seq<Json>)
    ensures atServer == [m]
  {
    var client := new ClientTransport();
    var server := new ServerTransport();
    client.ConnectServer(server);
    client.Start();
    client.Close();
    server.Close();
    client.Send(m);
    atServer := server.received;
  }

  /**
   * Messages sent one after another from a connected client endpoint
   * arrive at the server's handler exactly once each, unmodified and in
   * the order sent.
   */
  method MessagesArriveInOrder(ms: seq<Json>) returns (atServer: seq<Json>, atClient: seq<Json>)
    ensures atServer == ms && atClient == []
  {
    var client := new ClientTransport();
    var server := new ServerTransport();
    client.ConnectServer(server);
    var i := 0;
    while i < |ms|
      invariant 0 <= i <= |ms|
      invariant client.serverTransport == server
      invariant server.received == ms[..i]
      invariant client.received == []
    {
      client.Send(ms[i]);
      assert ms[..i + 1] == ms[..i] + [ms[i]];
      i := i + 1;
    }
    assert ms[..|ms|] == ms;
    atServer := server.received;
    atClient := client.received;
  }
}
