/** The live-connection registry of the WebSocket server (src/ws/index.ts): a map from
    the `userId` query parameter to the socket of the most recent connection that gave it. */
module Connections {
  import opened Wrappers
  import opened Notification

  /** A client socket; `open` stands for `readyState === OPEN`, which the transport changes. */
  class Socket {
    var open: bool

    constructor (open: bool)
      ensures this.open == open
    {
      this.open := open;
    }
  }

  /** The frame written to a socket, `{type: 'notification', data: payload}`; its JSON
      text is not modelled. */
  datatype Message = Message(kind: string, data: Payload)

  function Envelope(p: Payload): Message {
    Message("notification", p)
  }

  /** One `ws.send` call: the socket written to and the message written. */
  datatype Delivery = Delivery(socket: Socket, message: Message)

  /** A connection event: the `userId` parameter read from the URL (None when absent)
      and the socket; the close handler of that connection sees the same pair. */
  datatype Connection = Connection(userId: Option<string>, socket: Socket)

  /** JavaScript truthiness of the parameter: present and non-empty. */
  predicate Named(userId: Option<string>) {
    userId.Some? && userId.value != ""
  }

  class Registry {
    /** The module-level `clients` map. */
    var clients: map<string, Socket>
    /** Every message written to a socket, oldest first. */
    var outbox: seq<Delivery>

    /** Only truthy ids are ever stored. */
    ghost predicate Valid()
      reads this
    {
      "" !in clients
    }

    constructor ()
      ensures Valid() && clients == map[] && outbox == []
    {
      clients := map[];
      outbox := [];
    }

    /** The `connection` handler: a named connection supersedes any socket stored
        under its id; others leave the map alone. */
    method OnConnection(userId: Option<string>, ws: Socket) returns (c: Connection)
      requires Valid()
      modifies this
      ensures Valid()
      ensures c == Connection(userId, ws)
      ensures Named(userId) ==> clients == old(clients)[userId.value := ws]
      ensures !Named(userId) ==> clients == old(clients)
      ensures outbox == old(outbox)
    {
      if Named(userId) {
        clients := clients[userId.value := ws];
      }
      c := Connection(userId, ws);
    }

    /** The `close` handler: deletes the entry for the connection's id whatever socket
        is stored there now, so a superseded socket closing evicts its successor. */
    method OnClose(c: Connection)
      requires Valid()
      modifies this
      ensures Valid()
      ensures Named(c.userId) ==> clients == old(clients) - {c.userId.value}
      ensures !Named(c.userId) ==> clients == old(clients)
      ensures outbox == old(outbox)
    {
      if Named(c.userId) {
        clients := clients - {c.userId.value};
      }
    }

    /** What `sendNotification(userId, p)` writes in the current state. */
    function Deliveries(userId: string, p: Payload): (d: seq<Delivery>)
      reads this, clients.Values
      ensures |d| <= 1
      ensures Valid() && userId == "" ==> d == []
      ensures d != [] <==> userId in clients && clients[userId].open
      ensures d != [] ==> d[0].socket == clients[userId] && d[0].message.kind == "notification"
                          && d[0].message.data == p
    {
      if userId in clients && clients[userId].open then [Delivery(clients[userId], Envelope(p))] else []
    }

    /** `sendNotification`: best effort, never fails, never changes the map. */
    method SendNotification(userId: string, p: Payload)
      modifies this
      ensures clients == old(clients)
      ensures outbox == old(outbox) + old(Deliveries(userId, p))
    {
      if userId in clients {
        var ws := clients[userId];
        if ws.open {
          outbox := outbox + [Delivery(ws, Envelope(p))];
        }
      }
    }
  }

  /** A client reconnects under the same id and the first socket's close event arrives
      afterwards: the map no longer holds the live second socket, and a notification for
      that id is dropped although the user is connected. */
  method SupersededCloseScenario(id: string, p: Payload) returns (reg: Registry, newer: Socket)
    requires id != ""
    ensures newer.open && id !in reg.clients
    ensures reg.outbox == []
  {
    reg := new Registry();
    var older := new Socket(true);
    var first := reg.OnConnection(Some(id), older);
    newer := new Socket(true);
    var second := reg.OnConnection(Some(id), newer);
    assert reg.clients[id] == newer;
    older.open := false;
    reg.OnClose(first);
    reg.SendNotification(id, p);
  }
}
