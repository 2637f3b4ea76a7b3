/** The WebSocket hub: one event loop over three channels and an index from users to connections. */
module Hub {

  type User = string
  type Payload = string

  /** A connection: an identity and the user it belongs to. */
  datatype Client = Client(id: nat, user: User)
  datatype Message = Message(user: User, payload: Payload)

  const REGISTER_CAP := 64
  const UNREGISTER_CAP := 64
  const BROADCAST_CAP := 4096
  const BUFFER_CAP := 256

  type Index = map<User, set<Client>>
  type Buffers = map<Client, seq<Payload>>

  function ConnsOf(clients: Index, u: User): set<Client> {
    if u in clients then clients[u] else {}
  }

  function BufferOf(buffers: Buffers, c: Client): seq<Payload> {
    if c in buffers then buffers[c] else []
  }

  /** The channels, the index, each connection's buffer and which of those are closed; `known` and `left`
      remember whose Register and Unregister have been called. */
  datatype State = State(
    clients: Index, register: seq<Client>, unregister: seq<Client>, broadcast: seq<Message>,
    buffers: Buffers, closed: set<Client>, panicked: bool, known: set<Client>, left: set<Client>)

  const INITIAL := State(map[], [], [], [], map[], {}, false, {}, {})

  datatype Action =
    | Register(c: Client)         // a connection opens
    | Unregister(c: Client)       // its read pump ends
    | Send(m: Message)            // the processor notifies a user
    | TakeRegister(c: Client)     // the loop's three cases
    | TakeUnregister(c: Client)
    | TakeBroadcast(m: Message)
    | Read(c: Client)             // the write pump takes a message

  predicate Enabled(s: State, a: Action) {
    !s.panicked &&
    match a
    case Register(c) => c !in s.known && |s.register| < REGISTER_CAP
    case Unregister(c) => c in s.known && c !in s.left && |s.unregister| < UNREGISTER_CAP
    case Send(m) => true
    case TakeRegister(c) => s.register != [] && s.register[0] == c
    case TakeUnregister(c) => s.unregister != [] && s.unregister[0] == c
    case TakeBroadcast(m) => s.broadcast != [] && s.broadcast[0] == m
    case Read(c) => BufferOf(s.buffers, c) != []
  }

  function Indexed(clients: Index, c: Client): Index {
    clients[c.user := ConnsOf(clients, c.user) + {c}]
  }

  function Unindexed(clients: Index, c: Client): Index {
    var rest := ConnsOf(clients, c.user) - {c};
    if c.user !in clients then clients
    else if rest == {} then clients - {c.user}
    else clients[c.user := rest]
  }

  function Offered(buffer: seq<Payload>, p: Payload): seq<Payload> {
    if |buffer| < BUFFER_CAP then buffer + [p] else buffer
  }

  function Delivered(buffers: Buffers, conns: set<Client>, p: Payload): Buffers {
    map c | c in buffers.Keys + conns :: if c in conns then Offered(BufferOf(buffers, c), p) else BufferOf(buffers, c)
  }

  lemma DeliveredOneMore(buffers: Buffers, done: set<Client>, c: Client, p: Payload)
    requires c !in done
    ensures var sofar := Delivered(buffers, done, p);
            sofar[c := Offered(BufferOf(sofar, c), p)] == Delivered(buffers, done + {c}, p)
  {
  }

  function Apply(s: State, a: Action): State
    requires Enabled(s, a)
  {
    match a
    case Register(c) => s.(register := s.register + [c], known := s.known + {c})
    case Unregister(c) => s.(unregister := s.unregister + [c], left := s.left + {c})
    case Send(m) => if |s.broadcast| < BROADCAST_CAP then s.(broadcast := s.broadcast + [m]) else s
    case TakeRegister(c) => s.(register := s.register[1..], clients := Indexed(s.clients, c))
    case TakeUnregister(c) =>
      // Closing a closed channel panics.
      s.(unregister := s.unregister[1..], clients := Unindexed(s.clients, c),
         panicked := c in s.closed, closed := s.closed + {c})
    case TakeBroadcast(m) =>
      var conns := ConnsOf(s.clients, m.user);
      // So does sending on one.
      if conns * s.closed != {} then s.(broadcast := s.broadcast[1..], panicked := true)
      else s.(broadcast := s.broadcast[1..], buffers := Delivered(s.buffers, conns, m.payload))
    case Read(c) => s.(buffers := s.buffers[c := s.buffers[c][1..]])
  }

  class HubLoop {
    var clients: Index
    var register: seq<Client>
    var unregister: seq<Client>
    var broadcast: seq<Message>
    var buffers: Buffers
    var closed: set<Client>
    var panicked: bool
    ghost var known: set<Client>
    ghost var left: set<Client>

    ghost function View(): State
      reads this
    {
      State(clients, register, unregister, broadcast, buffers, closed, panicked, known, left)
    }

    constructor ()
      ensures View() == INITIAL
    {
      clients, register, unregister, broadcast := map[], [], [], [];
      buffers, closed, panicked := map[], {}, false;
      known, left := {}, {};
    }

    /** Blocks while the channel is full, so it runs only when there is room. */
    method Register(c: Client)
      requires Enabled(View(), Action.Register(c))
      modifies this
      ensures View() == Apply(old(View()), Action.Register(c))
    {
      register := register + [c];
      known := known + {c};
    }

    method Unregister(c: Client)
      requires Enabled(View(), Action.Unregister(c))
      modifies this
      ensures View() == Apply(old(View()), Action.Unregister(c))
    {
      unregister := unregister + [c];
      left := left + {c};
    }

    /** Never blocks: a full channel drops the message. */
    method Send(u: User, p: Payload)
      requires !panicked
      modifies this
      ensures View() == Apply(old(View()), Action.Send(Message(u, p)))
    {
      if |broadcast| < BROADCAST_CAP {
        broadcast := broadcast + [Message(u, p)];
      }
    }

    method OnRegister()
      requires !panicked && register != []
      modifies this
      ensures View() == Apply(old(View()), TakeRegister(old(register)[0]))
    {
      var c := register[0];
      register := register[1..];
      if c.user !in clients {
        clients := clients[c.user := {}];
      }
      clients := clients[c.user := clients[c.user] + {c}];
    }

    method OnUnregister()
      requires !panicked && unregister != []
      modifies this
      ensures View() == Apply(old(View()), TakeUnregister(old(unregister)[0]))
    {
      var c := unregister[0];
      unregister := unregister[1..];
      if c.user in clients {
        clients := clients[c.user := clients[c.user] - {c}];
        if clients[c.user] == {} {
          clients := clients - {c.user};
        }
      }
      if c in closed {
        panicked := true;
      }
      closed := closed + {c};
    }

    /** Offers a payload to each of these connections; sending on a closed channel panics. */
    method OfferAll(conns: set<Client>, p: Payload)
      requires !panicked
      modifies this`buffers, this`panicked
      ensures panicked <==> conns * closed != {}
      ensures !panicked ==> buffers == Delivered(old(buffers), conns, p)
    {
      ghost var was := buffers;
      var todo := conns;
      while todo != {}
        invariant todo <= conns && !panicked && (conns - todo) * closed == {}
        invariant buffers == Delivered(was, conns - todo, p)
        decreases todo
      {
        var c :| c in todo;
        if c in closed {
          assert c in conns * closed;
          panicked := true;
          return;
        }
        DeliveredOneMore(was, conns - todo, c, p);
        assert conns - (todo - {c}) == conns - todo + {c};
        buffers := buffers[c := Offered(BufferOf(buffers, c), p)];
        todo := todo - {c};
      }
    }

    method OnBroadcast()
      requires !panicked && broadcast != []
      modifies this
      ensures panicked == Apply(old(View()), TakeBroadcast(old(broadcast)[0])).panicked
      ensures !panicked ==> View() == Apply(old(View()), TakeBroadcast(old(broadcast)[0]))
    {
      var m := broadcast[0];
      broadcast := broadcast[1..];
      OfferAll(ConnsOf(clients, m.user), m.payload);
    }

    /** The write pump's receive. */
    method Receive(c: Client) returns (p: Payload)
      requires Enabled(View(), Action.Read(c))
      modifies this
      ensures View() == Apply(old(View()), Action.Read(c)) && p == old(buffers)[c][0]
    {
      p := buffers[c][0];
      buffers := buffers[c := buffers[c][1..]];
    }
  }
}
