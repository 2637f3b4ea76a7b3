/** What a single connection sees, and why the shared index never mixes connections up. */
module HubDelivery {
  import opened Hub

  // ----- Runs ---------------------------------------------------------------------------------

  predicate Valid(tr: seq<Action>)
    decreases |tr|, 0
  {
    tr == [] || (Valid(tr[..|tr| - 1]) && Enabled(After(tr[..|tr| - 1]), tr[|tr| - 1]))
  }

  function After(tr: seq<Action>): State
    requires Valid(tr)
    decreases |tr|, 1
  {
    if tr == [] then INITIAL else Apply(After(tr[..|tr| - 1]), tr[|tr| - 1])
  }

  // ----- One connection on its own --------------------------------------------------------------

  /** A connection's private account: whether its registration was taken and its channel closed, whether it
      is listening, what waits in its buffer, what was ever put there and read from there, what its user was
      sent while it listened, and how much of that met a full buffer. */
  datatype Mailbox = Mailbox(
    registered: bool, closed: bool, live: bool, buffer: seq<Payload>,
    put: seq<Payload>, read: seq<Payload>, log: seq<Payload>, dropped: nat)

  function Observe(c: Client, mb: Mailbox, a: Action): Mailbox {
    match a
    case TakeRegister(d) => if d == c then mb.(registered := true, live := true) else mb
    case TakeUnregister(d) => if d == c then mb.(closed := true, live := false) else mb
    case TakeBroadcast(m) =>
      if !mb.live || m.user != c.user then mb
      else if |mb.buffer| < 256
      then mb.(buffer := mb.buffer + [m.payload], put := mb.put + [m.payload], log := mb.log + [m.payload])
      else mb.(log := mb.log + [m.payload], dropped := mb.dropped + 1)
    case Read(d) =>
      if d == c && mb.buffer != [] then mb.(buffer := mb.buffer[1..], read := mb.read + [mb.buffer[0]]) else mb
    case _ => mb
  }

  function MailboxOf(tr: seq<Action>, c: Client): Mailbox
    decreases |tr|
  {
    if tr == [] then Mailbox(false, false, false, [], [], [], [], 0)
    else Observe(c, MailboxOf(tr[..|tr| - 1], c), tr[|tr| - 1])
  }

  // ----- The hub is the sum of its mailboxes -------------------------------------------------------

  predicate Unique(s: seq<Client>) {
    forall i, j | 0 <= i < j < |s| :: s[i] != s[j]
  }

  /** The hub's state about `c` is what `c`'s own account says. */
  ghost predicate Agrees(s: State, c: Client, mb: Mailbox) {
    && (c in ConnsOf(s.clients, c.user) <==> mb.live)
    && (c in s.closed <==> mb.closed)
    && BufferOf(s.buffers, c) == mb.buffer
    && (c in s.register ==> c in s.known && !mb.registered)
    && (c in s.unregister ==> c in s.left && !mb.closed)
    && (mb.registered ==> c in s.known)
    && (mb.closed ==> c in s.left)
    && (c in s.left ==> c in s.unregister || mb.closed)
    && (mb.live ==> mb.registered)
  }

  ghost predicate IndexSound(s: State) {
    && (forall u | u in s.clients :: s.clients[u] != {})
    && (forall u, c | u in s.clients && c in s.clients[u] :: c.user == u)
    && Unique(s.register) && Unique(s.unregister)
  }

  lemma UniqueTail(s: seq<Client>)
    requires s != [] && Unique(s)
    ensures Unique(s[1..]) && s[0] !in s[1..]
    ensures forall c | c in s[1..] :: c in s
  {
  }

  lemma StepAgrees(s: State, a: Action, c: Client, mb: Mailbox)
    requires Enabled(s, a) && IndexSound(s) && Agrees(s, c, mb) && !Apply(s, a).panicked
    ensures Agrees(Apply(s, a), c, Observe(c, mb, a))
  {
    match a {
      case TakeRegister(d) => UniqueTail(s.register);
      case TakeUnregister(d) => UniqueTail(s.unregister);
      case TakeBroadcast(m) => BroadcastAgrees(s, m, c, mb);
      case _ =>
    }
  }

  lemma BroadcastAgrees(s: State, m: Message, c: Client, mb: Mailbox)
    requires Enabled(s, TakeBroadcast(m)) && IndexSound(s) && Agrees(s, c, mb) && !Apply(s, TakeBroadcast(m)).panicked
    ensures Agrees(Apply(s, TakeBroadcast(m)), c, Observe(c, mb, TakeBroadcast(m)))
  {
    assert c in ConnsOf(s.clients, m.user) <==> mb.live && m.user == c.user;
    assert BufferOf(Apply(s, TakeBroadcast(m)).buffers, c) ==
           if c in ConnsOf(s.clients, m.user) then Offered(BufferOf(s.buffers, c), m.payload)
           else BufferOf(s.buffers, c);
  }

  lemma StepIndexSound(s: State, a: Action)
    requires Enabled(s, a) && IndexSound(s)
    requires forall c | c in s.register :: c in s.known
    requires forall c | c in s.unregister :: c in s.left
    ensures IndexSound(Apply(s, a))
  {
    match a {
      case TakeRegister(d) => UniqueTail(s.register);
      case TakeUnregister(d) => UniqueTail(s.unregister);
      case _ =>
    }
  }

  /** Refinement: along every run that has not crashed, whatever order the loop takes the channels in, the
      shared index and buffers hold exactly what each connection would hold on its own. */
  lemma {:induction false} HubRefinesMailboxes(tr: seq<Action>)
    requires Valid(tr) && !After(tr).panicked
    ensures IndexSound(After(tr))
    ensures forall c: Client :: Agrees(After(tr), c, MailboxOf(tr, c))
    decreases |tr|
  {
    if tr != [] {
      var front, a := tr[..|tr| - 1], tr[|tr| - 1];
      HubRefinesMailboxes(front);
      var s := After(front);
      forall c | c in s.register ensures c in s.known {
        assert Agrees(s, c, MailboxOf(front, c));
      }
      forall c | c in s.unregister ensures c in s.left {
        assert Agrees(s, c, MailboxOf(front, c));
      }
      StepIndexSound(s, a);
      forall c: Client ensures Agrees(After(tr), c, MailboxOf(tr, c)) {
        assert Agrees(s, c, MailboxOf(front, c));
        StepAgrees(s, a, c, MailboxOf(front, c));
      }
    }
  }

  // ----- What a mailbox receives ---------------------------------------------------------------------

  predicate Subsequence(a: seq<Payload>, b: seq<Payload>)
    decreases |b|
  {
    a == [] || (b != [] &&
      (Subsequence(a, b[..|b| - 1]) ||
       (a[|a| - 1] == b[|b| - 1] && Subsequence(a[..|a| - 1], b[..|b| - 1]))))
  }

  lemma SubsequenceSnoc(a: seq<Payload>, b: seq<Payload>, p: Payload)
    requires Subsequence(a, b)
    ensures Subsequence(a, b + [p]) && Subsequence(a + [p], b + [p])
  {
    assert (b + [p])[..|b|] == b && (a + [p])[..|a|] == a;
  }

  predicate InOrder(mb: Mailbox) {
    && Subsequence(mb.put, mb.log) && |mb.log| == |mb.put| + mb.dropped
    && (mb.dropped == 0 ==> mb.put == mb.log)
    && mb.put == mb.read + mb.buffer && |mb.buffer| <= 256
  }

  lemma ObserveKeepsOrder(c: Client, mb: Mailbox, a: Action)
    requires InOrder(mb)
    ensures InOrder(Observe(c, mb, a))
  {
    if a.TakeBroadcast? {
      SubsequenceSnoc(mb.put, mb.log, a.m.payload);
      assert mb.read + (mb.buffer + [a.m.payload]) == mb.read + mb.buffer + [a.m.payload];
    } else if a.Read? && mb.buffer != [] {
      assert mb.read + [mb.buffer[0]] + mb.buffer[1..] == mb.read + mb.buffer;
    }
  }

  /** Delivery: what is put in a connection's buffer is, in order, what its user was sent while it listened,
      short by exactly the messages that met a full buffer; it is read in that order; the buffer never
      exceeds its capacity. */
  lemma {:induction false} DeliveredInOrder(tr: seq<Action>, c: Client)
    ensures InOrder(MailboxOf(tr, c))
    decreases |tr|
  {
    if tr != [] {
      DeliveredInOrder(tr[..|tr| - 1], c);
      ObserveKeepsOrder(c, MailboxOf(tr[..|tr| - 1], c), tr[|tr| - 1]);
    }
  }

  function TakenFor(u: User, tr: seq<Action>): seq<Payload>
    decreases |tr|
  {
    if tr == [] then []
    else
      var a := tr[|tr| - 1];
      TakenFor(u, tr[..|tr| - 1]) + if a.TakeBroadcast? && a.m.user == u then [a.m.payload] else []
  }

  lemma MailboxSnoc(tr: seq<Action>, a: Action, c: Client)
    ensures MailboxOf(tr + [a], c) == Observe(c, MailboxOf(tr, c), a)
  {
    assert (tr + [a])[..|tr|] == tr;
  }

  lemma ListenerHears(c: Client, mb: Mailbox, a: Action)
    requires mb.live && a != TakeUnregister(c)
    ensures var after := Observe(c, mb, a);
            after.live && after.log == mb.log + if a.TakeBroadcast? && a.m.user == c.user then [a.m.payload] else []
  {
  }

  /** The log of a connection is its user's messages taken between its registration and its
      unregistration: `before`, the registration, then `listening` without any unregistration of it. */
  lemma {:induction false} LogIsWindow(before: seq<Action>, listening: seq<Action>, c: Client)
    requires !MailboxOf(before, c).live && MailboxOf(before, c).log == []
    requires TakeUnregister(c) !in listening
    ensures MailboxOf(before + [TakeRegister(c)] + listening, c).live
    ensures MailboxOf(before + [TakeRegister(c)] + listening, c).log == TakenFor(c.user, listening)
    decreases |listening|
  {
    var joined := before + [TakeRegister(c)];
    if listening == [] {
      MailboxSnoc(before, TakeRegister(c), c);
      assert joined + listening == joined;
    } else {
      var front, a := listening[..|listening| - 1], listening[|listening| - 1];
      LogIsWindow(before, front, c);
      MailboxSnoc(joined + front, a, c);
      ListenerHears(c, MailboxOf(joined + front, c), a);
      assert joined + listening == joined + front + [a];
    }
  }

  /** Once its unregistration is taken a connection is put nothing more, until a registration. */
  lemma {:induction false} NothingAfterwards(tr: seq<Action>, after: seq<Action>, c: Client)
    requires !MailboxOf(tr, c).live && TakeRegister(c) !in after
    ensures !MailboxOf(tr + after, c).live
    ensures MailboxOf(tr + after, c).put == MailboxOf(tr, c).put && MailboxOf(tr + after, c).log == MailboxOf(tr, c).log
    decreases |after|
  {
    if after == [] {
      assert tr + after == tr;
    } else {
      var front := after[..|after| - 1];
      NothingAfterwards(tr, front, c);
      assert (tr + after)[..|tr + after| - 1] == tr + front;
      assert after == front + [after[|front|]];
    }
  }

  function TakenMessages(tr: seq<Action>): seq<Message>
    decreases |tr|
  {
    if tr == [] then []
    else TakenMessages(tr[..|tr| - 1]) + if tr[|tr| - 1].TakeBroadcast? then [tr[|tr| - 1].m] else []
  }

  /** The messages Send found room for: fewer than 4096 were waiting. */
  function AcceptedMessages(tr: seq<Action>): seq<Message>
    requires Valid(tr)
    decreases |tr|
  {
    if tr == [] then []
    else
      var front, a := tr[..|tr| - 1], tr[|tr| - 1];
      AcceptedMessages(front) + if a.Send? && |After(front).broadcast| < 4096 then [a.m] else []
  }

  /** The loop takes the accepted messages in the order they were sent, and loses none. */
  lemma {:induction false} BroadcastInOrder(tr: seq<Action>)
    requires Valid(tr)
    ensures TakenMessages(tr) + After(tr).broadcast == AcceptedMessages(tr)
    ensures |After(tr).broadcast| <= 4096
    decreases |tr|
  {
    if tr != [] {
      var front, a := tr[..|tr| - 1], tr[|tr| - 1];
      BroadcastInOrder(front);
      var q := After(front).broadcast;
      if a.TakeBroadcast? {
        assert q == [a.m] + q[1..];
      }
    }
  }

  /** What a user is sent by these messages. */
  function PayloadsFor(u: User, ms: seq<Message>): seq<Payload>
    decreases |ms|
  {
    if ms == [] then []
    else PayloadsFor(u, ms[..|ms| - 1]) + if ms[|ms| - 1].user == u then [ms[|ms| - 1].payload] else []
  }

  lemma {:induction false} TakenForIs(u: User, tr: seq<Action>)
    ensures TakenFor(u, tr) == PayloadsFor(u, TakenMessages(tr))
    decreases |tr|
  {
    if tr != [] {
      var taken, a := TakenMessages(tr[..|tr| - 1]), tr[|tr| - 1];
      TakenForIs(u, tr[..|tr| - 1]);
      if a.TakeBroadcast? {
        assert (taken + [a.m])[..|taken|] == taken;
      } else {
        assert TakenMessages(tr) == taken;
      }
    }
  }

  lemma {:induction false} TakenAppend(a: seq<Action>, b: seq<Action>)
    ensures TakenMessages(a + b) == TakenMessages(a) + TakenMessages(b)
    decreases |b|
  {
    if b == [] {
      assert a + b == a;
    } else {
      TakenAppend(a, b[..|b| - 1]);
      assert (a + b)[..|a + b| - 1] == a + b[..|b| - 1];
    }
  }

  /** The messages taken in the middle of a run are a stretch of those that Send accepted. */
  lemma TakenStretch(before: seq<Action>, middle: seq<Action>, after: seq<Action>)
    requires Valid(before + middle + after)
    ensures var accepted := AcceptedMessages(before + middle + after);
            var from, to := |TakenMessages(before)|, |TakenMessages(before)| + |TakenMessages(middle)|;
            to <= |accepted| && TakenMessages(middle) == accepted[from..to]
  {
    TakenAppend(before, middle);
    TakenAppend(before + middle, after);
    BroadcastInOrder(before + middle + after);
  }

  // ----- Registration before unregistration ----------------------------------------------------------------

  /** The loop took the registration of `c` after its unregistration. */
  ghost predicate Backwards(tr: seq<Action>, c: Client) {
    exists i, j :: 0 <= i < j < |tr| && tr[i] == TakeUnregister(c) && tr[j] == TakeRegister(c)
  }

  lemma BackwardsStays(tr: seq<Action>, a: Action, c: Client)
    requires Backwards(tr, c)
    ensures Backwards(tr + [a], c)
  {
    var i, j :| 0 <= i < j < |tr| && tr[i] == TakeUnregister(c) && tr[j] == TakeRegister(c);
    assert (tr + [a])[i] == TakeUnregister(c) && (tr + [a])[j] == TakeRegister(c);
  }

  lemma {:induction false} FlagsOf(tr: seq<Action>, c: Client)
    ensures var mb := MailboxOf(tr, c);
            && (mb.registered <==> TakeRegister(c) in tr)
            && (mb.closed <==> TakeUnregister(c) in tr)
    decreases |tr|
  {
    if tr != [] {
      FlagsOf(tr[..|tr| - 1], c);
      assert tr == tr[..|tr| - 1] + [tr[|tr| - 1]];
    }
  }

  /** Each connection is registered, and unregistered, at most once. */
  lemma TakenOnce(tr: seq<Action>, a: Action)
    requires Valid(tr + [a]) && !After(tr).panicked
    ensures a.TakeRegister? ==> a !in tr
    ensures a.TakeUnregister? ==> a !in tr
  {
    assert (tr + [a])[..|tr|] == tr;
    HubRefinesMailboxes(tr);
    if a.TakeRegister? || a.TakeUnregister? {
      FlagsOf(tr, a.c);
      assert Agrees(After(tr), a.c, MailboxOf(tr, a.c));
    }
  }

  /** A channel is closed by taking its connection's unregistration, and only so; of a connection that has left,
      either the unregistration still waits or the channel is closed. */
  lemma ClosedExactly(tr: seq<Action>, c: Client)
    requires Valid(tr) && !After(tr).panicked
    ensures var s := After(tr);
            && (c in s.closed <==> TakeUnregister(c) in tr)
            && (c in s.left <==> c in s.closed || c in s.unregister) && !(c in s.closed && c in s.unregister)
  {
    HubRefinesMailboxes(tr);
    assert Agrees(After(tr), c, MailboxOf(tr, c));
    FlagsOf(tr, c);
  }

  lemma {:induction false} PrefixValid(tr: seq<Action>, k: nat)
    requires Valid(tr) && k <= |tr|
    ensures Valid(tr[..k]) && (k < |tr| ==> !After(tr[..k]).panicked)
    decreases |tr|
  {
    if k == |tr| {
      assert tr[..k] == tr;
    } else {
      var front := tr[..|tr| - 1];
      PrefixValid(front, k);
      assert front[..k] == tr[..k];
    }
  }

  lemma TakenBefore(tr: seq<Action>, i: nat, j: nat)
    requires Valid(tr) && i < j < |tr| && (tr[j].TakeRegister? || tr[j].TakeUnregister?)
    ensures tr[i] != tr[j]
  {
    PrefixValid(tr, j);
    PrefixValid(tr, j + 1);
    assert tr[..j + 1] == tr[..j] + [tr[j]];
    TakenOnce(tr[..j], tr[j]);
    assert tr[..j][i] == tr[i];
  }

  /** The life of a connection in any run: its registration is taken once, and its unregistration once. */
  lemma LifeOf(before: seq<Action>, listening: seq<Action>, after: seq<Action>, c: Client)
    requires Valid(before + [TakeRegister(c)] + listening + [TakeUnregister(c)] + after)
    ensures TakeRegister(c) !in before && TakeUnregister(c) !in listening && TakeRegister(c) !in after
  {
    var tr, m := before + [TakeRegister(c)] + listening + [TakeUnregister(c)] + after, |before|;
    var n := m + 1 + |listening|;
    if i: nat :| i < m && before[i] == TakeRegister(c) {
      assert tr[i] == tr[m];
      TakenBefore(tr, i, m);
    }
    if i: nat :| i < |listening| && listening[i] == TakeUnregister(c) {
      assert tr[m + 1 + i] == tr[n];
      TakenBefore(tr, m + 1 + i, n);
    }
    if i: nat :| i < |after| && after[i] == TakeRegister(c) {
      assert tr[n + 1 + i] == tr[m];
      TakenBefore(tr, m, n + 1 + i);
    }
  }

  lemma WindowLog(before: seq<Action>, listening: seq<Action>, after: seq<Action>, c: Client)
    requires TakeRegister(c) !in before && TakeUnregister(c) !in listening && TakeRegister(c) !in after
    ensures MailboxOf(before + [TakeRegister(c)] + listening + [TakeUnregister(c)] + after, c).log ==
            TakenFor(c.user, listening)
  {
    NothingAfterwards([], before, c);
    assert [] + before == before;
    LogIsWindow(before, listening, c);
    var heard := before + [TakeRegister(c)] + listening;
    MailboxSnoc(heard, TakeUnregister(c), c);
    NothingAfterwards(heard + [TakeUnregister(c)], after, c);
  }

  /** What the write pump has read from the connection's buffer. */
  function Received(tr: seq<Action>, c: Client): seq<Payload>
    requires Valid(tr)
    decreases |tr|
  {
    if tr == [] then []
    else
      var front, a := tr[..|tr| - 1], tr[|tr| - 1];
      Received(front, c) + if a == Action.Read(c) then [BufferOf(After(front).buffers, c)[0]] else []
  }

  /** How many messages for its user the loop took while the connection was indexed and its buffer held 256. */
  function MetFull(tr: seq<Action>, c: Client): nat
    requires Valid(tr)
    decreases |tr|
  {
    if tr == [] then 0
    else
      var front, a := tr[..|tr| - 1], tr[|tr| - 1];
      var s := After(front);
      MetFull(front, c) +
      if a.TakeBroadcast? && a.m.user == c.user && c in ConnsOf(s.clients, c.user) && |BufferOf(s.buffers, c)| >= 256
      then 1 else 0
  }

  lemma CountsStep(s: State, a: Action, c: Client, mb: Mailbox)
    requires Enabled(s, a) && Agrees(s, c, mb)
    ensures Observe(c, mb, a).read == mb.read + if a == Action.Read(c) then [BufferOf(s.buffers, c)[0]] else []
    ensures Observe(c, mb, a).dropped ==
            mb.dropped +
            if a.TakeBroadcast? && a.m.user == c.user && c in ConnsOf(s.clients, c.user) &&
               |BufferOf(s.buffers, c)| >= 256
            then 1 else 0
  {
  }

  lemma {:induction false} MailboxCounts(tr: seq<Action>, c: Client)
    requires Valid(tr)
    ensures MailboxOf(tr, c).read == Received(tr, c) && MailboxOf(tr, c).dropped == MetFull(tr, c)
    decreases |tr|
  {
    if tr != [] {
      var front := tr[..|tr| - 1];
      MailboxCounts(front, c);
      HubRefinesMailboxes(front);
      CountsStep(After(front), tr[|tr| - 1], c, MailboxOf(front, c));
    }
  }

  /** Delivery: over the life of a connection in any run, what has been read from its buffer, and then what waits
      there, is in order what its user was sent between its registration and its unregistration, short by exactly
      the messages that met a full buffer. */
  lemma Delivery(before: seq<Action>, listening: seq<Action>, after: seq<Action>, c: Client)
    requires Valid(before + [TakeRegister(c)] + listening + [TakeUnregister(c)] + after)
    ensures var tr := before + [TakeRegister(c)] + listening + [TakeUnregister(c)] + after;
            var waiting, sent := MailboxOf(tr, c).buffer, TakenFor(c.user, listening);
            var got := Received(tr, c) + waiting;
            && Subsequence(got, sent) && |sent| == |got| + MetFull(tr, c) && (MetFull(tr, c) == 0 ==> got == sent)
            && |waiting| <= 256 && (!After(tr).panicked ==> waiting == BufferOf(After(tr).buffers, c))
  {
    var tr := before + [TakeRegister(c)] + listening + [TakeUnregister(c)] + after;
    LifeOf(before, listening, after, c);
    WindowLog(before, listening, after, c);
    DeliveredInOrder(tr, c);
    MailboxCounts(tr, c);
    if !After(tr).panicked {
      HubRefinesMailboxes(tr);
      assert Agrees(After(tr), c, MailboxOf(tr, c));
    }
  }

  lemma SentStretch(before: seq<Action>, listening: seq<Action>, after: seq<Action>, c: Client)
    requires Valid(before + [TakeRegister(c)] + listening + after)
    ensures var accepted := AcceptedMessages(before + [TakeRegister(c)] + listening + after);
            var from, to := |TakenMessages(before)|, |TakenMessages(before)| + |TakenMessages(listening)|;
            to <= |accepted| && TakenFor(c.user, listening) == PayloadsFor(c.user, accepted[from..to])
  {
    TakenForIs(c.user, listening);
    TakenStretch(before + [TakeRegister(c)], listening, after);
    TakenAppend(before, [TakeRegister(c)]);
    assert TakenMessages([TakeRegister(c)]) == [];
  }

  /** From end to end: what has been read from a connection's buffer, and then what waits there, is in order its
      user's part of one stretch of the messages that Send accepted, short by exactly those that met a full buffer.
      The stretch is what the loop took between the connection's registration and its unregistration, right after
      what it took before. */
  lemma SentToBuffer(before: seq<Action>, listening: seq<Action>, after: seq<Action>, c: Client)
    requires Valid(before + [TakeRegister(c)] + listening + [TakeUnregister(c)] + after)
    ensures var tr := before + [TakeRegister(c)] + listening + [TakeUnregister(c)] + after;
            var accepted, got := AcceptedMessages(tr), Received(tr, c) + MailboxOf(tr, c).buffer;
            var from, to := |TakenMessages(before)|, |TakenMessages(before)| + |TakenMessages(listening)|;
            && to <= |accepted|
            && var sent := PayloadsFor(c.user, accepted[from..to]);
               Subsequence(got, sent) && |sent| == |got| + MetFull(tr, c)
  {
    var rest := [TakeUnregister(c)] + after;
    Delivery(before, listening, after, c);
    assert before + [TakeRegister(c)] + listening + [TakeUnregister(c)] + after ==
           before + [TakeRegister(c)] + listening + rest;
    SentStretch(before, listening, rest, c);
  }

  lemma {:induction false} BackwardsShows(tr: seq<Action>, c: Client)
    requires Valid(tr) && !After(tr).panicked
    ensures var mb := MailboxOf(tr, c); mb.live && mb.closed <==> Backwards(tr, c)
    decreases |tr|
  {
    if tr != [] {
      var front, a := tr[..|tr| - 1], tr[|tr| - 1];
      assert tr == front + [a];
      BackwardsShows(front, c);
      TakenOnce(front, a);
      FlagsOf(front, c);
      if a == TakeRegister(c) && TakeUnregister(c) in front {
        var i :| 0 <= i < |front| && front[i] == TakeUnregister(c);
        assert tr[i] == TakeUnregister(c) && tr[|front|] == TakeRegister(c);
      }
      if Backwards(front, c) {
        BackwardsStays(front, a, c);
      }
      if Backwards(tr, c) {
        var i, j :| 0 <= i < j < |tr| && tr[i] == TakeUnregister(c) && tr[j] == TakeRegister(c);
        assert tr[i] == front[i];
        if j < |front| {
          assert front[j] == TakeRegister(c);
        }
      }
    }
  }

  lemma StaleExactly(tr: seq<Action>, c: Client)
    requires Valid(tr) && !After(tr).panicked
    ensures c in ConnsOf(After(tr).clients, c.user) && c in After(tr).closed <==> Backwards(tr, c)
  {
    HubRefinesMailboxes(tr);
    assert Agrees(After(tr), c, MailboxOf(tr, c));
    BackwardsShows(tr, c);
  }

  /** Every indexed connection has an open channel, if and only if the loop never took a registration after
      the same connection's unregistration. The code does not force that order. */
  lemma ChannelsOpenExactly(tr: seq<Action>)
    requires Valid(tr) && !After(tr).panicked
    ensures (forall u, c | u in After(tr).clients && c in After(tr).clients[u] :: c !in After(tr).closed) <==>
            (forall c: Client :: !Backwards(tr, c))
  {
    HubRefinesMailboxes(tr);
    forall c: Client
      ensures c in ConnsOf(After(tr).clients, c.user) && c in After(tr).closed <==> Backwards(tr, c)
    {
      StaleExactly(tr, c);
    }
  }

  /** With that order, the loop never crashes: nothing is sent on a closed channel and none is closed twice. */
  lemma {:induction false} InOrderNeverPanics(tr: seq<Action>)
    requires Valid(tr) && forall c: Client :: !Backwards(tr, c)
    ensures !After(tr).panicked
    decreases |tr|
  {
    if tr != [] {
      var front, a := tr[..|tr| - 1], tr[|tr| - 1];
      assert tr == front + [a];
      forall c: Client ensures !Backwards(front, c) {
        if Backwards(front, c) {
          BackwardsStays(front, a, c);
        }
      }
      InOrderNeverPanics(front);
      HubRefinesMailboxes(front);
      ChannelsOpenExactly(front);
      if a.TakeUnregister? {
        assert Agrees(After(front), a.c, MailboxOf(front, a.c));
      }
    }
  }

  /** What crashes the loop, step by step: taking a message for a user who has a backwards connection, and
      nothing else. */
  lemma PanicsExactly(tr: seq<Action>, a: Action)
    requires Valid(tr) && Enabled(After(tr), a)
    ensures Apply(After(tr), a).panicked <==>
            a.TakeBroadcast? && exists c: Client :: c.user == a.m.user && Backwards(tr, c)
  {
    var s := After(tr);
    HubRefinesMailboxes(tr);
    if a.TakeUnregister? {
      assert Agrees(s, a.c, MailboxOf(tr, a.c));
    } else if a.TakeBroadcast? {
      var stale := ConnsOf(s.clients, a.m.user) * s.closed;
      if c: Client :| c.user == a.m.user && Backwards(tr, c) {
        StaleExactly(tr, c);
        assert c in stale;
      } else if c: Client :| c in stale {
        StaleExactly(tr, c);
      }
    }
  }

  /** A message for the user of a connection taken backwards before it. */
  ghost predicate SentAstray(tr: seq<Action>, k: nat, c: Client) {
    k < |tr| && tr[k].TakeBroadcast? && tr[k].m.user == c.user && Backwards(tr[..k], c)
  }

  /** And over whole runs: the loop has crashed if and only if it has taken such a message. */
  lemma {:induction false} RunPanicsExactly(tr: seq<Action>)
    requires Valid(tr)
    ensures After(tr).panicked <==> exists k, c: Client :: SentAstray(tr, k, c)
    decreases |tr|
  {
    if tr != [] {
      var n := |tr| - 1;
      var front, a := tr[..n], tr[n];
      forall k, c: Client | 0 <= k < n && SentAstray(tr, k, c) ensures SentAstray(front, k, c) {
        assert front[..k] == tr[..k];
      }
      RunPanicsExactly(front);
      PanicsExactly(front, a);
      if a.TakeBroadcast? {
        if c: Client :| c.user == a.m.user && Backwards(front, c) {
          assert SentAstray(tr, n, c);
        }
      }
    }
  }

  lemma OneMore(tr: seq<Action>, a: Action)
    requires Valid(tr) && Enabled(After(tr), a)
    ensures Valid(tr + [a]) && After(tr + [a]) == Apply(After(tr), a)
  {
    assert (tr + [a])[..|tr|] == tr;
  }

  /** Without it the loop can crash: a connection that leaves early is indexed after its channel was closed,
      and the next message to its user is sent on the closed channel. */
  lemma BackwardsCanPanic(c: Client, p: Payload)
    ensures var tr := [Register(c)] + [Unregister(c)] + [TakeUnregister(c)] + [TakeRegister(c)] +
                      [Send(Message(c.user, p))] + [TakeBroadcast(Message(c.user, p))];
            Valid(tr) && After(tr).panicked
  {
    var m := Message(c.user, p);
    OneMore([], Register(c));
    assert [] + [Register(c)] == [Register(c)];
    var tr := [Register(c)];
    OneMore(tr, Unregister(c));
    tr := tr + [Unregister(c)];
    OneMore(tr, TakeUnregister(c));
    tr := tr + [TakeUnregister(c)];
    OneMore(tr, TakeRegister(c));
    tr := tr + [TakeRegister(c)];
    assert c in ConnsOf(After(tr).clients, c.user) * After(tr).closed;
    OneMore(tr, Send(m));
    tr := tr + [Send(m)];
    OneMore(tr, TakeBroadcast(m));
  }
}
