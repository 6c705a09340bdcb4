/** Real-time collaboration (Downloads/notes/backend/websocket_routes.py): the connection
    manager's registry of open sockets per project and per user, broadcasting with the sender
    left out and failed sockets pruned, and one connection's life from connect to disconnect.
    Sending is modelled by the list of deliveries it makes; whether a send fails is an oracle. */
module Websocket {
  import opened Common

  /** An accepted socket; sockets are compared by identity. */
  datatype Socket = Socket(id: nat)

  /** One entry of `user_connections`. */
  datatype Binding = Binding(userId: int, socket: Socket)

  // ---------------------------------------------------------------- user_connections, a dict in insertion order

  /** The socket the dict maps this user to. */
  function Bound(users: seq<Binding>, userId: int): (r: Option<Socket>)
    ensures r.Some? ==> Binding(userId, r.value) in users
    ensures r.None? <==> forall i :: 0 <= i < |users| ==> users[i].userId != userId
  {
    if users == [] then None
    else if users[0].userId == userId then Some(users[0].socket)
    else Bound(users[1..], userId)
  }

  /** `users[userId] = ws`: an existing key keeps its place, a new one goes last. */
  function Put(users: seq<Binding>, userId: int, ws: Socket): (r: seq<Binding>)
    ensures Bound(r, userId) == Some(ws)
    ensures forall u :: u != userId ==> Bound(r, u) == Bound(users, u)
    ensures Bound(users, userId).None? ==> r == users + [Binding(userId, ws)]
  {
    if users == [] then [Binding(userId, ws)]
    else if users[0].userId == userId then [Binding(userId, ws)] + users[1..]
    else [users[0]] + Put(users[1..], userId, ws)
  }

  /** `del users[userId]`, and nothing when the key is absent. */
  function Del(users: seq<Binding>, userId: int): (r: seq<Binding>)
    ensures Bound(r, userId).None?
    ensures forall u :: u != userId ==> Bound(r, u) == Bound(users, u)
    ensures Bound(users, userId).None? ==> r == users
  {
    if users == [] then []
    else if users[0].userId == userId then Del(users[1..], userId)
    else [users[0]] + Del(users[1..], userId)
  }

  /** `[uid for uid, ws in users.items() if ws == c][0]`, when there is one. */
  function FirstUserOf(users: seq<Binding>, c: Socket): (r: Option<int>)
    ensures r.Some? ==> Binding(r.value, c) in users
    ensures r.None? <==> forall i :: 0 <= i < |users| ==> users[i].socket != c
  {
    if users == [] then None
    else if users[0].socket == c then Some(users[0].userId)
    else FirstUserOf(users[1..], c)
  }

  /** Deleting what was just put leaves the dict as deleting alone would. */
  lemma {:induction false} DelPut(users: seq<Binding>, userId: int, ws: Socket)
    ensures Del(Put(users, userId, ws), userId) == Del(users, userId)
  {
    if users != [] && users[0].userId != userId {
      DelPut(users[1..], userId, ws);
    }
  }

  // ---------------------------------------------------------------- active_connections

  /** `list.remove(x)`: the first occurrence goes, or nothing when there is none. */
  function RemoveFirst(s: seq<Socket>, x: Socket): (r: seq<Socket>)
    ensures multiset(r) == multiset(s) - multiset{x}
    ensures x !in s ==> r == s
  {
    if s == [] then []
    else if s[0] == x then
      assert s == [s[0]] + s[1..];
      s[1..]
    else
      assert s == [s[0]] + s[1..];
      [s[0]] + RemoveFirst(s[1..], x)
  }

  /** Removing an element just appended, and absent before, restores the list. */
  lemma {:induction false} RemoveFirstAppended(s: seq<Socket>, x: Socket)
    requires x !in s
    ensures RemoveFirst(s + [x], x) == s
  {
    if s != [] {
      assert (s + [x])[1..] == s[1..] + [x];
      RemoveFirstAppended(s[1..], x);
    }
  }

  /** `connect`'s change to the project lists: the socket goes last in its project's list,
      which is created when absent. */
  function Plugged(active: map<int, seq<Socket>>, ws: Socket, projectId: int): (r: map<int, seq<Socket>>)
    ensures r.Keys == active.Keys + {projectId}
    ensures forall p :: p in active && p != projectId ==> r[p] == active[p]
    ensures projectId in active ==> r[projectId] == active[projectId] + [ws]
    ensures projectId !in active ==> r[projectId] == [ws]
  {
    active[projectId := (if projectId in active then active[projectId] else []) + [ws]]
  }

  /** `disconnect`'s change: one occurrence of the socket leaves its project's list, and a list
      left empty loses its key; an unknown project is left alone. */
  function Unplugged(active: map<int, seq<Socket>>, ws: Socket, projectId: int): (r: map<int, seq<Socket>>)
    ensures projectId !in active ==> r == active
    ensures r.Keys <= active.Keys && active.Keys - r.Keys <= {projectId}
    ensures forall p :: p in r && p != projectId ==> r[p] == active[p]
    ensures projectId in active ==>
      && (projectId in r <==> RemoveFirst(active[projectId], ws) != [])
      && (projectId in r ==> r[projectId] == RemoveFirst(active[projectId], ws))
  {
    if projectId !in active then active
    else
      var rest := RemoveFirst(active[projectId], ws);
      if rest == [] then active - {projectId} else active[projectId := rest]
  }

  // ---------------------------------------------------------------- the registry

  datatype Conns = Conns(active: map<int, seq<Socket>>, users: seq<Binding>)

  function ConnectState(c: Conns, ws: Socket, projectId: int, userId: int): Conns {
    Conns(Plugged(c.active, ws, projectId), Put(c.users, userId, ws))
  }

  function DisconnectState(c: Conns, ws: Socket, projectId: int, userId: int): Conns {
    Conns(Unplugged(c.active, ws, projectId), Del(c.users, userId))
  }

  /** Disconnecting a socket just connected, and new to its project's list, restores the
      project lists. */
  lemma PluggedRoundTrip(active: map<int, seq<Socket>>, ws: Socket, projectId: int)
    requires projectId !in active || (ws !in active[projectId] && active[projectId] != [])
    ensures Unplugged(Plugged(active, ws, projectId), ws, projectId) == active
  {
    if projectId in active {
      PluggedRoundTripKnown(active, ws, projectId);
    } else {
      PluggedRoundTripNew(active, ws, projectId);
    }
  }

  lemma PluggedRoundTripKnown(active: map<int, seq<Socket>>, ws: Socket, projectId: int)
    requires projectId in active && ws !in active[projectId] && active[projectId] != []
    ensures Unplugged(Plugged(active, ws, projectId), ws, projectId) == active
  {
    var s := active[projectId];
    var a := active[projectId := s + [ws]];
    assert Plugged(active, ws, projectId) == a;
    RemoveFirstAppended(s, ws);
    assert RemoveFirst(a[projectId], ws) == s;
    assert Unplugged(a, ws, projectId) == a[projectId := s];
    assert a[projectId := s] == active;
  }

  lemma PluggedRoundTripNew(active: map<int, seq<Socket>>, ws: Socket, projectId: int)
    requires projectId !in active
    ensures Unplugged(Plugged(active, ws, projectId), ws, projectId) == active
  {
    var a := active[projectId := [ws]];
    assert Plugged(active, ws, projectId) == a;
    assert RemoveFirst([ws], ws) == [];
    assert Unplugged(a, ws, projectId) == a - {projectId};
    assert a - {projectId} == active;
  }

  /** A socket that connects, new to its project's list, and then disconnects leaves the
      project lists as they were and the user unbound; an unbound user leaves nothing behind. */
  lemma ConnectDisconnectRoundTrip(c: Conns, ws: Socket, projectId: int, userId: int)
    requires projectId !in c.active || (ws !in c.active[projectId] && c.active[projectId] != [])
    ensures DisconnectState(ConnectState(c, ws, projectId, userId), ws, projectId, userId) == c.(users := Del(c.users, userId))
    ensures Bound(c.users, userId).None? ==> DisconnectState(ConnectState(c, ws, projectId, userId), ws, projectId, userId) == c
  {
    DelPut(c.users, userId, ws);
    PluggedRoundTrip(c.active, ws, projectId);
  }

  // ---------------------------------------------------------------- broadcasting

  /** The sender test: an exclusion is asked for (user 0 is as good as none) and the first
      user mapped to this socket is the excluded one. */
  predicate Skipped(users: seq<Binding>, exclude: Option<int>, c: Socket) {
    GivenId(exclude) && FirstUserOf(users, c) == Some(exclude.value)
  }

  /** The sockets a broadcast reaches, in list order. */
  function Delivered(conns: seq<Socket>, users: seq<Binding>, exclude: Option<int>, fails: Socket -> bool): (r: seq<Socket>)
    ensures forall x :: x in r <==> x in conns && !Skipped(users, exclude, x) && !fails(x)
  {
    if conns == [] then []
    else
      var c := conns[|conns| - 1];
      var earlier := Delivered(conns[..|conns| - 1], users, exclude, fails);
      assert conns == conns[..|conns| - 1] + [c];
      if !Skipped(users, exclude, c) && !fails(c) then earlier + [c] else earlier
  }

  /** The sockets whose send raised, in list order. */
  function Failed(conns: seq<Socket>, users: seq<Binding>, exclude: Option<int>, fails: Socket -> bool): (r: seq<Socket>)
    ensures forall x :: x in r <==> x in conns && !Skipped(users, exclude, x) && fails(x)
  {
    if conns == [] then []
    else
      var c := conns[|conns| - 1];
      var earlier := Failed(conns[..|conns| - 1], users, exclude, fails);
      assert conns == conns[..|conns| - 1] + [c];
      if !Skipped(users, exclude, c) && fails(c) then earlier + [c] else earlier
  }

  /** `[c for c in s if c != x]`. */
  function Without(s: seq<Socket>, x: Socket): (r: seq<Socket>)
    ensures forall y :: y in r <==> y in s && y != x
    ensures multiset(r) <= multiset(s)
  {
    if s == [] then []
    else
      assert s == [s[0]] + s[1..];
      (if s[0] == x then [] else [s[0]]) + Without(s[1..], x)
  }

  /** The pruning loop: every failed socket filtered out in turn. */
  function Prune(s: seq<Socket>, failed: seq<Socket>): (r: seq<Socket>)
    ensures forall y :: y in r <==> y in s && y !in failed
    ensures multiset(r) <= multiset(s)
  {
    if failed == [] then s
    else Without(Prune(s, failed[..|failed| - 1]), failed[|failed| - 1])
  }

  datatype Sent = Sent(conns: Conns, to: seq<Socket>)

  /** `broadcast_to_project`: nothing for a project without a list; otherwise every socket of
      the list but the sender's is sent to, and those whose send failed are pruned from the
      list, whose key stays even when it empties. */
  function BroadcastState(c: Conns, projectId: int, exclude: Option<int>, fails: Socket -> bool): (r: Sent)
    ensures r.conns.users == c.users && r.conns.active.Keys == c.active.Keys
    ensures forall p :: p in c.active ==> multiset(r.conns.active[p]) <= multiset(c.active[p])
    ensures forall p :: p in c.active && p != projectId ==> r.conns.active[p] == c.active[p]
    ensures projectId !in c.active ==> r == Sent(c, [])
    ensures projectId in c.active ==>
      && (forall x :: x in r.to <==> x in c.active[projectId] && !Skipped(c.users, exclude, x) && !fails(x))
      && (forall x :: x in r.conns.active[projectId] <==> x in c.active[projectId] && (Skipped(c.users, exclude, x) || !fails(x)))
  {
    if projectId !in c.active then Sent(c, [])
    else
      var conns := c.active[projectId];
      Sent(c.(active := c.active[projectId := Prune(conns, Failed(conns, c.users, exclude, fails))]),
           Delivered(conns, c.users, exclude, fails))
  }

  // ---------------------------------------------------------------- the manager

  /** `list.remove(ws)` guarded by `ws in list`. */
  method Discard(list: seq<Socket>, ws: Socket) returns (r: seq<Socket>)
    ensures r == RemoveFirst(list, ws)
  {
    r := list;
    if ws in list {
      r := RemoveFirst(list, ws);
    }
  }

  class ConnectionManager {
    var active: map<int, seq<Socket>>
    var users: seq<Binding>

    function State(): Conns
      reads this
    {
      Conns(active, users)
    }

    constructor ()
      ensures State() == Conns(map[], [])
    {
      active := map[];
      users := [];
    }

    method Connect(ws: Socket, projectId: int, userId: int)
      modifies this
      ensures State() == ConnectState(old(State()), ws, projectId, userId)
    {
      if projectId !in active {
        active := active[projectId := []];
      }
      active := active[projectId := active[projectId] + [ws]];
      users := Put(users, userId, ws);
    }

    method Disconnect(ws: Socket, projectId: int, userId: int)
      modifies this
      ensures State() == DisconnectState(old(State()), ws, projectId, userId)
    {
      Unplug(ws, projectId);
      if Bound(users, userId).Some? {
        users := Del(users, userId);
      }
    }

    /** The project-list half of `disconnect`. */
    method Unplug(ws: Socket, projectId: int)
      modifies this
      ensures active == Unplugged(old(active), ws, projectId) && users == old(users)
    {
      if projectId in active {
        var list := Discard(active[projectId], ws);
        if list == [] {
          active := active - {projectId};
        } else {
          active := active[projectId := list];
        }
      }
    }

    /** The send loop, then the pruning loop. */
    method Broadcast(projectId: int, exclude: Option<int>, fails: Socket -> bool) returns (delivered: seq<Socket>)
      modifies this
      ensures Sent(State(), delivered) == BroadcastState(old(State()), projectId, exclude, fails)
    {
      delivered := [];
      if projectId !in active {
        return;
      }
      var conns := active[projectId];
      var failed;
      delivered, failed := SendAll(conns, users, exclude, fails);
      PruneAll(projectId, failed);
    }

    /** Filters each failed socket out of the project's list in turn. */
    method PruneAll(projectId: int, failed: seq<Socket>)
      requires projectId in active
      modifies this
      ensures users == old(users)
      ensures active == old(active)[projectId := Prune(old(active)[projectId], failed)]
    {
      var list := active[projectId];
      var j := 0;
      while j < |failed|
        invariant 0 <= j <= |failed|
        invariant list == Prune(old(active)[projectId], failed[..j])
      {
        assert failed[..j + 1][..j] == failed[..j];
        list := Without(list, failed[j]);
        j := j + 1;
      }
      assert failed[..|failed|] == failed;
      active := active[projectId := list];
    }
  }

  /** The send loop: each socket but the sender's is sent to; a send that raises is noted. */
  method SendAll(conns: seq<Socket>, users: seq<Binding>, exclude: Option<int>, fails: Socket -> bool)
    returns (delivered: seq<Socket>, failed: seq<Socket>)
    ensures delivered == Delivered(conns, users, exclude, fails)
    ensures failed == Failed(conns, users, exclude, fails)
  {
    delivered, failed := [], [];
    var i := 0;
    while i < |conns|
      invariant 0 <= i <= |conns|
      invariant delivered == Delivered(conns[..i], users, exclude, fails)
      invariant failed == Failed(conns[..i], users, exclude, fails)
    {
      assert conns[..i + 1][..i] == conns[..i];
      var c := conns[i];
      if !Skipped(users, exclude, c) {
        if fails(c) {
          failed := failed + [c];
        } else {
          delivered := delivered + [c];
        }
      }
      i := i + 1;
    }
    assert conns[..|conns|] == conns;
  }

  // ---------------------------------------------------------------- messages

  /** What the server sends. */
  datatype Event =
    | Welcome(projectId: int)
    | UserJoined(userId: int, projectId: int)
    | UserLeft(userId: int, projectId: int)
    | FileEdit(fileId: Option<int>, filePath: Option<string>, content: Option<string>, userId: int, projectId: int)
    | CursorMove(fileId: Option<int>, position: Option<string>, userId: int, projectId: int)
    | ChatMessage(message: Option<string>, userId: int, projectId: int)
    | Pong

  /** The fields of a client message the endpoint reads, each absent when missing. */
  datatype Message = Message(
    kind: Option<string>, fileId: Option<int>, filePath: Option<string>, content: Option<string>,
    position: Option<string>, message: Option<string>)

  /** A text frame: a JSON object, or something `json.loads` or `.get` cannot handle. */
  datatype Incoming = Parsed(msg: Message) | Malformed

  datatype Action = Rebroadcast(event: Event) | Reply(event: Event) | Ignore

  /** An event stamped with the connection's own user and project. */
  predicate StampedBy(e: Event, userId: int, projectId: int) {
    && (e.FileEdit? || e.CursorMove? || e.ChatMessage?)
    && e.userId == userId && e.projectId == projectId
  }

  /** The dispatch on the message type: edits, cursor moves and chat go to the others with
      the sender's identity taken from the connection, a ping is answered, the rest ignored. */
  function Route(msg: Message, userId: int, projectId: int): (r: Action)
    ensures r.Rebroadcast? <==> msg.kind in {Some("file_edit"), Some("cursor_move"), Some("chat_message")}
    ensures r.Rebroadcast? ==> StampedBy(r.event, userId, projectId)
    ensures r == Reply(Pong) <==> msg.kind == Some("ping")
    ensures r == Ignore <==> msg.kind !in {Some("file_edit"), Some("cursor_move"), Some("chat_message"), Some("ping")}
  {
    match msg.kind
    case Some("file_edit") => Rebroadcast(FileEdit(msg.fileId, msg.filePath, msg.content, userId, projectId))
    case Some("cursor_move") => Rebroadcast(CursorMove(msg.fileId, msg.position, userId, projectId))
    case Some("chat_message") => Rebroadcast(ChatMessage(msg.message, userId, projectId))
    case Some("ping") => Reply(Pong)
    case _ => Ignore
  }

  datatype Delivery = Delivery(to: Socket, event: Event)

  datatype Outcome = Outcome(conns: Conns, out: seq<Delivery>)

  function Deliveries(to: seq<Socket>, e: Event): (r: seq<Delivery>)
    ensures forall d :: d in r <==> d.event == e && d.to in to
  {
    if to == [] then []
    else
      assert to == [to[0]] + to[1..];
      [Delivery(to[0], e)] + Deliveries(to[1..], e)
  }

  /** One received message. */
  function OnMessage(c: Conns, ws: Socket, projectId: int, userId: int, msg: Message, fails: Socket -> bool): (r: Outcome)
    ensures r.conns.users == c.users && r.conns.active.Keys == c.active.Keys
    ensures msg.kind == Some("ping") ==> r == Outcome(c, [Delivery(ws, Pong)])
    ensures msg.kind !in {Some("file_edit"), Some("cursor_move"), Some("chat_message"), Some("ping")} ==> r == Outcome(c, [])
    ensures forall d :: d in r.out ==> d == Delivery(ws, Pong) || StampedBy(d.event, userId, projectId)
  {
    match Route(msg, userId, projectId)
    case Rebroadcast(e) =>
      var s := BroadcastState(c, projectId, Some(userId), fails);
      Outcome(s.conns, Deliveries(s.to, e))
    case Reply(e) => Outcome(c, [Delivery(ws, e)])
    case Ignore => Outcome(c, [])
  }

  /** A registered sender with a nonzero id never gets its own edits, cursor moves or chat
      back. */
  lemma SenderNotEchoed(c: Conns, ws: Socket, projectId: int, userId: int, msg: Message, fails: Socket -> bool)
    requires userId != 0 && FirstUserOf(c.users, ws) == Some(userId)
    ensures forall d :: d in OnMessage(c, ws, projectId, userId, msg, fails).out && d.event != Pong ==> d.to != ws
  {
  }

  /** User 0 counts as no exclusion: an anonymous sender whose send works gets its own chat
      message back. */
  lemma AnonymousEchoed(c: Conns, ws: Socket, projectId: int, msg: Message, fails: Socket -> bool)
    requires msg.kind == Some("chat_message")
    requires projectId in c.active && ws in c.active[projectId] && !fails(ws)
    ensures Delivery(ws, ChatMessage(msg.message, 0, projectId)) in OnMessage(c, ws, projectId, 0, msg, fails).out
  {
  }

  // ---------------------------------------------------------------- a connection's life

  /** Accept and register, greet the socket, announce the user to the others. */
  function Open(c: Conns, ws: Socket, projectId: int, userId: int, fails: Socket -> bool): (r: Outcome)
    ensures r.out != [] && r.out[0] == Delivery(ws, Welcome(projectId))
    ensures forall d :: d in r.out[1..] ==> d.event == UserJoined(userId, projectId)
    ensures Bound(r.conns.users, userId) == Some(ws) && projectId in r.conns.active
  {
    var s := BroadcastState(ConnectState(c, ws, projectId, userId), projectId, Some(userId), fails);
    Outcome(s.conns, [Delivery(ws, Welcome(projectId))] + Deliveries(s.to, UserJoined(userId, projectId)))
  }

  /** After the client went away: unregister, then tell everyone left. */
  function Close(c: Conns, ws: Socket, projectId: int, userId: int, fails: Socket -> bool): (r: Outcome)
    ensures Bound(r.conns.users, userId).None?
    ensures forall d :: d in r.out ==> d.event == UserLeft(userId, projectId)
  {
    var s := BroadcastState(DisconnectState(c, ws, projectId, userId), projectId, None, fails);
    Outcome(s.conns, Deliveries(s.to, UserLeft(userId, projectId)))
  }

  datatype Served = Served(conns: Conns, out: seq<Delivery>, crashed: bool)

  /** The receive loop over the frames, stopping at the first one that raises. */
  function Serve(c: Conns, ws: Socket, projectId: int, userId: int, inbox: seq<Incoming>, fails: Socket -> bool): (r: Served)
    ensures r.crashed <==> Malformed in inbox
    ensures forall d :: d in r.out ==> d == Delivery(ws, Pong) || StampedBy(d.event, userId, projectId)
    decreases |inbox|
  {
    if inbox == [] then Served(c, [], false)
    else match inbox[0]
      case Malformed => Served(c, [], true)
      case Parsed(msg) =>
        assert inbox == [inbox[0]] + inbox[1..];
        var o := OnMessage(c, ws, projectId, userId, msg, fails);
        var rest := Serve(o.conns, ws, projectId, userId, inbox[1..], fails);
        Served(rest.conns, o.out + rest.out, rest.crashed)
  }

  /** The loop stops exactly at a frame that raises, and only ever prunes the project lists:
      it adds no socket and binds no user. */
  lemma {:induction false} ServeOnlyPrunes(c: Conns, ws: Socket, projectId: int, userId: int, inbox: seq<Incoming>, fails: Socket -> bool)
    ensures var r := Serve(c, ws, projectId, userId, inbox, fails);
      && (r.crashed <==> Malformed in inbox)
      && r.conns.users == c.users && r.conns.active.Keys == c.active.Keys
      && forall p :: p in c.active ==> multiset(r.conns.active[p]) <= multiset(c.active[p])
    decreases |inbox|
  {
    if inbox != [] && inbox[0].Parsed? {
      var o := OnMessage(c, ws, projectId, userId, inbox[0].msg, fails);
      ServeOnlyPrunes(o.conns, ws, projectId, userId, inbox[1..], fails);
      assert inbox == [inbox[0]] + inbox[1..];
    }
  }

  /** `websocket_endpoint` as written: only `WebSocketDisconnect` leads to the clean-up, so a
      frame that is not a JSON object ends the connection with its registration left behind. */
  function SessionAsWritten(c: Conns, ws: Socket, projectId: int, userId: int, inbox: seq<Incoming>, fails: Socket -> bool): (r: Outcome)
    ensures r.out != [] && r.out[0] == Delivery(ws, Welcome(projectId))
    ensures Malformed !in inbox ==> r == Session(c, ws, projectId, userId, inbox, fails)
    ensures Malformed in inbox ==> Bound(r.conns.users, userId) == Some(ws)
  {
    var o := Open(c, ws, projectId, userId, fails);
    var s := Serve(o.conns, ws, projectId, userId, inbox, fails);
    ServeOnlyPrunes(o.conns, ws, projectId, userId, inbox, fails);
    if s.crashed then Outcome(s.conns, o.out + s.out)
    else
      var e := Close(s.conns, ws, projectId, userId, fails);
      Outcome(e.conns, o.out + s.out + e.out)
  }

  /** A malformed first frame from user 1 on an empty registry leaves socket and user
      registered. */
  lemma StaleAfterMalformed()
    ensures var ws := Socket(1);
      var r := SessionAsWritten(Conns(map[], []), ws, 1, 1, [Malformed], _ => false);
      r.conns.active == map[1 := [ws]] && Bound(r.conns.users, 1) == Some(ws)
  {
    var ws := Socket(1);
    var c1 := ConnectState(Conns(map[], []), ws, 1, 1);
    assert c1.users == [Binding(1, ws)];
    assert c1.active == map[1 := [ws]];
    assert Skipped(c1.users, Some(1), ws);
    assert Failed(c1.active[1], c1.users, Some(1), _ => false) == [];
    var o := Open(Conns(map[], []), ws, 1, 1, _ => false);
    assert o.conns == c1;
    var s := Serve(o.conns, ws, 1, 1, [Malformed], _ => false);
    assert s.crashed && s.conns == c1;
  }

  /** The endpoint with its clean-up on every way out of the receive loop. */
  function Session(c: Conns, ws: Socket, projectId: int, userId: int, inbox: seq<Incoming>, fails: Socket -> bool): (r: Outcome)
    ensures r.out != [] && r.out[0] == Delivery(ws, Welcome(projectId))
    ensures Bound(r.conns.users, userId).None?
  {
    var o := Open(c, ws, projectId, userId, fails);
    var s := Serve(o.conns, ws, projectId, userId, inbox, fails);
    var e := Close(s.conns, ws, projectId, userId, fails);
    Outcome(e.conns, o.out + s.out + e.out)
  }

  /** However the session ends, a socket new to its project is gone from the project's list
      and the user from the dict. */
  lemma {:induction false} SessionUnregisters(c: Conns, ws: Socket, projectId: int, userId: int, inbox: seq<Incoming>, fails: Socket -> bool)
    requires projectId !in c.active || ws !in c.active[projectId]
    ensures var r := Session(c, ws, projectId, userId, inbox, fails).conns;
      && (projectId in r.active ==> ws !in r.active[projectId])
      && Bound(r.users, userId).None?
  {
    var o := Open(c, ws, projectId, userId, fails);
    var c1 := ConnectState(c, ws, projectId, userId);
    assert multiset(c1.active[projectId])[ws] == 1 by {
      if projectId in c.active {
        assert c1.active[projectId] == c.active[projectId] + [ws];
        assert multiset(c.active[projectId])[ws] == 0;
      }
    }
    assert multiset(o.conns.active[projectId])[ws] <= 1;
    var s := Serve(o.conns, ws, projectId, userId, inbox, fails);
    ServeOnlyPrunes(o.conns, ws, projectId, userId, inbox, fails);
    assert multiset(s.conns.active[projectId])[ws] <= 1;
    var d := DisconnectState(s.conns, ws, projectId, userId);
    assert projectId in d.active ==> multiset(d.active[projectId])[ws] == 0;
  }

  /** The receive loop. */
  method ServeLoop(m: ConnectionManager, ws: Socket, projectId: int, userId: int, inbox: seq<Incoming>, fails: Socket -> bool)
    returns (out: seq<Delivery>, crashed: bool)
    modifies m
    ensures Served(m.State(), out, crashed) == Serve(old(m.State()), ws, projectId, userId, inbox, fails)
  {
    ghost var start := m.State();
    out, crashed := [], false;
    var i := 0;
    while i < |inbox| && !crashed
      invariant 0 <= i <= |inbox|
      invariant var whole := Serve(start, ws, projectId, userId, inbox, fails);
        var rest := Serve(m.State(), ws, projectId, userId, inbox[i..], fails);
        && (crashed ==> whole.conns == m.State() && whole.crashed && out == whole.out)
        && (!crashed ==> rest.conns == whole.conns && rest.crashed == whole.crashed && whole.out == out + rest.out)
      decreases |inbox| - i, if crashed then 0 else 1
    {
      ServeUnfold(m.State(), ws, projectId, userId, inbox, i, fails);
      match inbox[i]
      case Malformed =>
        crashed := true;
      case Parsed(msg) =>
        ghost var before := out;
        var reached := HandleMessage(m, ws, projectId, userId, msg, fails);
        out := out + reached;
        i := i + 1;
        assert forall x: seq<Delivery> :: before + (reached + x) == out + x;
    }
  }

  /** One step of the receive loop, from frame `i` on. */
  lemma ServeUnfold(c: Conns, ws: Socket, projectId: int, userId: int, inbox: seq<Incoming>, i: nat, fails: Socket -> bool)
    requires i < |inbox|
    ensures inbox[i].Malformed? ==> Serve(c, ws, projectId, userId, inbox[i..], fails) == Served(c, [], true)
    ensures inbox[i].Parsed? ==>
      var o := OnMessage(c, ws, projectId, userId, inbox[i].msg, fails);
      var rest := Serve(o.conns, ws, projectId, userId, inbox[i + 1..], fails);
      Serve(c, ws, projectId, userId, inbox[i..], fails) == Served(rest.conns, o.out + rest.out, rest.crashed)
  {
    assert inbox[i..][1..] == inbox[i + 1..];
  }

  /** The endpoint: connect and announce, serve the frames until the client leaves or a frame
      cannot be read, then unregister and announce the departure. */
  method Endpoint(m: ConnectionManager, ws: Socket, projectId: int, userId: int, inbox: seq<Incoming>, fails: Socket -> bool)
    returns (out: seq<Delivery>)
    modifies m
    ensures Outcome(m.State(), out) == Session(old(m.State()), ws, projectId, userId, inbox, fails)
  {
    m.Connect(ws, projectId, userId);
    var joined := m.Broadcast(projectId, Some(userId), fails);
    out := [Delivery(ws, Welcome(projectId))] + Deliveries(joined, UserJoined(userId, projectId));
    var served, crashed := ServeLoop(m, ws, projectId, userId, inbox, fails);
    out := out + served;
    m.Disconnect(ws, projectId, userId);
    var left := m.Broadcast(projectId, None, fails);
    out := out + Deliveries(left, UserLeft(userId, projectId));
  }

  /** One received message, dispatched. */
  method HandleMessage(m: ConnectionManager, ws: Socket, projectId: int, userId: int, msg: Message, fails: Socket -> bool)
    returns (out: seq<Delivery>)
    modifies m
    ensures Outcome(m.State(), out) == OnMessage(old(m.State()), ws, projectId, userId, msg, fails)
  {
    match Route(msg, userId, projectId)
    case Rebroadcast(e) =>
      var to := m.Broadcast(projectId, Some(userId), fails);
      out := Deliveries(to, e);
    case Reply(e) =>
      out := [Delivery(ws, e)];
    case Ignore =>
      out := [];
  }
}
