/**
 * ChatRoomServer of server.cpp: two maps updated in place, each handler run taken as one step.
 *
 * What a handler sends goes to `mail`, one list of messages for each connection. The order in which the names are
 * walked is the container's; the handlers report it.
 */
module ChatServer {
  import opened Bytes
  import opened Protocol
  import opened ServerSpec

  /** What a connection has been sent so far. */
  type Mail = map<Conn, seq<bytes>>

  function Sent(m: Mail, c: Conn): seq<bytes> {
    if c in m then m[c] else []
  }

  function Deliver(m: Mail, posts: Posts): Mail {
    map c | c in m.Keys + posts.Keys :: if c in posts then Sent(m, c) + [posts[c]] else m[c]
  }

  /** Everyone a handler sends to has one message more, at the end; nobody else has. */
  lemma DeliverExact(m: Mail, posts: Posts, c: Conn)
    ensures Sent(Deliver(m, posts), c) == Sent(m, c) + if c in posts then [posts[c]] else []
  {
    assert Sent(m, c) + [] == Sent(m, c);
  }

  lemma DeliverNothing(m: Mail)
    ensures Deliver(m, map[]) == m
  {
  }

  lemma DeliverTwice(m: Mail, p: Posts, q: Posts)
    requires p.Keys !! q.Keys
    ensures Deliver(Deliver(m, p), q) == Deliver(m, p + q)
  {
  }

  class ChatRoomServer {
    var nameConn: map<Name, Conn>
    var connName: map<Conn, Name>
    var connected: set<Conn>
    var mail: Mail

    ghost function View(): Server
      reads this
    {
      Server(nameConn, connName, connected)
    }

    constructor ()
      ensures View() == Server(map[], map[], {}) && mail == map[]
    {
      nameConn, connName, connected, mail := map[], map[], {}, map[];
    }

    /** TcpConnection::Send, seen from the handlers: dropped unless the connection is kConnected. */
    method Send(c: Conn, msg: bytes)
      modifies this`mail
      ensures mail == Deliver(old(mail), Post(View(), {c}, msg))
    {
      ghost var posts := Post(View(), {c}, msg);
      if c in connected {
        mail := mail[c := Sent(mail, c) + [msg]];
        assert mail == Deliver(old(mail), posts);
      } else {
        assert posts == map[];
        assert mail == Deliver(mail, posts);
      }
    }

    /** OnConnection with the connection up, or down. */
    method OnConnection(c: Conn, up: bool)
      requires Inverse(View())
      modifies this
      ensures up ==> View() == old(View()).(connected := old(connected) + {c}) && mail == old(mail)
      ensures !up ==> View() == ServerSpec.UserExit(old(View()), c).0
      ensures !up ==> mail == Deliver(old(mail), ServerSpec.UserExit(old(View()), c).1)
    {
      if up {
        connected := connected + {c};
      } else {
        connected := connected - {c};
        UserExit(c);
      }
    }

    method IsNewClient(c: Conn) returns (isNew: bool)
      modifies this`connName
      ensures View() == Touch(old(View()), c)
      ensures isNew <==> NameOf(old(View()), c) == []
    {
      if c !in connName {
        connName := connName[c := []];
      }
      isNew := connName[c] == [];
      assert connName == old(connName)[c := NameOf(old(View()), c)];
    }

    predicate IsNewName(name: Name)
      reads this
    {
      name !in nameConn
    }

    /** The walk over the names; `skip` is the connection left out, if any. */
    method SendToAll(skip: Option<Conn>, msg: bytes)
      requires Inverse(View())
      modifies this`mail
      ensures mail == Deliver(old(mail),
        Post(View(), Registered(View()) - (if skip.Some? then {skip.value} else {}), msg))
    {
      ghost var except := if skip.Some? then {skip.value} else {};
      var todo := nameConn.Keys;
      assert Post(View(), Reached(View(), todo) - except, msg) == map[];
      DeliverNothing(mail);
      while todo != {}
        invariant todo <= nameConn.Keys
        invariant mail == Deliver(old(mail), Post(View(), Reached(View(), todo) - except, msg))
      {
        var name :| name in todo;
        var c := nameConn[name];
        WalkStep(View(), todo, name, except, msg, old(mail));
        if skip != Some(c) {
          Send(c, msg);
        }
        todo := todo - {name};
      }
      assert Reached(View(), {}) == Registered(View());
    }

    method BroadcastNoSelf(c: Conn, msg: bytes)
      requires Inverse(View())
      modifies this`mail
      ensures mail == Deliver(old(mail), Post(View(), Registered(View()) - {c}, msg))
    {
      SendToAll(Some(c), msg);
    }

    method Broadcast(msg: bytes)
      requires Inverse(View())
      modifies this`mail
      ensures mail == Deliver(old(mail), Post(View(), Registered(View()), msg))
    {
      SendToAll(None, msg);
      assert Registered(View()) - {} == Registered(View());
    }

    /** `order` is the order in which the names happened to be walked. */
    method UserLogin(c: Conn, name: Name) returns (order: seq<Name>)
      requires Inverse(View()) && NameOf(View(), c) == []
      modifies this
      ensures IsOrder(old(View()), order)
      ensures View() == ServerSpec.UserLogin(old(View()), c, name, order).0
      ensures mail == Deliver(old(mail), ServerSpec.UserLogin(old(View()), c, name, order).1)
    {
      var allUserName: Name;
      order, allUserName := CollectNames();
      RosterTextLast(order, name);
      Send(c, allUserName + (name + [PLUS]));
      if IsNewName(name) {
        BroadcastNoSelf(c, Notice(JOIN, name));
        DeliverTwice(old(mail), Post(View(), {c}, RosterText(order + [name])),
                     Post(View(), Registered(View()) - {c}, Notice(JOIN, name)));
        connName := connName[c := name];
        nameConn := nameConn[name := c];
      } else {
        connected := connected - {c};
      }
    }

    method CollectNames() returns (order: seq<Name>, text: Name)
      ensures IsOrder(View(), order)
      ensures text == RosterText(order)
    {
      order, text := [], [];
      var todo := nameConn.Keys;
      while todo != {}
        invariant todo <= nameConn.Keys
        invariant NoDup(order)
        invariant forall n :: n in order <==> n in nameConn.Keys - todo
        invariant text == RosterText(order)
      {
        var name :| name in todo;
        RosterTextLast(order, name);
        forall i | 0 <= i < |order| ensures order[i] != name {
          assert order[i] in order;
        }
        text := text + (name + [PLUS]);
        order := order + [name];
        todo := todo - {name};
      }
    }

    method UserExit(c: Conn)
      requires Inverse(View()) && c !in connected
      modifies this
      ensures View() == ServerSpec.UserExit(old(View()), c).0
      ensures mail == Deliver(old(mail), ServerSpec.UserExit(old(View()), c).1)
    {
      var isNew := IsNewClient(c);
      var name := connName[c];
      if !isNew {
        BroadcastNoSelf(c, Notice(LEAVE, name));
        nameConn := nameConn - {name};
      } else {
        DeliverNothing(mail);
      }
      connName := connName - {c};
      assert connName == old(connName) - {c};
    }

    /** `wild` is set when the source's scan would leave the message; nothing is sent then. */
    method SendPrivateMsg(c: Conn, buf: bytes) returns (wild: bool)
      requires Inverse(View()) && c in connName && connName[c] != []
      requires buf != [] && buf[0] == PRIVATE
      modifies this`mail
      ensures wild == ServerSpec.ReadCb(View(), c, buf, []).wild
      ensures mail == Deliver(old(mail), ServerSpec.ReadCb(View(), c, buf, []).posts)
    {
      assert Touch(View(), c) == View();
      var parts := ScanDest(buf);
      if parts.None? {
        DeliverNothing(mail);
        return true;
      }
      wild := false;
      var source := connName[c];
      var dest := CStr(parts.value.0);
      if dest in nameConn {
        Send(nameConn[dest], ServerMessage(PRIVATE, source, parts.value.1));
        var fds := [nameConn[source], nameConn[dest]];   // the log line looks both names up again
      } else {
        DeliverNothing(mail);
      }
    }

    method SendGroupMsg(c: Conn, buf: bytes)
      requires Inverse(View()) && c in connName
      requires buf != []
      modifies this`mail
      ensures mail == Deliver(old(mail), Post(View(), Registered(View()), ServerMessage(GROUP, connName[c], buf[1..])))
    {
      Broadcast(ServerMessage(GROUP, connName[c], buf[1..]));
    }

    /** The message callback on the readable bytes; `taken` tells whether they were taken out of the buffer. */
    method ReadCb(c: Conn, buf: bytes) returns (order: seq<Name>, taken: bool, wild: bool)
      requires Inverse(View()) && buf != []
      modifies this
      ensures NameOf(old(View()), c) == [] ==> IsOrder(old(View()), order)
      ensures var r := ServerSpec.ReadCb(old(View()), c, buf, order);
        View() == r.server && mail == Deliver(old(mail), r.posts) && taken == r.taken && wild == r.wild
    {
      order, taken, wild := [], true, false;
      var isNew := IsNewClient(c);
      assert Inverse(View());
      if isNew {
        order := UserLogin(c, CStr(buf));
      } else if buf[0] == PRIVATE {
        assert Touch(View(), c) == View();
        wild := SendPrivateMsg(c, buf);
      } else if buf[0] == GROUP {
        SendGroupMsg(c, buf);
      } else {
        DeliverNothing(mail);
        taken := false;
      }
    }
  }

  /** The connections whose names are no longer in `todo`. */
  ghost function Reached(s: Server, todo: set<Name>): set<Conn> {
    set n | n in s.nameConn.Keys && n !in todo :: s.nameConn[n]
  }

  /** Inverse maps give each name its own connection, so a walk meets each connection once. */
  lemma ReachOne(s: Server, todo: set<Name>, name: Name)
    requires Inverse(s) && name in todo && name in s.nameConn
    ensures Reached(s, todo - {name}) == Reached(s, todo) + {s.nameConn[name]}
    ensures s.nameConn[name] !in Reached(s, todo)
  {
    var l, r := Reached(s, todo - {name}), Reached(s, todo) + {s.nameConn[name]};
    forall c | c in r ensures c in l {
      if c in Reached(s, todo) {
        var n :| n in s.nameConn.Keys && n !in todo && s.nameConn[n] == c;
        assert n !in todo - {name};
      } else {
        assert name !in todo - {name};
      }
    }
  }

  /** One more name of the walk: its connection gets the message unless it is left out. */
  lemma WalkStep(s: Server, todo: set<Name>, name: Name, except: set<Conn>, msg: bytes, m: Mail)
    requires Inverse(s) && name in todo && name in s.nameConn
    ensures var c, before := s.nameConn[name], Deliver(m, Post(s, Reached(s, todo) - except, msg));
      Deliver(m, Post(s, Reached(s, todo - {name}) - except, msg)) ==
      if c in except then before else Deliver(before, Post(s, {c}, msg))
  {
    var c, reached := s.nameConn[name], Reached(s, todo);
    ReachOne(s, todo, name);
    PostOneMore(s, reached, c, except, msg);
    DeliverTwice(m, Post(s, reached - except, msg), Post(s, {c}, msg));
  }

  lemma PostOneMore(s: Server, reached: set<Conn>, c: Conn, except: set<Conn>, msg: bytes)
    requires c !in reached
    ensures Post(s, reached + {c} - except, msg) ==
            Post(s, reached - except, msg) + if c in except then map[] else Post(s, {c}, msg)
    ensures Post(s, reached - except, msg).Keys !! Post(s, {c}, msg).Keys
  {
  }

  lemma {:induction false} RosterTextLast(names: seq<Name>, name: Name)
    ensures RosterText(names + [name]) == RosterText(names) + (name + [PLUS])
  {
    var all := names + [name];
    if names == [] {
      assert RosterText(all) == all[0] + [PLUS] + RosterText([]);
    } else {
      assert all[1..] == names[1..] + [name];
      RosterTextLast(names[1..], name);
      Assoc(names[0] + [PLUS], RosterText(names[1..]), name + [PLUS]);
    }
  }
}
