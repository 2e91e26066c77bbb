/** The chat server's two maps and what each handler sends, one handler run at a time. */
module ServerSpec {
  import opened Bytes
  import opened Protocol

  type Conn = nat

  /** `connected`: the connections whose state is kConnected, the only ones `Send` writes to. */
  datatype Server = Server(nameConn: map<Name, Conn>, connName: map<Conn, Name>, connected: set<Conn>)

  /** What one handler run sends: never more than one message to a connection. */
  type Posts = map<Conn, bytes>

  /** `taken`: the handler emptied the input buffer. `wild`: its scan ran past the end of the message. */
  datatype Reply = Reply(server: Server, posts: Posts, taken: bool, wild: bool)

  /** The name `conn_name_map_[c]` reads; absent and empty are the same to the server. */
  function NameOf(s: Server, c: Conn): Name {
    if c in s.connName then s.connName[c] else []
  }

  /** `conn_name_map_[c]` as a statement: an absent key is created with the empty name. */
  function Touch(s: Server, c: Conn): (r: Server)
    ensures NameOf(r, c) == NameOf(s, c)
  {
    s.(connName := s.connName[c := NameOf(s, c)])
  }

  /** A connection that has a name has an entry already. */
  lemma TouchNamed(s: Server, c: Conn)
    requires NameOf(s, c) != []
    ensures Touch(s, c) == s
  {
    assert s.connName[c := s.connName[c]] == s.connName;
  }

  function Post(s: Server, targets: set<Conn>, msg: bytes): (p: Posts)
    ensures p.Keys == targets * s.connected
  {
    map d | d in targets && d in s.connected :: msg
  }

  function Registered(s: Server): set<Conn> {
    s.nameConn.Values
  }

  /** The order in which the server's map of names is walked. */
  ghost predicate IsOrder(s: Server, order: seq<Name>) {
    NoDup(order) && forall n :: n in order <==> n in s.nameConn
  }

  function UserLogin(s: Server, c: Conn, name: Name, order: seq<Name>): (Server, Posts) {
    var roster := Post(s, {c}, RosterText(order + [name]));
    if name !in s.nameConn then
      (s.(nameConn := s.nameConn[name := c], connName := s.connName[c := name]),
       roster + Post(s, Registered(s) - {c}, Notice(JOIN, name)))
    else
      (s.(connected := s.connected - {c}), roster)
  }

  /** The down callback: the state is already kDisconnected when `UserExit` runs. */
  function UserExit(s: Server, c: Conn): (Server, Posts) {
    var s1 := s.(connected := s.connected - {c}, connName := s.connName - {c});
    var name := NameOf(s, c);
    if name != [] then
      (s1.(nameConn := s.nameConn - {name}), Post(s1, Registered(s) - {c}, Notice(LEAVE, name)))
    else
      (s1, map[])
  }

  function ReadCb(s: Server, c: Conn, buf: bytes, order: seq<Name>): Reply
    requires buf != []
  {
    var t := Touch(s, c);
    if NameOf(t, c) == [] then
      var r := UserLogin(t, c, CStr(buf), order);
      Reply(r.0, r.1, true, false)
    else if buf[0] == PRIVATE then
      match ServerSplit(buf)
      case None => Reply(t, map[], true, true)
      case Some(parts) =>
        var dest := CStr(parts.0);
        Reply(t, if dest in t.nameConn
                 then Post(t, {t.nameConn[dest]}, ServerMessage(PRIVATE, NameOf(t, c), parts.1))
                 else map[], true, false)
    else if buf[0] == GROUP then
      Reply(t, Post(t, Registered(t), ServerMessage(GROUP, NameOf(t, c), buf[1..])), true, false)
    else
      Reply(t, map[], false, false)
  }

  // ---------------------------------------------------------------- inverse maps

  /** The two maps are mutual inverses, the empty name meaning "not logged in". */
  ghost predicate Inverse(s: Server) {
    && (forall n :: n in s.nameConn ==> n != [] && NameOf(s, s.nameConn[n]) == n)
    && (forall c :: c in s.connName && s.connName[c] != [] ==>
          s.connName[c] in s.nameConn && s.nameConn[s.connName[c]] == c)
  }

  /** A login of a connection without a name keeps the maps inverse exactly when the name is not empty. */
  lemma LoginInverse(s: Server, c: Conn, name: Name, order: seq<Name>)
    requires Inverse(s) && NameOf(s, c) == []
    ensures Inverse(UserLogin(s, c, name, order).0) <==> name != []
  {
    var r := UserLogin(s, c, name, order).0;
    if name == [] {
      assert r.nameConn[name] == c;
    }
  }

  /** After the down callback the maps are inverse and mention the connection no more. */
  lemma ExitInverse(s: Server, c: Conn)
    requires Inverse(s)
    ensures var r := UserExit(s, c).0; Inverse(r) && c !in r.connName && c !in Registered(r) && c !in r.connected
    ensures Registered(UserExit(s, c).0) == Registered(s) - {c}
  {
    var r, name := UserExit(s, c).0, NameOf(s, c);
    forall d | d in Registered(s) - {c} ensures d in Registered(r) {
      var n :| n in s.nameConn && s.nameConn[n] == d;
      assert n in r.nameConn && r.nameConn[n] == d;
    }
    forall d | d in Registered(r) ensures d in Registered(s) - {c} {
      var n :| n in r.nameConn && r.nameConn[n] == d;
      assert n in s.nameConn && s.nameConn[n] == d;
    }
  }

  /** A sender with a name is found under it: the lookup by source name never creates an entry. */
  lemma SourceIsRegistered(s: Server, c: Conn)
    requires Inverse(s)
    ensures NameOf(s, c) != [] <==> c in Registered(s)
    ensures NameOf(s, c) != [] ==> NameOf(s, c) in s.nameConn && s.nameConn[NameOf(s, c)] == c
  {
    if c in Registered(s) {
      var n :| n in s.nameConn && s.nameConn[n] == c;
    }
    if NameOf(s, c) != [] {
      assert s.nameConn[NameOf(s, c)] == c;
    }
  }

  /** The buffer is a login of a connection that has no name, and the name in it is empty. */
  predicate EmptyLogin(s: Server, c: Conn, buf: bytes) {
    NameOf(s, c) == [] && CStr(buf) == []
  }

  lemma ReadInverse(s: Server, c: Conn, buf: bytes, order: seq<Name>)
    requires Inverse(s) && buf != []
    ensures Inverse(ReadCb(s, c, buf, order).server) <==> !EmptyLogin(s, c, buf)
  {
    if NameOf(s, c) == [] {
      assert Inverse(Touch(s, c));
      LoginInverse(Touch(s, c), c, CStr(buf), order);
    } else {
      TouchNamed(s, c);
    }
  }

  /** A handler run mentions no connection but its own for the first time, and connects none. */
  lemma ReadScope(s: Server, c: Conn, buf: bytes, order: seq<Name>)
    requires buf != []
    ensures var r := ReadCb(s, c, buf, order).server;
      && r.connName.Keys == s.connName.Keys + {c}
      && Registered(r) <= Registered(s) + {c}
      && r.connected <= s.connected
  {
    RegisteredGrows(Touch(s, c), c, CStr(buf), order);
  }

  lemma RegisteredGrows(s: Server, c: Conn, name: Name, order: seq<Name>)
    ensures Registered(UserLogin(s, c, name, order).0) <= Registered(s) + {c}
  {
    var r := UserLogin(s, c, name, order).0;
    forall d | d in Registered(r) ensures d in Registered(s) + {c} {
      var n :| n in r.nameConn && r.nameConn[n] == d;
      assert d == c || (n in s.nameConn && s.nameConn[n] == d);
    }
  }

  // ---------------------------------------------------------------- what a message is answered with

  /** Names the roster text can carry. */
  ghost predicate Splittable(s: Server, name: Name) {
    name != [] && PLUS !in name && forall n :: n in s.nameConn ==> n != [] && PLUS !in n
  }

  lemma OrderSplits(s: Server, order: seq<Name>, name: Name)
    requires IsOrder(s, order) && Splittable(s, name)
    ensures NoPlus(order + [name]) && [] !in order
  {
    forall i | 0 <= i < |order + [name]| ensures PLUS !in (order + [name])[i] {
      if i < |order| {
        assert order[i] in order;
      }
    }
  }

  /** A connected newcomer gets the roster whether or not the name is taken. */
  lemma LoginGetsRoster(s: Server, c: Conn, buf: bytes, order: seq<Name>)
    requires NameOf(s, c) == [] && c in s.connected && buf != []
    ensures var r := ReadCb(s, c, buf, order);
      c in r.posts && r.posts[c] == RosterText(order + [CStr(buf)])
  {
  }

  /**
   * What it shows the newcomer: every name registered and the newcomer's own last, which is there more than once
   * exactly when it is taken.
   */
  lemma LoginAnswered(s: Server, c: Conn, buf: bytes, order: seq<Name>)
    requires NameOf(s, c) == [] && c in s.connected && buf != [] && IsOrder(s, order) && Splittable(s, CStr(buf))
    ensures var name, r := CStr(buf), ReadCb(s, c, buf, order);
      && c in r.posts && ParseRoster(r.posts[c]) == order + [name]
      && (multiset(ParseRoster(r.posts[c]))[name] > 1 <==> name in s.nameConn)
  {
    LoginGetsRoster(s, c, buf, order);
    OrderSplits(s, order, CStr(buf));
    DuplicateAgreement(order, CStr(buf));
  }

  /** A taken name: the roster is all that is sent, the connection is shut down, nobody is registered. */
  lemma TakenRefused(s: Server, c: Conn, buf: bytes, order: seq<Name>)
    requires NameOf(s, c) == [] && buf != [] && CStr(buf) in s.nameConn
    ensures var r := ReadCb(s, c, buf, order);
      && r.posts.Keys == {c} * s.connected && r.server.connected == s.connected - {c}
      && r.server.nameConn == s.nameConn && NameOf(r.server, c) == []
  {
  }

  /** A new name: everyone else who is registered and connected is told, and nobody is shut down. */
  lemma NewAnnounced(s: Server, c: Conn, buf: bytes, order: seq<Name>)
    requires NameOf(s, c) == [] && buf != [] && CStr(buf) !in s.nameConn
    ensures var r := ReadCb(s, c, buf, order);
      && r.posts.Keys == (Registered(s) + {c}) * s.connected && r.server.connected == s.connected
      && (forall d :: d in r.posts && d in Registered(s) - {c} ==> r.posts[d] == Notice(JOIN, CStr(buf)))
  {
  }

  /** The messages left in the input buffer are those of a registered user with neither tag; they change nothing. */
  lemma UntakenExact(s: Server, c: Conn, buf: bytes, order: seq<Name>)
    requires buf != []
    ensures var r := ReadCb(s, c, buf, order);
      && (!r.taken <==> NameOf(s, c) != [] && buf[0] != PRIVATE && buf[0] != GROUP)
      && (!r.taken ==> r.server == s && r.posts == map[] && !r.wild)
  {
    if NameOf(s, c) != [] {
      TouchNamed(s, c);
    }
  }

  /** The scan runs wild exactly on a private message of a registered user without a second separator. */
  lemma WildExact(s: Server, c: Conn, buf: bytes, order: seq<Name>)
    requires buf != []
    ensures var r := ReadCb(s, c, buf, order);
      && (r.wild <==> NameOf(s, c) != [] && buf[0] == PRIVATE && PRIVATE !in CStr(buf)[1..])
      && (r.wild ==> r.posts == map[])
  {
    if buf[0] == PRIVATE {
      ScanTerminates(buf);
    }
  }

  /** An exit of a registered user is told to everyone else who is registered and connected, and to nobody else. */
  lemma ExitAnnounced(s: Server, c: Conn)
    requires Inverse(s)
    ensures var posts := UserExit(s, c).1;
      && posts.Keys == (if c in Registered(s) then (Registered(s) - {c}) * s.connected else {})
      && forall d :: d in posts ==> posts[d] == Notice(LEAVE, NameOf(s, c))
  {
    SourceIsRegistered(s, c);
  }

  // ---------------------------------------------------------------- whole runs

  datatype Event = Up(c: Conn) | Read(c: Conn, buf: bytes, order: seq<Name>) | Down(c: Conn)

  /** `live`: up and not yet down. `gone`: down. */
  datatype World = World(server: Server, live: set<Conn>, gone: set<Conn>)

  /** What a connection's life allows, and the login dialog's guard against the empty name. */
  ghost predicate Enabled(w: World, e: Event) {
    match e
    case Up(c) => c !in w.live + w.gone
    case Read(c, buf, order) => c in w.live && buf != [] && IsOrder(w.server, order) && !EmptyLogin(w.server, c, buf)
    case Down(c) => c in w.live
  }

  function Next(w: World, e: Event): World
    requires Enabled(w, e)
  {
    match e
    case Up(c) => World(w.server.(connected := w.server.connected + {c}), w.live + {c}, w.gone)
    case Read(c, buf, order) => w.(server := ReadCb(w.server, c, buf, order).server)
    case Down(c) => World(UserExit(w.server, c).0, w.live - {c}, w.gone + {c})
  }

  ghost predicate Possible(w: World, run: seq<Event>)
    decreases |run|
  {
    run == [] || (Enabled(w, run[0]) && Possible(Next(w, run[0]), run[1..]))
  }

  function After(w: World, run: seq<Event>): World
    requires Possible(w, run)
    decreases |run|
  {
    if run == [] then w else After(Next(w, run[0]), run[1..])
  }

  /** Inverse maps that mention live connections only; what is live is not gone. */
  ghost predicate Consistent(w: World) {
    && Inverse(w.server)
    && Registered(w.server) <= w.live
    && w.server.connName.Keys <= w.live
    && w.server.connected <= w.live
    && w.live !! w.gone
  }

  lemma {:induction false} AlwaysConsistent(w: World, run: seq<Event>)
    requires Consistent(w) && Possible(w, run)
    ensures Consistent(After(w, run))
    ensures w.gone <= After(w, run).gone
    decreases |run|
  {
    if run != [] {
      var e := run[0];
      match e {
        case Up(c) =>
        case Read(c, buf, order) =>
          ReadInverse(w.server, c, buf, order);
          ReadScope(w.server, c, buf, order);
        case Down(c) => ExitInverse(w.server, c);
      }
      AlwaysConsistent(Next(w, e), run[1..]);
    }
  }

  // ---------------------------------------------------------------- private messages, end to end

  /**
   * A private message from a registered sender reaches the connection registered under the destination, if
   * that one is connected, and nobody else; it shows the true sender, and the text unchanged exactly when
   * the text holds neither a NUL nor the separator.
   */
  lemma PrivateDelivery(s: Server, c: Conn, dest: Name, text: bytes, w: bytes, order: seq<Name>)
    requires Inverse(s) && NameOf(s, c) != []
    requires PRIVATE !in NameOf(s, c) && PRIVATE !in dest
    requires OnWire(ClientPrivate(dest, text), w)
    ensures w != [] && NameOf(ReadCb(s, c, w, order).server, c) == NameOf(s, c)
    ensures var r := ReadCb(s, c, w, order);
      && !r.wild && r.server.nameConn == s.nameConn
      && r.posts.Keys == (if dest in s.nameConn then {s.nameConn[dest]} * s.connected else {})
      && (forall d :: d in r.posts ==>
            && ClientSplit(PRIVATE, r.posts[d]) == Some((NameOf(s, c), Until(CStr(text), PRIVATE)))
            && (ClientSplit(PRIVATE, r.posts[d]) == Some((NameOf(s, c), text)) <==> NUL !in text && PRIVATE !in text))
  {
    TouchNamed(s, c);
    PrivateTwoHop(NameOf(s, c), dest, text, w);
    assert w[0] == ClientPrivate(dest, text)[0] == PRIVATE;
    assert CStr(dest) == dest;
  }

  /** A group message reaches every registered connected client, the sender included, under the true sender's name. */
  lemma GroupDelivery(s: Server, c: Conn, text: bytes, w: bytes, order: seq<Name>)
    requires Inverse(s) && NameOf(s, c) != [] && GROUP !in NameOf(s, c)
    requires OnWire(ClientGroup(text), w)
    ensures var r := ReadCb(s, c, w, order);
      && w != [] && r.server.nameConn == s.nameConn
      && r.posts.Keys == Registered(s) * s.connected
      && (forall d :: d in r.posts ==>
            && ClientSplit(GROUP, r.posts[d]) == Some((NameOf(s, c), Until(CStr(text), GROUP)))
            && (ClientSplit(GROUP, r.posts[d]) == Some((NameOf(s, c), text)) <==> NUL !in text && GROUP !in text))
  {
    TouchNamed(s, c);
    GroupTwoHop(NameOf(s, c), text, w);
    assert w[0] == ClientGroup(text)[0] == GROUP;
  }
}
