/** The server, every connected client and everything on its way between them. */
module RosterSystem {
  import opened Bytes
  import opened Protocol
  import opened ServerSpec
  import opened ClientSpec
  import opened RosterView

  /**
   * A message sent from the client's own io loop goes straight to the socket; one sent from another loop is queued
   * first, so the direct ones may overtake it. `wire`: written to the socket, not received. `queued`: sends waiting in
   * the io loop of the client's connection. `shown`: the connections whose names are on screen.
   */
  datatype Client = Client(screen: Screen, own: Name, shown: seq<Conn>, wire: seq<Packet>, queued: seq<Packet>) {
    function Undelivered(): seq<Packet> {
      wire + queued
    }
  }

  const NOBODY: Client := Client(Waiting, [], [], [], [])

  /**
   * `loopOf`: the io loop of every connection accepted so far. `names`: the name each one logged in with. `broken`:
   * the connections that lose what they are sent, their peer gone (EPIPE, ECONNRESET) or their buffer overrun.
   */
  datatype System = System(
    server: Server,
    loopOf: map<Conn, nat>,
    names: map<Conn, Name>,
    clients: map<Conn, Client>,
    gone: set<Conn>,
    broken: set<Conn>)

  /** One handler run of the server, one queued send reaching its socket, or one receive at a client. */
  datatype Step =
    | Accept(c: Conn, loop: nat)
    | Read(c: Conn, buf: bytes, order: seq<Name>)
    | Exit(c: Conn)
    | Break(c: Conn)
    | RunQueued(c: Conn)
    | Deliver(c: Conn)

  predicate IsLogin(s: Server, c: Conn) {
    NameOf(s, c) == []
  }

  ghost predicate Enabled(s: System, step: Step) {
    match step
    case Accept(c, loop) => c !in s.loopOf
    case Read(c, buf, order) =>
      && c in s.loopOf && c !in s.gone && buf != []
      && IsOrder(s.server, order)
      && (IsLogin(s.server, c) ==> Clean(CStr(buf)))
    case Exit(c) => c in s.loopOf && c !in s.gone
    case Break(c) => c in s.loopOf
    case RunQueued(c) => c in s.clients && s.clients[c].queued != []
    case Deliver(c) => c in s.clients && s.clients[c].wire != []
  }

  ghost function Push(cl: Client, direct: bool, p: Packet): Client {
    if direct then cl.(wire := cl.wire + [p]) else cl.(queued := cl.queued + [p])
  }

  /** Sends from `actor`'s io loop: direct to connections of the same loop, queued on the loop of the others. */
  ghost function Route(s: System, actor: Conn, packets: map<Conn, Packet>): map<Conn, Client>
    requires actor in s.loopOf
  {
    map d | d in s.clients && d in s.loopOf ::
      if d in packets && d !in s.broken
      then Push(s.clients[d], s.loopOf[d] == s.loopOf[actor], packets[d])
      else s.clients[d]
  }

  ghost function Members(s: Server, order: seq<Name>): (r: seq<Conn>)
    requires forall n :: n in order ==> n in s.nameConn
    ensures |r| == |order| && forall i :: 0 <= i < |r| ==> r[i] == s.nameConn[order[i]]
  {
    seq(|order|, i requires 0 <= i < |order| => s.nameConn[order[i]])
  }

  /** What the message a handler run on behalf of `c` sends to `d` is about. */
  ghost function TagFor(s: Server, c: Conn, d: Conn, order: seq<Name>): Tag
    requires IsOrder(s, order)
  {
    if !IsLogin(s, c) then Chat
    else if d == c then RosterOf(Members(s, order) + [c])
    else JoinOf(c)
  }

  /** The handler's reply takes effect; a login also tells the model the client's own name. */
  ghost function AfterRead(s: System, c: Conn, name: Name, order: seq<Name>, reply: Reply): System
    requires c in s.loopOf && IsOrder(s.server, order)
  {
    var login := IsLogin(s.server, c);
    var t := if login && c in s.clients then s.(clients := s.clients[c := s.clients[c].(own := name)]) else s;
    System(reply.server, s.loopOf,
           if login && name !in s.server.nameConn then s.names[c := name] else s.names,
           Route(t, c, map d | d in reply.posts :: Packet(TagFor(s.server, c, d, order), reply.posts[d])),
           s.gone, s.broken)
  }

  /** The client has received the packet at the head of its wire. */
  ghost function Delivered(cl: Client): Client
    requires cl.wire != []
  {
    cl.(screen := Receive(cl.screen, cl.own, cl.wire[0].body),
        shown := NowShown(cl.shown, cl.wire[0].tag), wire := cl.wire[1..])
  }

  ghost function Next(s: System, step: Step): System
    requires Enabled(s, step)
  {
    match step
    case Accept(c, loop) =>
      System(s.server.(connected := s.server.connected + {c}), s.loopOf[c := loop], s.names,
             s.clients[c := NOBODY], s.gone, s.broken)
    case Read(c, buf, order) => AfterRead(s, c, CStr(buf), order, ReadCb(s.server, c, buf, order))
    case Exit(c) =>
      var r := UserExit(s.server, c);
      System(r.0, s.loopOf, s.names,
             Route(s, c, map d | d in r.1 :: Packet(LeaveOf(c), r.1[d])), s.gone + {c}, s.broken)
    case Break(c) => s.(broken := s.broken + {c})
    case RunQueued(c) =>
      var cl := s.clients[c];
      var sent := if c in s.broken then [] else [cl.queued[0]];
      s.(clients := s.clients[c := cl.(wire := cl.wire + sent, queued := cl.queued[1..])])
    case Deliver(c) => s.(clients := s.clients[c := Delivered(s.clients[c])])
  }

  // ---------------------------------------------------------------- the invariant

  /** Only messages about connections of other loops wait in the queue. */
  ghost predicate QueueOk(queued: seq<Packet>, c: Conn, loopOf: map<Conn, nat>)
    requires c in loopOf
  {
    forall i :: 0 <= i < |queued| ==> Foreign(queued[i].tag, c, loopOf)
  }

  ghost predicate Foreign(t: Tag, c: Conn, loopOf: map<Conn, nat>)
    requires c in loopOf
  {
    t.Chat? || ((t.JoinOf? || t.LeaveOf?) && t.who in loopOf && loopOf[t.who] != loopOf[c])
  }

  ghost predicate ClientOk(cl: Client, c: Conn, s: System)
    requires c in s.loopOf
  {
    && ViewOk(cl.screen, cl.shown, cl.Undelivered(), cl.own, s.names, Registered(s.server))
    && QueueOk(cl.queued, c, s.loopOf)
  }

  ghost predicate ServerOk(s: System) {
    && Inverse(s.server)
    && Registered(s.server) <= s.names.Keys <= Registered(s.server) + s.gone
    && (forall k :: k in Registered(s.server) ==> s.names[k] == NameOf(s.server, k))
    && AllClean(s.names)
    && Registered(s.server) + s.server.connName.Keys + s.server.connected <= s.loopOf.Keys - s.gone
    && s.names.Keys + s.gone <= s.loopOf.Keys
    && s.clients.Keys == s.loopOf.Keys
  }

  /** What the server sends to the connection goes out. */
  predicate Hears(s: System, c: Conn) {
    c in s.server.connected && c !in s.broken
  }

  /** A client that hears the server is on course once registered, and has been sent nothing before. */
  ghost predicate EachOk(s: System, c: Conn)
    requires ServerOk(s)
  {
    Hears(s, c) ==>
      if c in Registered(s.server) then ClientOk(s.clients[c], c, s)
      else s.clients[c].(own := []) == NOBODY
  }

  ghost predicate SystemOk(s: System) {
    ServerOk(s) && forall c :: EachOk(s, c)
  }

  // ---------------------------------------------------------------- one more packet for a client

  /** What a packet does to the set of registered connections. */
  ghost predicate Changes(t: Tag, reg: set<Conn>, reg': set<Conn>) {
    match t
    case RosterOf(_) => false
    case JoinOf(k) => k !in reg && reg' == reg + {k}
    case LeaveOf(k) => k in reg && reg' == reg - {k}
    case Chat => reg' == reg
  }

  lemma TrackDirect(b: bool, wire: seq<Packet>, queued: seq<Packet>, p: Packet, k: Conn, was: bool, now: bool)
    requires Track(b, wire + queued, k) == Some(was) && Track1(was, p.tag, k) == Some(now)
    requires !p.tag.RosterOf?
    requires Concerns(p.tag, k) ==> forall i :: 0 <= i < |queued| ==> !Concerns(queued[i].tag, k)
    ensures Track(b, wire + [p] + queued, k) == Some(now)
  {
    TrackAppend(b, wire, queued, k);
    var mid := Track(b, wire, k).value;
    Assoc(wire, [p], queued);
    TrackAppend(b, wire, [p] + queued, k);
    TrackOne(mid, p, queued, k);
    if Concerns(p.tag, k) {
      TrackSkip(mid, queued, k);
      TrackSkip(now, queued, k);
    }
  }

  lemma TrackQueued(b: bool, wire: seq<Packet>, queued: seq<Packet>, p: Packet, k: Conn, was: bool, now: bool)
    requires Track(b, wire + queued, k) == Some(was) && Track1(was, p.tag, k) == Some(now)
    ensures Track(b, wire + (queued + [p]), k) == Some(now)
  {
    Assoc(wire, queued, [p]);
    TrackAppend(b, wire + queued, [p], k);
    TrackOne(was, p, [], k);
    assert [p] + [] == [p];
  }

  lemma PushTracks(cl: Client, c: Conn, p: Packet, direct: bool, reg: set<Conn>, reg': set<Conn>,
                   loopOf: map<Conn, nat>)
    requires c in loopOf && QueueOk(cl.queued, c, loopOf)
    requires Tracks(cl.shown, cl.Undelivered(), reg) && Changes(p.tag, reg, reg')
    requires direct && !p.tag.Chat? ==> p.tag.who in loopOf && loopOf[p.tag.who] == loopOf[c]
    ensures Tracks(cl.shown, Push(cl, direct, p).Undelivered(), reg')
  {
    forall k ensures Track(k in cl.shown, Push(cl, direct, p).Undelivered(), k) == Some(k in reg') {
      if direct {
        forall i | 0 <= i < |cl.queued| && Concerns(p.tag, k) ensures !Concerns(cl.queued[i].tag, k) {
          assert Foreign(cl.queued[i].tag, c, loopOf);
        }
        TrackDirect(k in cl.shown, cl.wire, cl.queued, p, k, k in reg, k in reg');
      } else {
        TrackQueued(k in cl.shown, cl.wire, cl.queued, p, k, k in reg, k in reg');
      }
    }
  }

  lemma TrackOne(b: bool, p: Packet, v: seq<Packet>, k: Conn)
    ensures Track(b, [p] + v, k) == var r := Track1(b, p.tag, k); if r.None? then None else Track(r.value, v, k)
  {
    assert ([p] + v)[1..] == v;
  }

  lemma PushHonest(cl: Client, p: Packet, direct: bool, names: map<Conn, Name>, names': map<Conn, Name>)
    requires AllHonest(cl.Undelivered(), cl.own, names) && Honest(p, cl.own, names')
    requires Extends(names, names')
    ensures AllHonest(Push(cl, direct, p).Undelivered(), cl.own, names')
  {
    HonestExtends(cl.Undelivered(), cl.own, names, names');
    var u, r := cl.Undelivered(), Push(cl, direct, p).Undelivered();
    forall i | 0 <= i < |r| ensures Honest(r[i], cl.own, names') {
      var at := if direct then |cl.wire| else |u|;
      assert r[i] == if i < at then u[i] else if i == at then p else u[i - 1];
    }
  }

  ghost predicate Extends(names: map<Conn, Name>, names': map<Conn, Name>) {
    forall k :: k in names ==> k in names' && names'[k] == names[k]
  }

  lemma HonestExtends1(p: Packet, own: Name, names: map<Conn, Name>, names': map<Conn, Name>)
    requires Honest(p, own, names) && Extends(names, names')
    ensures Honest(p, own, names')
  {
    if p.tag.RosterOf? {
      assert NamesOf(p.tag.members, names) == NamesOf(p.tag.members, names');
    }
  }

  lemma HonestExtends(u: seq<Packet>, own: Name, names: map<Conn, Name>, names': map<Conn, Name>)
    requires AllHonest(u, own, names) && Extends(names, names')
    ensures AllHonest(u, own, names')
  {
    forall i | 0 <= i < |u| ensures Honest(u[i], own, names') {
      HonestExtends1(u[i], own, names, names');
    }
  }

  lemma ShowsExtends(screen: Screen, shown: seq<Conn>, names: map<Conn, Name>, names': map<Conn, Name>)
    requires Shows(screen, shown, names) && Extends(names, names')
    ensures Shows(screen, shown, names')
  {
    assert NamesOf(shown, names) == NamesOf(shown, names');
  }

  lemma PushRosterFirst(cl: Client, c: Conn, p: Packet, direct: bool, loopOf: map<Conn, nat>)
    requires c in loopOf && QueueOk(cl.queued, c, loopOf)
    requires RosterFirst(cl.screen, cl.Undelivered()) && !p.tag.RosterOf?
    ensures RosterFirst(cl.screen, Push(cl, direct, p).Undelivered())
  {
    var u, r := cl.Undelivered(), Push(cl, direct, p).Undelivered();
    var at := if direct then |cl.wire| else |u|;
    forall i | 0 <= i < |r| && r[i].tag.RosterOf? ensures i == 0 && cl.screen.Waiting? {
      if i < at {
        assert r[i] == u[i];
      }
    }
  }

  /** A client on course stays on course when the server registers, drops or keeps connections and tells it so. */
  lemma PushOk(cl: Client, c: Conn, p: Packet, direct: bool, s: System, s': System)
    requires c in s.loopOf && ClientOk(cl, c, s)
    requires s'.loopOf == s.loopOf && Extends(s.names, s'.names)
    requires Honest(p, cl.own, s'.names)
    requires Changes(p.tag, Registered(s.server), Registered(s'.server))
    requires !p.tag.Chat? ==> p.tag.who in s.loopOf && (direct <==> s.loopOf[p.tag.who] == s.loopOf[c])
    ensures ClientOk(Push(cl, direct, p), c, s')
  {
    PushTracks(cl, c, p, direct, Registered(s.server), Registered(s'.server), s.loopOf);
    PushHonest(cl, p, direct, s.names, s'.names);
    PushRosterFirst(cl, c, p, direct, s.loopOf);
    ShowsExtends(cl.screen, cl.shown, s.names, s'.names);
  }

  /** A client the handler did not write to, while nothing was registered or dropped. */
  lemma SameOk(cl: Client, c: Conn, s: System, s': System)
    requires c in s.loopOf && ClientOk(cl, c, s)
    requires c in s'.loopOf && (forall k :: k in s.loopOf ==> k in s'.loopOf && s'.loopOf[k] == s.loopOf[k])
    requires s'.names == s.names && Registered(s'.server) == Registered(s.server)
    ensures ClientOk(cl, c, s')
  {
    forall i | 0 <= i < |cl.queued| ensures Foreign(cl.queued[i].tag, c, s'.loopOf) {
      assert Foreign(cl.queued[i].tag, c, s.loopOf);
    }
  }

  // ---------------------------------------------------------------- the steps

  lemma AcceptOk(s: System, c: Conn, loop: nat)
    requires SystemOk(s) && Enabled(s, Accept(c, loop))
    ensures SystemOk(Next(s, Accept(c, loop)))
  {
    var r := Next(s, Accept(c, loop));
    forall d ensures EachOk(r, d) {
      assert EachOk(s, d);
      if Hears(r, d) && d in Registered(r.server) {
        SameOk(s.clients[d], d, s, r);
      }
    }
  }

  lemma BreakOk(s: System, c: Conn)
    requires SystemOk(s) && Enabled(s, Break(c))
    ensures SystemOk(Next(s, Break(c)))
  {
    var r := Next(s, Break(c));
    forall d ensures EachOk(r, d) {
      assert EachOk(s, d);
      if Hears(r, d) && d in Registered(r.server) {
        SameOk(s.clients[d], d, s, r);
      }
    }
  }

  lemma RunQueuedOk(s: System, c: Conn)
    requires SystemOk(s) && Enabled(s, RunQueued(c))
    ensures SystemOk(Next(s, RunQueued(c)))
  {
    var r, cl := Next(s, RunQueued(c)), s.clients[c];
    Assoc(cl.wire, [cl.queued[0]], cl.queued[1..]);
    assert [cl.queued[0]] + cl.queued[1..] == cl.queued;
    forall d ensures EachOk(r, d) {
      assert EachOk(s, d);
      if Hears(r, d) && d in Registered(r.server) {
        SameOk(s.clients[d], d, s, r);
        forall i | d == c && 0 <= i < |cl.queued| - 1 ensures Foreign(cl.queued[1..][i].tag, c, s.loopOf) {
          assert Foreign(cl.queued[i + 1].tag, c, s.loopOf);
        }
      }
    }
  }

  lemma DeliveredTail(cl: Client)
    requires cl.wire != []
    ensures cl.Undelivered()[0] == cl.wire[0] && Delivered(cl).Undelivered() == cl.Undelivered()[1..]
  {
    TailAppend(cl.wire, cl.queued);
  }

  lemma DeliverClientOk(cl: Client, c: Conn, s: System)
    requires c in s.loopOf && ClientOk(cl, c, s) && AllClean(s.names) && cl.wire != []
    ensures ClientOk(Delivered(cl), c, s)
  {
    DeliveredTail(cl);
    ReceiveOk(cl.screen, cl.shown, cl.Undelivered(), cl.own, s.names, Registered(s.server));
  }

  lemma DeliverOk(s: System, c: Conn)
    requires SystemOk(s) && Enabled(s, Deliver(c))
    ensures SystemOk(Next(s, Deliver(c)))
  {
    var r := Next(s, Deliver(c));
    forall d ensures EachOk(r, d) {
      assert EachOk(s, d);
      if Hears(r, d) && d in Registered(r.server) {
        if d == c {
          DeliverClientOk(s.clients[c], c, s);
        }
        SameOk(r.clients[d], d, s, r);
      }
    }
  }

  // ---------------------------------------------------------------- a connection goes down

  lemma ExitServerOk(s: System, c: Conn)
    requires ServerOk(s) && Enabled(s, Exit(c))
    ensures ServerOk(Next(s, Exit(c)))
    ensures Registered(Next(s, Exit(c)).server) == Registered(s.server) - {c}
  {
    ExitInverse(s.server, c);
    SourceIsRegistered(s.server, c);
  }

  lemma ExitOk(s: System, c: Conn)
    requires SystemOk(s) && Enabled(s, Exit(c))
    ensures SystemOk(Next(s, Exit(c)))
  {
    var r := Next(s, Exit(c));
    ExitServerOk(s, c);
    SourceIsRegistered(s.server, c);
    forall d ensures EachOk(r, d) {
      assert EachOk(s, d);
      if Hears(r, d) && d in Registered(r.server) {
        if NameOf(s.server, c) != [] {
          var p := Packet(LeaveOf(c), Notice(LEAVE, s.names[c]));
          PushOk(s.clients[d], d, p, s.loopOf[d] == s.loopOf[c], s, r);
        } else {
          SameOk(s.clients[d], d, s, r);
        }
      }
    }
  }

  // ---------------------------------------------------------------- a login

  lemma MembersAre(s: System, order: seq<Name>)
    requires ServerOk(s) && IsOrder(s.server, order)
    ensures var ks := Members(s.server, order);
      && NoDup(ks) && (forall k :: k in ks <==> k in Registered(s.server))
      && (forall i :: 0 <= i < |ks| ==> ks[i] in s.names && s.names[ks[i]] == order[i])
  {
    var ks := Members(s.server, order);
    forall i | 0 <= i < |ks| ensures ks[i] in Registered(s.server) && ks[i] in s.names && s.names[ks[i]] == order[i] {
      assert order[i] in order;
    }
    forall i, j | 0 <= i < j < |ks| ensures ks[i] != ks[j] {
      assert s.names[ks[i]] == order[i] && s.names[ks[j]] == order[j];
    }
    forall k | k in Registered(s.server) ensures k in ks {
      var n :| n in s.server.nameConn && s.server.nameConn[n] == k;
      assert n in order;
      var i :| 0 <= i < |order| && order[i] == n;
      assert ks[i] == k;
    }
  }

  /** The names on screen after the roster: those walked, then the newcomer's own. */
  lemma RosterNames(s: System, c: Conn, name: Name, order: seq<Name>, names': map<Conn, Name>)
    requires ServerOk(s) && IsOrder(s.server, order)
    requires c !in s.names && names' == s.names[c := name]
    ensures var m := Members(s.server, order) + [c];
      && NoDup(m) && (forall k :: k in m <==> k in Registered(s.server) + {c})
      && (forall k :: k in m ==> k in names') && NamesOf(m, names') == order + [name]
  {
    var ks := Members(s.server, order);
    var m, ns := ks + [c], order + [name];
    MembersAre(s, order);
    assert c !in ks;
    forall i | 0 <= i < |m| ensures m[i] in names' && names'[m[i]] == ns[i] {
      if i < |ks| {
        assert m[i] == ks[i] && ns[i] == order[i];
      }
    }
    assert forall k :: k in m ==> k in names';
    assert NamesOf(m, names') == ns;
  }

  lemma RosterHonest(s: System, c: Conn, name: Name, order: seq<Name>, names': map<Conn, Name>)
    requires ServerOk(s) && IsOrder(s.server, order) && name !in s.server.nameConn
    requires c !in s.names && names' == s.names[c := name]
    ensures Honest(Packet(RosterOf(Members(s.server, order) + [c]), RosterText(order + [name])), name, names')
  {
    RosterNames(s, c, name, order, names');
    assert name !in order;
    assert multiset(order + [name])[name] == multiset(order)[name] + 1;
  }

  /** A newcomer's client: the roster is all that is under way. */
  lemma NewcomerOk(s: System, c: Conn, name: Name, order: seq<Name>, s': System)
    requires ServerOk(s) && IsOrder(s.server, order) && name !in s.server.nameConn
    requires c in s'.loopOf && c !in s.names && s'.names == s.names[c := name]
    requires Registered(s'.server) == Registered(s.server) + {c}
    ensures var p := Packet(RosterOf(Members(s.server, order) + [c]), RosterText(order + [name]));
      ClientOk(Client(Waiting, name, [], [p], []), c, s')
  {
    var p := Packet(RosterOf(Members(s.server, order) + [c]), RosterText(order + [name]));
    RosterHonest(s, c, name, order, s'.names);
    RosterNames(s, c, name, order, s'.names);
    var u := [p] + [];
    assert u == [p];
    assert Tracks([], u, Registered(s'.server)) by {
      forall k ensures Track(k in [], u, k) == Some(k in Registered(s'.server)) {
        TrackOne(false, p, [], k);
      }
    }
    assert RosterFirst(Waiting, u);
    assert NamesOf([], s'.names) == [];
  }

  /** What the server answers to a login under a new name. */
  ghost predicate NewLoginReply(s: Server, c: Conn, name: Name, order: seq<Name>, r: Reply) {
    && r.server == s.(nameConn := s.nameConn[name := c], connName := s.connName[c := name])
    && Registered(r.server) == Registered(s) + {c}
    && r.posts.Keys == (Registered(s) + {c}) * s.connected
    && (c in r.posts ==> r.posts[c] == RosterText(order + [name]))
    && (forall d :: d in r.posts && d != c ==> r.posts[d] == Notice(JOIN, name))
  }

  lemma RegisteredAfter(s: Server, c: Conn, name: Name)
    requires name !in s.nameConn
    ensures Registered(s.(nameConn := s.nameConn[name := c])) == Registered(s) + {c}
  {
    var m := s.nameConn[name := c];
    assert m[name] == c;
    forall d | d in s.nameConn.Values ensures d in m.Values {
      var n :| n in s.nameConn && s.nameConn[n] == d;
      assert m[n] == d;
    }
  }

  lemma NewLogin(s: Server, c: Conn, buf: bytes, order: seq<Name>)
    requires IsLogin(s, c) && buf != [] && CStr(buf) !in s.nameConn
    ensures NewLoginReply(s, c, CStr(buf), order, ReadCb(s, c, buf, order))
  {
    assert s.connName[c := []][c := CStr(buf)] == s.connName[c := CStr(buf)];
    RegisteredAfter(s, c, CStr(buf));
  }

  /** A login under a taken name: the roster goes out, the connection is shut down. */
  lemma DuplicateLogin(s: Server, c: Conn, buf: bytes, order: seq<Name>)
    requires Inverse(s) && IsLogin(s, c) && buf != [] && CStr(buf) in s.nameConn
    ensures var r := ReadCb(s, c, buf, order);
      && r.server == s.(connName := s.connName[c := []], connected := s.connected - {c})
      && r.posts.Keys == {c} * s.connected
  {
  }

  /** What a login under a new name does to connection `d`'s client. */
  ghost function AfterLoginAt(s: System, c: Conn, name: Name, order: seq<Name>, d: Conn): Client
    requires IsOrder(s.server, order) && c in s.loopOf && d in s.loopOf && d in s.clients
  {
    var cl := s.clients[d];
    if d == c then
      Push(cl.(own := name), true, Packet(RosterOf(Members(s.server, order) + [c]), RosterText(order + [name])))
    else if d in Registered(s.server) then
      Push(cl, s.loopOf[d] == s.loopOf[c], Packet(JoinOf(c), Notice(JOIN, name)))
    else cl
  }

  /** The system after a login under a new name. */
  ghost predicate AfterNewLogin(s: System, c: Conn, name: Name, order: seq<Name>, r: System)
    requires IsOrder(s.server, order) && c in s.loopOf && s.clients.Keys == s.loopOf.Keys
  {
    && r.server == s.server.(nameConn := s.server.nameConn[name := c], connName := s.server.connName[c := name])
    && Registered(r.server) == Registered(s.server) + {c}
    && r.loopOf == s.loopOf && r.names == s.names[c := name] && r.gone == s.gone && r.broken == s.broken
    && r.clients.Keys == s.clients.Keys
    && (forall d :: Hears(s, d) && d in s.clients ==> r.clients[d] == AfterLoginAt(s, c, name, order, d))
  }

  lemma NewLoginStep(s: System, c: Conn, name: Name, order: seq<Name>, reply: Reply)
    requires IsOrder(s.server, order) && c in s.loopOf && s.clients.Keys == s.loopOf.Keys
    requires IsLogin(s.server, c) && name !in s.server.nameConn
    requires NewLoginReply(s.server, c, name, order, reply)
    ensures AfterNewLogin(s, c, name, order, AfterRead(s, c, name, order, reply))
  {
    var r := AfterRead(s, c, name, order, reply);
    forall d | Hears(s, d) && d in s.clients
      ensures r.clients[d] == AfterLoginAt(s, c, name, order, d)
    {
      assert d in reply.posts <==> d == c || d in Registered(s.server);
    }
  }

  lemma NewLoginInverse(s: Server, c: Conn, name: Name)
    requires Inverse(s) && IsLogin(s, c) && name != [] && name !in s.nameConn
    ensures Inverse(s.(nameConn := s.nameConn[name := c], connName := s.connName[c := name]))
  {
    SourceIsRegistered(s, c);
  }

  lemma NewLoginServerOk(s: System, c: Conn, name: Name, order: seq<Name>, r: System)
    requires ServerOk(s) && IsOrder(s.server, order) && c in s.loopOf && c !in s.gone
    requires IsLogin(s.server, c) && Clean(name) && name !in s.server.nameConn
    requires AfterNewLogin(s, c, name, order, r)
    ensures ServerOk(r) && c !in s.names && c !in Registered(s.server)
  {
    SourceIsRegistered(s.server, c);
    NewLoginInverse(s.server, c, name);
    forall k | k in Registered(r.server) ensures r.names[k] == NameOf(r.server, k) {
      if k != c {
        assert k in Registered(s.server) && s.names[k] == NameOf(s.server, k);
      }
    }
  }

  lemma NewcomerClient(s: System, c: Conn, name: Name, order: seq<Name>, r: System)
    requires ServerOk(s) && EachOk(s, c) && IsOrder(s.server, order) && c in s.loopOf && Hears(s, c)
    requires AfterNewLogin(s, c, name, order, r) && c !in Registered(s.server)
    ensures var p := Packet(RosterOf(Members(s.server, order) + [c]), RosterText(order + [name]));
      r.clients[c] == Client(Waiting, name, [], [p], [])
  {
    var p := Packet(RosterOf(Members(s.server, order) + [c]), RosterText(order + [name]));
    assert s.clients[c].wire == [] && [] + [p] == [p];
  }

  lemma NewcomerEachOk(s: System, c: Conn, name: Name, order: seq<Name>, r: System)
    requires ServerOk(s) && EachOk(s, c) && IsOrder(s.server, order) && c in s.loopOf && name !in s.server.nameConn
    requires AfterNewLogin(s, c, name, order, r) && ServerOk(r) && c !in s.names && c !in Registered(s.server)
    ensures EachOk(r, c)
  {
    if Hears(s, c) {
      NewcomerOk(s, c, name, order, r);
      NewcomerClient(s, c, name, order, r);
    }
  }

  lemma NewLoginEachOk(s: System, c: Conn, name: Name, order: seq<Name>, r: System, d: Conn)
    requires ServerOk(s) && EachOk(s, d) && IsOrder(s.server, order) && c in s.loopOf && d != c
    requires AfterNewLogin(s, c, name, order, r) && ServerOk(r) && c !in s.names && c !in Registered(s.server)
    ensures EachOk(r, d)
  {
    if Hears(s, d) && d in Registered(s.server) {
      PushOk(s.clients[d], d, Packet(JoinOf(c), Notice(JOIN, name)), s.loopOf[d] == s.loopOf[c], s, r);
    }
  }

  lemma NewLoginOk(s: System, c: Conn, name: Name, order: seq<Name>, r: System)
    requires SystemOk(s) && IsOrder(s.server, order) && c in s.loopOf && c !in s.gone
    requires IsLogin(s.server, c) && Clean(name) && name !in s.server.nameConn
    requires AfterNewLogin(s, c, name, order, r)
    ensures SystemOk(r)
  {
    NewLoginServerOk(s, c, name, order, r);
    forall d ensures EachOk(r, d) {
      assert EachOk(s, d);
      if d == c {
        NewcomerEachOk(s, c, name, order, r);
      } else {
        NewLoginEachOk(s, c, name, order, r, d);
      }
    }
  }

  /** The system after a login under a taken name, as far as anyone but the loser can tell. */
  ghost predicate AfterDuplicate(s: System, c: Conn, r: System)
  {
    && r.server == s.server.(connName := s.server.connName[c := []], connected := s.server.connected - {c})
    && r.loopOf == s.loopOf && r.names == s.names && r.gone == s.gone && r.broken == s.broken
    && r.clients.Keys == s.clients.Keys
    && (forall d :: d in s.clients && d in r.clients && d != c ==> r.clients[d] == s.clients[d])
  }

  lemma DuplicateStep(s: System, c: Conn, name: Name, order: seq<Name>, reply: Reply)
    requires IsOrder(s.server, order) && c in s.loopOf && s.clients.Keys == s.loopOf.Keys
    requires IsLogin(s.server, c) && name in s.server.nameConn
    requires reply.server == s.server.(connName := s.server.connName[c := []], connected := s.server.connected - {c})
    requires reply.posts.Keys <= {c}
    ensures AfterDuplicate(s, c, AfterRead(s, c, name, order, reply))
  {
  }

  lemma DuplicateOk(s: System, c: Conn, r: System)
    requires SystemOk(s) && c in s.loopOf && c !in s.gone && IsLogin(s.server, c)
    requires AfterDuplicate(s, c, r)
    ensures SystemOk(r)
  {
    SourceIsRegistered(s.server, c);
    assert Inverse(r.server);
    forall d ensures EachOk(r, d) {
      assert EachOk(s, d);
      if Hears(r, d) && d in Registered(r.server) {
        SameOk(s.clients[d], d, s, r);
      }
    }
  }

  // ---------------------------------------------------------------- a chat message

  lemma ChatHonest(s: System, c: Conn, buf: bytes, order: seq<Name>, d: Conn)
    requires ServerOk(s) && !IsLogin(s.server, c) && buf != []
    requires d in ReadCb(s.server, c, buf, order).posts
    ensures Honest(Packet(Chat, ReadCb(s.server, c, buf, order).posts[d]), s.clients[d].own, s.names)
  {
    SourceIsRegistered(s.server, c);
    assert Clean(s.names[c]);
  }

  lemma ChatOk(s: System, c: Conn, buf: bytes, order: seq<Name>)
    requires SystemOk(s) && Enabled(s, Step.Read(c, buf, order)) && !IsLogin(s.server, c)
    ensures SystemOk(Next(s, Step.Read(c, buf, order)))
  {
    var r, posts := Next(s, Step.Read(c, buf, order)), ReadCb(s.server, c, buf, order).posts;
    TouchNamed(s.server, c);
    assert r.server == s.server && posts.Keys <= Registered(s.server);
    forall d ensures EachOk(r, d) {
      assert EachOk(s, d);
      if Hears(r, d) && d in Registered(r.server) {
        if d in posts {
          ChatHonest(s, c, buf, order, d);
          PushOk(s.clients[d], d, Packet(Chat, posts[d]), s.loopOf[d] == s.loopOf[c], s, r);
        } else {
          SameOk(s.clients[d], d, s, r);
        }
      }
    }
  }

  // ---------------------------------------------------------------- every reachable state

  const START: System := System(Server(map[], map[], {}), map[], map[], map[], {}, {})

  lemma StepOk(s: System, step: Step)
    requires SystemOk(s) && Enabled(s, step)
    ensures SystemOk(Next(s, step))
  {
    match step {
      case Accept(c, loop) => AcceptOk(s, c, loop);
      case Read(c, buf, order) =>
        if IsLogin(s.server, c) {
          if CStr(buf) in s.server.nameConn {
            DuplicateLogin(s.server, c, buf, order);
            DuplicateStep(s, c, CStr(buf), order, ReadCb(s.server, c, buf, order));
            DuplicateOk(s, c, Next(s, step));
          } else {
            NewLogin(s.server, c, buf, order);
            NewLoginStep(s, c, CStr(buf), order, ReadCb(s.server, c, buf, order));
            NewLoginOk(s, c, CStr(buf), order, Next(s, step));
          }
        } else {
          ChatOk(s, c, buf, order);
        }
      case Exit(c) => ExitOk(s, c);
      case Break(c) => BreakOk(s, c);
      case RunQueued(c) => RunQueuedOk(s, c);
      case Deliver(c) => DeliverOk(s, c);
    }
  }

  ghost predicate IsRun(states: seq<System>, steps: seq<Step>) {
    && |states| == |steps| + 1
    && states[0] == START
    && forall i :: 0 <= i < |steps| ==> Enabled(states[i], steps[i]) && states[i + 1] == Next(states[i], steps[i])
  }

  lemma {:induction false} RunOk(states: seq<System>, steps: seq<Step>, n: nat)
    requires IsRun(states, steps) && n < |states|
    ensures SystemOk(states[n])
  {
    if n > 0 {
      RunOk(states, steps, n - 1);
      StepOk(states[n - 1], steps[n - 1]);
    }
  }

  lemma CountNoDup(s: seq<Name>)
    requires NoDup(s)
    ensures forall x :: multiset(s)[x] == if x in s then 1 else 0
  {
    if s != [] {
      var front, last := s[..|s| - 1], s[|s| - 1];
      CountNoDup(front);
      assert s == front + [last];
    }
  }

  /** Connections without repetition, all registered and no other: their names are the registered names, once each. */
  lemma NamesAreKeys(s: System, ks: seq<Conn>)
    requires ServerOk(s) && NoDup(ks) && (forall k :: k in ks <==> k in Registered(s.server))
    requires forall k :: k in ks ==> k in s.names
    ensures multiset(NamesOf(ks, s.names)) == multiset(s.server.nameConn.Keys)
  {
    var ns, keys := NamesOf(ks, s.names), s.server.nameConn.Keys;
    forall i | 0 <= i < |ks| ensures ns[i] in keys && s.server.nameConn[ns[i]] == ks[i] {
      SourceIsRegistered(s.server, ks[i]);
    }
    forall n | n in keys ensures n in ns {
      assert s.server.nameConn[n] in ks;
      var i :| 0 <= i < |ks| && ks[i] == s.server.nameConn[n];
      assert ns[i] == n;
    }
    SameCounts(ns, keys);
  }

  lemma SameCounts(ns: seq<Name>, keys: set<Name>)
    requires NoDup(ns) && forall n :: n in ns <==> n in keys
    ensures multiset(ns) == multiset(keys)
  {
    CountNoDup(ns);
  }

  /**
   * Roster agreement. In every reachable state, whatever the io loops, however direct sends overtook queued ones and
   * whoever else broke down: a registered client that still hears the server, once it has received what is under way,
   * shows exactly the registered names, each once, with its rows in step and the group row first.
   */
  lemma RosterAgreement(states: seq<System>, steps: seq<Step>, n: nat, c: Conn)
    requires IsRun(states, steps) && n < |states|
    requires c in Registered(states[n].server) && Hears(states[n], c) && c in states[n].clients
    ensures var s, cl := states[n], states[n].clients[c];
      var final := ReceiveAll(cl.screen, cl.own, cl.Undelivered());
      && final.Open? && Aligned(final.ui)
      && multiset(final.ui.users) == multiset(s.server.nameConn.Keys)
  {
    RunOk(states, steps, n);
    var s, cl := states[n], states[n].clients[c];
    assert EachOk(s, c);
    var last := ReceiveAllOk(cl.screen, cl.shown, cl.Undelivered(), cl.own, s.names, Registered(s.server));
    NamesAreKeys(s, last);
  }

  /**
   * On the way there the client never closes, never indexes a missing part and never loses the group row: at every
   * reachable moment its rows are in step, and a leave notice next in line names someone on screen.
   */
  lemma RowsAlwaysAligned(states: seq<System>, steps: seq<Step>, n: nat, c: Conn)
    requires IsRun(states, steps) && n < |states|
    requires c in Registered(states[n].server) && Hears(states[n], c) && c in states[n].clients
    ensures var cl := states[n].clients[c];
      && !cl.screen.Closed?
      && (cl.screen.Open? ==> Aligned(cl.screen.ui))
      && (cl.screen.Open? && cl.wire != [] && cl.wire[0].tag.LeaveOf? ==>
            NoticeName(LEAVE, cl.wire[0].body).Some? && NoticeName(LEAVE, cl.wire[0].body).value in cl.screen.ui.users)
  {
    RunOk(states, steps, n);
    var s, cl := states[n], states[n].clients[c];
    assert EachOk(s, c);
    if cl.screen.Open? && cl.wire != [] && cl.wire[0].tag.LeaveOf? {
      var u, p := cl.Undelivered(), cl.wire[0];
      assert u[0] == p && Honest(u[0], cl.own, s.names);
      TrackStep(cl.shown, u, Registered(s.server), p.tag.who);
      ReceiveLeave(cl.screen.ui, cl.shown, p, cl.own, s.names);
      NoticeRoundTrip(LEAVE, s.names[p.tag.who]);
    }
  }

  /**
   * The other side of a refused login: from any reachable state, a client that asks for a taken name is sent a roster
   * that makes it close, and the server shuts its connection down.
   */
  lemma RefusedCloses(states: seq<System>, steps: seq<Step>, n: nat, c: Conn, buf: bytes, order: seq<Name>)
    requires IsRun(states, steps) && n < |steps| && steps[n] == Step.Read(c, buf, order)
    requires IsLogin(states[n].server, c) && Hears(states[n], c) && CStr(buf) in states[n].server.nameConn
    ensures c in states[n + 1].clients && c !in states[n + 1].server.connected
    ensures var cl := states[n + 1].clients[c];
      cl.Undelivered() != [] && ReceiveAll(cl.screen, CStr(buf), cl.Undelivered()) == Closed
  {
    RunOk(states, steps, n);
    var s, name := states[n], CStr(buf);
    SourceIsRegistered(s.server, c);
    assert EachOk(s, c);
    var p := RefusedPacket(s, c, buf, order);
    RosterIsClean(s, order, name);
    LoginAnswered(s.server, c, buf, order);
    assert Login(p.body, name).None?;
    assert [p][1..] == [];
    assert ReceiveAll(Waiting, name, [p]) == ReceiveAll(Closed, name, []);
  }

  lemma RosterIsClean(s: System, order: seq<Name>, name: Name)
    requires ServerOk(s) && IsOrder(s.server, order) && Clean(name)
    ensures Splittable(s.server, name)
  {
    forall n | n in s.server.nameConn ensures n != [] && PLUS !in n {
      SourceIsRegistered(s.server, s.server.nameConn[n]);
      assert Clean(s.names[s.server.nameConn[n]]);
    }
  }

  /** What is then on its way to the client. */
  lemma RefusedPacket(s: System, c: Conn, buf: bytes, order: seq<Name>) returns (p: Packet)
    requires ServerOk(s) && EachOk(s, c) && Enabled(s, Step.Read(c, buf, order))
    requires IsLogin(s.server, c) && Hears(s, c) && CStr(buf) in s.server.nameConn && c !in Registered(s.server)
    ensures var r := Next(s, Step.Read(c, buf, order));
      && c in r.clients && c !in r.server.connected && c in ReadCb(s.server, c, buf, order).posts
      && p.body == ReadCb(s.server, c, buf, order).posts[c]
      && r.clients[c] == Client(Waiting, CStr(buf), [], [p], [])
      && r.clients[c].Undelivered() == [p]
  {
    LoginGetsRoster(s.server, c, buf, order);
    p := Packet(TagFor(s.server, c, c, order), ReadCb(s.server, c, buf, order).posts[c]);
    assert s.clients[c].wire == [] && [] + [p] == [p] && [p] + [] == [p];
  }
}
