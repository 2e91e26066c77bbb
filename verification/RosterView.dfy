/** One client and what is on its way to it, up to the order of what was sent from other loops. */
module RosterView {
  import opened Bytes
  import opened Protocol
  import opened ServerSpec
  import opened ClientSpec

  /** What a message is about; the client never looks at this, it reads the body. */
  datatype Tag = RosterOf(members: seq<Conn>) | JoinOf(who: Conn) | LeaveOf(who: Conn) | Chat

  datatype Packet = Packet(tag: Tag, body: bytes)

  datatype Screen = Waiting | Open(ui: Ui) | Closed

  /** One receive at the client: the first is the roster, the others are flushed. */
  function Receive(screen: Screen, own: bytes, body: bytes): Screen {
    match screen
    case Closed => Closed
    case Waiting =>
      var r := Login(body, own);
      if r.Some? then Open(r.value) else Closed
    case Open(ui) =>
      var r := Flush(ui, CStr(body));
      if r.Some? then Open(r.value) else Closed
  }

  function ReceiveAll(screen: Screen, own: bytes, u: seq<Packet>): Screen
    decreases |u|
  {
    if u == [] then screen else ReceiveAll(Receive(screen, own, u[0].body), own, u[1..])
  }

  /** A name the text formats can carry. */
  ghost predicate Clean(name: Name) {
    name != [] && PLUS !in name && PRIVATE !in name && GROUP !in name && LEAVE !in name && JOIN !in name
  }

  ghost predicate AllClean(names: map<Conn, Name>) {
    forall k :: k in names ==> Clean(names[k])
  }

  function NamesOf(ks: seq<Conn>, names: map<Conn, Name>): (r: seq<Name>)
    requires forall k :: k in ks ==> k in names
    ensures |r| == |ks|
    ensures forall i :: 0 <= i < |ks| ==> r[i] == names[ks[i]]
  {
    if ks == [] then [] else [names[ks[0]]] + NamesOf(ks[1..], names)
  }

  /** The message says what its tag says. */
  ghost predicate Honest(p: Packet, own: Name, names: map<Conn, Name>) {
    match p.tag
    case RosterOf(m) =>
      && NoDup(m) && (forall k :: k in m ==> k in names)
      && p.body == RosterText(NamesOf(m, names))
      && multiset(NamesOf(m, names))[own] == 1
    case JoinOf(k) => k in names && p.body == Notice(JOIN, names[k])
    case LeaveOf(k) => k in names && p.body == Notice(LEAVE, names[k])
    case Chat => exists source: Name, text ::
      (PRIVATE !in source && p.body == ServerMessage(PRIVATE, source, text)) ||
      (GROUP !in source && p.body == ServerMessage(GROUP, source, text))
  }

  ghost predicate AllHonest(u: seq<Packet>, own: Name, names: map<Conn, Name>) {
    forall i :: 0 <= i < |u| ==> Honest(u[i], own, names)
  }

  // ---------------------------------------------------------------- one name holder at a time

  /** Whether `k` is shown after one packet; None when it joins while shown or leaves while not. */
  function Track1(b: bool, t: Tag, k: Conn): Option<bool> {
    match t
    case RosterOf(m) => Some(k in m)
    case JoinOf(j) => if j != k then Some(b) else if b then None else Some(true)
    case LeaveOf(j) => if j != k then Some(b) else if b then Some(false) else None
    case Chat => Some(b)
  }

  function Track(b: bool, u: seq<Packet>, k: Conn): Option<bool>
    decreases |u|
  {
    if u == [] then Some(b)
    else
      var r := Track1(b, u[0].tag, k);
      if r.None? then None else Track(r.value, u[1..], k)
  }

  lemma {:induction false} TrackAppend(b: bool, u: seq<Packet>, v: seq<Packet>, k: Conn)
    ensures Track(b, u + v, k) ==
            var r := Track(b, u, k); if r.None? then None else Track(r.value, v, k)
    decreases |u|
  {
    if u == [] {
      assert u + v == v;
    } else {
      var r := Track1(b, u[0].tag, k);
      assert (u + v)[1..] == u[1..] + v;
      if r.Some? {
        TrackAppend(r.value, u[1..], v, k);
      }
    }
  }

  ghost predicate Concerns(t: Tag, k: Conn) {
    t.RosterOf? || (t.JoinOf? && t.who == k) || (t.LeaveOf? && t.who == k)
  }

  lemma {:induction false} TrackSkip(b: bool, u: seq<Packet>, k: Conn)
    requires forall i :: 0 <= i < |u| ==> !Concerns(u[i].tag, k)
    ensures Track(b, u, k) == Some(b)
    decreases |u|
  {
    if u != [] {
      TrackSkip(b, u[1..], k);
    }
  }

  // ---------------------------------------------------------------- the client's view

  /** The roster, if still to come, is the first packet, and comes once. */
  ghost predicate RosterFirst(screen: Screen, u: seq<Packet>) {
    && (screen.Waiting? ==> u != [] && u[0].tag.RosterOf?)
    && (forall i :: 0 <= i < |u| && u[i].tag.RosterOf? ==> i == 0 && screen.Waiting?)
  }

  /** The names on screen are those of the connections in `shown`, as often as there are such connections. */
  ghost predicate Shows(screen: Screen, shown: seq<Conn>, names: map<Conn, Name>) {
    && !screen.Closed?
    && (screen.Waiting? ==> shown == [])
    && NoDup(shown) && (forall k :: k in shown ==> k in names)
    && (screen.Open? ==> Aligned(screen.ui) && multiset(screen.ui.users) == multiset(NamesOf(shown, names)))
  }

  ghost predicate Tracks(shown: seq<Conn>, u: seq<Packet>, reg: set<Conn>) {
    forall k :: Track(k in shown, u, k) == Some(k in reg)
  }

  /** `u` brings the client from what it shows to the connections in `reg`. */
  ghost predicate ViewOk(screen: Screen, shown: seq<Conn>, u: seq<Packet>, own: Name,
                         names: map<Conn, Name>, reg: set<Conn>)
  {
    && AllHonest(u, own, names)
    && RosterFirst(screen, u)
    && Shows(screen, shown, names)
    && Tracks(shown, u, reg)
  }

  function NowShown(shown: seq<Conn>, t: Tag): seq<Conn> {
    match t
    case RosterOf(m) => m
    case JoinOf(k) => shown + [k]
    case LeaveOf(k) => RemoveOne(shown, k)
    case Chat => shown
  }

  lemma NamesOfMultiset(ks: seq<Conn>, i: nat, names: map<Conn, Name>)
    requires i < |ks| && forall k :: k in ks ==> k in names
    ensures forall k :: k in RemoveAt(ks, i) ==> k in names
    ensures multiset(NamesOf(RemoveAt(ks, i), names)) == multiset(NamesOf(ks, names)) - multiset{names[ks[i]]}
    ensures names[ks[i]] in NamesOf(ks, names)
  {
    var r := RemoveAt(ks, i);
    forall k | k in r ensures k in names {
      var j :| 0 <= j < |r| && r[j] == k;
      assert k == ks[if j < i then j else j + 1];
    }
    NamesOfRemoved(ks, i, names);
  }

  lemma NamesOfRemoved(ks: seq<Conn>, i: nat, names: map<Conn, Name>)
    requires i < |ks| && (forall k :: k in ks ==> k in names) && forall k :: k in RemoveAt(ks, i) ==> k in names
    ensures NamesOf(RemoveAt(ks, i), names) == RemoveAt(NamesOf(ks, names), i)
  {
  }

  lemma ReceiveRoster(p: Packet, own: Name, names: map<Conn, Name>)
    requires p.tag.RosterOf? && Honest(p, own, names) && AllClean(names)
    ensures Shows(Receive(Waiting, own, p.body), p.tag.members, names)
  {
    var ns := NamesOf(p.tag.members, names);
    forall i | 0 <= i < |ns| ensures PLUS !in ns[i] && ns[i] != [] {
      assert p.tag.members[i] in names;
    }
    RosterRoundTrip(ns);
    LoginAligned(p.body, own);
  }

  lemma FlushNotice(ui: Ui, kind: byte, name: Name)
    requires (kind == JOIN || kind == LEAVE) && kind !in name
    ensures Flush(ui, CStr(Notice(kind, name))) == Some(if kind == JOIN then Joined(ui, name) else Left(ui, name))
  {
    NoticeRoundTrip(kind, name);
    assert CStr(Notice(kind, name)) == Notice(kind, name);
  }

  lemma FlushMessage(ui: Ui, kind: byte, source: Name, text: bytes)
    requires (kind == PRIVATE || kind == GROUP) && kind !in source
    ensures Flush(ui, CStr(ServerMessage(kind, source, text))) == Some(ui)
  {
    var body := ServerMessage(kind, source, text);
    ClientReads(kind, source, text);
    assert body[0] == kind;
    assert CStr(body) == [kind] + Until(body[1..], NUL);
    assert CStr(CStr(body)) == CStr(body);
  }

  lemma NamesOfLast(ks: seq<Conn>, k: Conn, names: map<Conn, Name>)
    requires k in names && forall j :: j in ks ==> j in names
    ensures forall j :: j in ks + [k] ==> j in names
    ensures NamesOf(ks + [k], names) == NamesOf(ks, names) + [names[k]]
  {
    var all := ks + [k];
    forall j | j in all ensures j in names {
      assert j in ks || j == k;
    }
    assert |NamesOf(all, names)| == |ks| + 1;
  }

  lemma ReceiveJoin(ui: Ui, shown: seq<Conn>, p: Packet, own: Name, names: map<Conn, Name>)
    requires p.tag.JoinOf? && Honest(p, own, names) && AllClean(names)
    requires Shows(Open(ui), shown, names) && p.tag.who !in shown
    ensures Shows(Receive(Open(ui), own, p.body), shown + [p.tag.who], names)
  {
    var name := names[p.tag.who];
    FlushNotice(ui, JOIN, name);
    JoinedAligned(ui, name);
    NamesOfLast(shown, p.tag.who, names);
  }

  lemma ReceiveLeave(ui: Ui, shown: seq<Conn>, p: Packet, own: Name, names: map<Conn, Name>)
    requires p.tag.LeaveOf? && Honest(p, own, names) && AllClean(names)
    requires Shows(Open(ui), shown, names) && p.tag.who in shown
    ensures names[p.tag.who] in ui.users
    ensures Shows(Receive(Open(ui), own, p.body), RemoveOne(shown, p.tag.who), names)
  {
    var name, at := names[p.tag.who], IndexOf(shown, p.tag.who);
    NamesOfMultiset(shown, at, names);
    assert name in ui.users by { assert name in multiset(ui.users); }
    FlushNotice(ui, LEAVE, name);
    LeftAligned(ui, name);
    RemoveKeepsNoDup(shown, at);
  }

  lemma RemoveKeepsNoDup(s: seq<Conn>, at: nat)
    requires at < |s| && NoDup(s)
    ensures NoDup(RemoveAt(s, at))
    ensures forall k :: k in RemoveAt(s, at) <==> k in s && k != s[at]
  {
    var r := RemoveAt(s, at);
    forall k | k in s && k != s[at] ensures k in r {
      var i :| 0 <= i < |s| && s[i] == k;
      assert r[if i < at then i else i - 1] == k;
    }
  }

  lemma ReceiveChat(ui: Ui, p: Packet, own: Name, names: map<Conn, Name>)
    requires p.tag.Chat? && Honest(p, own, names)
    ensures Receive(Open(ui), own, p.body) == Open(ui)
  {
    var source: Name, text :|
      (PRIVATE !in source && p.body == ServerMessage(PRIVATE, source, text)) ||
      (GROUP !in source && p.body == ServerMessage(GROUP, source, text));
    FlushMessage(ui, p.body[0], source, text);
  }

  lemma TrackStep(shown: seq<Conn>, u: seq<Packet>, reg: set<Conn>, k: Conn)
    requires u != [] && Track(k in shown, u, k) == Some(k in reg)
    requires NoDup(shown)
    ensures Track1(k in shown, u[0].tag, k) == Some(k in NowShown(shown, u[0].tag))
    ensures Track(k in NowShown(shown, u[0].tag), u[1..], k) == Some(k in reg)
  {
    if u[0].tag.LeaveOf? {
      if u[0].tag.who in shown {
        RemoveKeepsNoDup(shown, IndexOf(shown, u[0].tag.who));
      }
    }
  }

  lemma ReceiveShows(screen: Screen, shown: seq<Conn>, p: Packet, own: Name, names: map<Conn, Name>)
    requires Shows(screen, shown, names) && Honest(p, own, names) && AllClean(names)
    requires screen.Waiting? <==> p.tag.RosterOf?
    requires p.tag.JoinOf? ==> p.tag.who !in shown
    requires p.tag.LeaveOf? ==> p.tag.who in shown
    ensures Shows(Receive(screen, own, p.body), NowShown(shown, p.tag), names)
    ensures Receive(screen, own, p.body).Open?
  {
    match p.tag {
      case RosterOf(m) => ReceiveRoster(p, own, names);
      case JoinOf(k) => ReceiveJoin(screen.ui, shown, p, own, names);
      case LeaveOf(k) => ReceiveLeave(screen.ui, shown, p, own, names);
      case Chat => ReceiveChat(screen.ui, p, own, names);
    }
    if p.tag.RosterOf? {
      assert screen == Waiting;
    }
  }

  lemma TracksTail(shown: seq<Conn>, u: seq<Packet>, reg: set<Conn>)
    requires u != [] && NoDup(shown) && Tracks(shown, u, reg)
    ensures Tracks(NowShown(shown, u[0].tag), u[1..], reg)
  {
    forall k ensures Track(k in NowShown(shown, u[0].tag), u[1..], k) == Some(k in reg) {
      TrackStep(shown, u, reg, k);
    }
  }

  lemma HonestTail(u: seq<Packet>, own: Name, names: map<Conn, Name>)
    requires u != [] && AllHonest(u, own, names)
    ensures Honest(u[0], own, names) && AllHonest(u[1..], own, names)
  {
    forall i | 0 <= i < |u| - 1 ensures Honest(u[1..][i], own, names) {
      assert Honest(u[i + 1], own, names);
    }
  }

  lemma RosterFirstTail(screen: Screen, u: seq<Packet>, next: Screen)
    requires u != [] && RosterFirst(screen, u) && next.Open?
    ensures screen.Waiting? <==> u[0].tag.RosterOf?
    ensures RosterFirst(next, u[1..])
  {
  }

  /** Receiving the next packet keeps the client on course. */
  lemma ReceiveOk(screen: Screen, shown: seq<Conn>, u: seq<Packet>, own: Name, names: map<Conn, Name>, reg: set<Conn>)
    requires ViewOk(screen, shown, u, own, names, reg) && AllClean(names) && u != []
    ensures ViewOk(Receive(screen, own, u[0].body), NowShown(shown, u[0].tag), u[1..], own, names, reg)
  {
    var p := u[0];
    if p.tag.JoinOf? || p.tag.LeaveOf? {
      TrackStep(shown, u, reg, p.tag.who);
    }
    HonestTail(u, own, names);
    ReceiveShows(screen, shown, p, own, names);
    RosterFirstTail(screen, u, Receive(screen, own, p.body));
    TracksTail(shown, u, reg);
  }

  /** Receiving everything under way leaves the client showing exactly the connections in `reg`. */
  lemma {:induction false} ReceiveAllOk(screen: Screen, shown: seq<Conn>, u: seq<Packet>, own: Name,
                                        names: map<Conn, Name>, reg: set<Conn>) returns (last: seq<Conn>)
    requires ViewOk(screen, shown, u, own, names, reg) && AllClean(names)
    ensures ViewOk(ReceiveAll(screen, own, u), last, [], own, names, reg)
    ensures ReceiveAll(screen, own, u).Open?
    ensures forall k :: k in last <==> k in reg
    decreases |u|
  {
    if u == [] {
      last := shown;
      forall k ensures k in shown <==> k in reg {
        assert Track(k in shown, u, k) == Some(k in reg);
      }
    } else {
      ReceiveOk(screen, shown, u, own, names, reg);
      last := ReceiveAllOk(Receive(screen, own, u[0].body), NowShown(shown, u[0].tag), u[1..], own, names, reg);
    }
  }

  // ---------------------------------------------------------------- the receive loop

  function Bodies(u: seq<Packet>): seq<bytes> {
    if u == [] then [] else [u[0].body] + Bodies(u[1..])
  }

  /** While the client stays open, receiving packets is flushing their bodies one after the other. */
  lemma {:induction false} ReceivedIsFlushed(ui: Ui, own: bytes, u: seq<Packet>)
    requires ReceiveAll(Open(ui), own, u).Open?
    ensures ReceiveAll(Open(ui), own, u).ui == FlushAll(ui, Bodies(u))
    decreases |u|
  {
    if u != [] {
      var next := Receive(Open(ui), own, u[0].body);
      if next.Closed? {
        ClosedStays(own, u[1..]);
      } else {
        assert next == Open(FlushOr(ui, u[0].body));
        ReceivedIsFlushed(next.ui, own, u[1..]);
        assert Bodies(u)[0] == u[0].body && Bodies(u)[1..] == Bodies(u[1..]);
      }
    }
  }

  lemma {:induction false} ClosedStays(own: bytes, u: seq<Packet>)
    ensures ReceiveAll(Closed, own, u) == Closed
    decreases |u|
  {
    if u != [] {
      ClosedStays(own, u[1..]);
    }
  }
}
