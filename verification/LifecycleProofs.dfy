/**
 * The invariant of the life of connections (LifecycleSpec), and that every step keeps it.
 *
 * It speaks of one loop at a time (`LoopOk`: its queue, its thread's task, its undispatched channels), of one
 * connection at a time (`Held`: who will take it on; `SetsOk`: which sets it is in) and of the names. A step changes
 * one loop, or one connection, or queues one functor; the frame lemmas say what the others keep.
 */
module LifecycleProofs {
  import opened Bytes
  import opened LifecycleSpec

  /** A queued functor is on the right loop and its connection is where it should be. */
  ghost predicate FunctorOk(s: System, l: Loop, f: Functor) {
    && f.c in s.conns
    && (f.RemoveInLoop? ==> l == 0) && (!f.RemoveInLoop? ==> l == s.conns[f.c].loop)
    && match f
       case Established(c) => StageOf(s, c) == Fresh
       case SendInLoop(c) => StageOf(s, c) != Fresh && StageOf(s, c) != Destroyed
       case PrivateSend(c) => StageOf(s, c) != Fresh
       case RemoveInLoop(c) => StageOf(s, c) == Removing
       case ConnectDestroyed(c) => StageOf(s, c) == Doomed
  }

  /** Functors other than sends are queued once, and no broadcast send waits behind its connection's destruction. */
  ghost predicate Ordered(q: seq<Functor>) {
    forall i, j :: 0 <= i < j < |q| ==> MayPrecede(q[i], q[j])
  }

  ghost predicate MayPrecede(f: Functor, g: Functor) {
    (f == g ==> IsSend(f)) && !(f.ConnectDestroyed? && g == SendInLoop(f.c))
  }

  ghost predicate QueueOk(s: System, l: Loop)
    requires l in s.loops
  {
    (forall f :: f in s.loops[l].queue ==> FunctorOk(s, l, f)) && Ordered(s.loops[l].queue)
  }

  /** A connection in passing is held by the functor that will take it on. */
  ghost predicate Held(s: System, c: Conn)
    requires c in s.conns
  {
    var l := s.conns[c].loop;
    && l in s.loops && 0 in s.loops
    && (StageOf(s, c) == Fresh ==> Established(c) in s.loops[l].queue)
    && (StageOf(s, c) == Removing ==> RemoveInLoop(c) in s.loops[0].queue)
    && (StageOf(s, c) == Doomed ==> ConnectDestroyed(c) in s.loops[l].queue)
    && (StageOf(s, c) == Closing ==> Exits(TaskOf(s, l), c))
  }

  /** The task of a loop thread between the close of `c` and its close callback. */
  ghost predicate Exits(t: Task, c: Conn) {
    || ((t.WantWalk? || t.Walk?) && t.next == ThenErase(c))
    || t == Erase(c) || t == CloseCb(c)
  }

  ghost predicate SetsOk(s: System, c: Conn) {
    && (c in s.interest <==> c in s.conns && StageOf(s, c) == Up)
    && (c in s.watched <==> c in s.conns && StageOf(s, c) != Fresh && StageOf(s, c) != Destroyed)
    && (c in s.connections <==> c in s.conns && StageOf(s, c) != Doomed && StageOf(s, c) != Destroyed)
    && (c in s.connName ==> c in s.conns && (StageOf(s, c) == Up || StageOf(s, c) == Closing))
  }

  ghost predicate NamesOk(s: System) {
    forall n :: n in s.nameConn ==> s.nameConn[n] in s.connName && s.connName[s.nameConn[n]] == n
  }

  ghost predicate ThenOk(s: System, l: Loop, next: Then) {
    match next
    case Nothing => true
    case ThenTest(c, name) => c in s.conns && s.conns[c].loop == l && StageOf(s, c) == Up && c !in s.connName
    case ThenInsert(c, name) => c in s.conns && s.conns[c].loop == l && StageOf(s, c) == Up && c !in s.connName
    case ThenErase(c) => c in s.conns && s.conns[c].loop == l && StageOf(s, c) == Closing
  }

  /** A connection of another loop. */
  ghost predicate Elsewhere(s: System, l: Loop, d: Conn) {
    d in s.conns && s.conns[d].loop != l
  }

  ghost predicate TaskOk(s: System, l: Loop, t: Task) {
    match t
    case Idle => true
    case WantWalk(next) => ThenOk(s, l, next)
    case Walk(next, todo, sending) =>
      && ThenOk(s, l, next) && todo <= s.nameConn.Values
      && (sending.Some? ==> sending.value in todo && Elsewhere(s, l, sending.value))
    case Test(c, name) => ThenOk(s, l, ThenTest(c, name))
    case Insert(c, name) => ThenOk(s, l, ThenInsert(c, name))
    case Found(d) => d in s.conns && StageOf(s, d) != Fresh
    case Pushing(d) => Elsewhere(s, l, d) && StageOf(s, d) != Fresh
    case Erase(c) => ThenOk(s, l, ThenErase(c))
    case CloseCb(c) => ThenOk(s, l, ThenErase(c)) && c !in s.connName
  }

  /** Undispatched channels are of live connections of this loop, each once, and only while dispatching. */
  ghost predicate ActiveOk(s: System, l: Loop)
    requires l in s.loops
  {
    var a := s.loops[l].active;
    && NoDup(a) && (a != [] ==> s.loops[l].dispatching)
    && (forall c :: c in a ==> c in s.conns && s.conns[c].loop == l && StageOf(s, c) == Up)
  }

  ghost predicate LoopOk(s: System, l: Loop)
    requires l in s.loops
  {
    QueueOk(s, l) && TaskOk(s, l, TaskOf(s, l)) && ActiveOk(s, l)
  }

  ghost predicate Inv(s: System) {
    && (forall l :: l in s.loops ==> LoopOk(s, l))
    && (forall c :: c in s.conns ==> Held(s, c))
    && (forall c :: SetsOk(s, c))
    && NamesOk(s)
  }

  // ---------------------------------------------------------------- frames

  lemma AppendOrdered(q: seq<Functor>, g: Functor)
    requires Ordered(q) && forall f :: f in q ==> MayPrecede(f, g)
    ensures Ordered(q + [g])
  {
    var r := q + [g];
    forall i, j | 0 <= i < j < |r| ensures MayPrecede(r[i], r[j]) {
      assert r[i] == q[i] && r[i] in q;
    }
  }

  lemma TailOrdered(q: seq<Functor>)
    requires Ordered(q) && q != []
    ensures Ordered(q[1..]) && forall f :: f in q[1..] ==> f in q && MayPrecede(q[0], f)
  {
    forall f | f in q[1..] ensures f in q && MayPrecede(q[0], f) {
      var i :| 0 <= i < |q| - 1 && q[1..][i] == f;
      assert q[i + 1] == f;
    }
  }

  /** The connections of `s` are where they were. */
  ghost predicate KeepsConns(s: System, r: System) {
    forall d :: d in s.conns ==> d in r.conns && r.conns[d] == s.conns[d]
  }

  ghost predicate KeepsNames(s: System, r: System) {
    r.nameConn == s.nameConn && r.connName == s.connName
  }

  /** Only connection `c` moved on, without changing loop, and never back to where it began. */
  ghost predicate MovesOnly(s: System, r: System, c: Conn) {
    && c in s.conns && r.conns.Keys == s.conns.Keys && r.conns[c].loop == s.conns[c].loop
    && StageOf(r, c) != Fresh
    && forall d :: d in s.conns && d != c ==> r.conns[d] == s.conns[d]
  }

  ghost predicate Mentions(t: Task, c: Conn) {
    match t
    case Idle => false
    case WantWalk(next) => !next.Nothing? && next.c == c
    case Walk(next, _, _) => !next.Nothing? && next.c == c
    case Test(d, _) => d == c
    case Insert(d, _) => d == c
    case Found(_) => false
    case Pushing(_) => false
    case Erase(d) => d == c
    case CloseCb(d) => d == c
  }

  /** A task speaks of connections of its own loop that are up or closing. */
  lemma MentionsOwn(s: System, l: Loop, c: Conn)
    requires l in s.loops && LoopOk(s, l)
    ensures Mentions(TaskOf(s, l), c) || c in s.loops[l].active ==>
              && c in s.conns && s.conns[c].loop == l && (StageOf(s, c) == Up || StageOf(s, c) == Closing)
              && (StageOf(s, c) == Closing ==> Exits(TaskOf(s, l), c))
    ensures Exits(TaskOf(s, l), c) ==> Mentions(TaskOf(s, l), c)
  {
  }

  lemma LoopStays(s: System, r: System, l: Loop)
    requires l in s.loops && l in r.loops && LoopOk(s, l) && r.loops[l] == s.loops[l]
    requires KeepsConns(s, r) && KeepsNames(s, r)
    ensures LoopOk(r, l)
  {
  }

  /** A loop that has nothing to do with the connection that moved on. */
  lemma LoopStaysAway(s: System, r: System, l: Loop, c: Conn)
    requires l in s.loops && l in r.loops && LoopOk(s, l) && r.loops[l] == s.loops[l]
    requires MovesOnly(s, r, c) && KeepsNames(s, r)
    requires forall f :: f in s.loops[l].queue && f.c == c ==> FunctorOk(r, l, f)
    requires !Mentions(TaskOf(s, l), c) && c !in s.loops[l].active
    ensures LoopOk(r, l)
  {
    assert TaskOk(r, l, TaskOf(r, l));
    assert ActiveOk(r, l);
    forall f | f in r.loops[l].queue ensures FunctorOk(r, l, f) {
      assert FunctorOk(s, l, f);
    }
  }

  lemma SetsStay(s: System, r: System, c: Conn)
    requires SetsOk(s, c)
    requires c in s.conns <==> c in r.conns
    requires c in s.conns ==> r.conns[c].stage == s.conns[c].stage
    requires c in s.interest <==> c in r.interest
    requires c in s.watched <==> c in r.watched
    requires c in s.connections <==> c in r.connections
    requires c in r.connName ==> c in s.connName
    ensures SetsOk(r, c)
  {
  }

  /** `d` stays held: its functor is still queued, its exit still under way. */
  lemma HeldStays(s: System, r: System, d: Conn)
    requires d in s.conns && d in r.conns && r.conns[d] == s.conns[d] && Held(s, d)
    requires s.loops.Keys <= r.loops.Keys
    requires forall l, f :: l in s.loops && f in s.loops[l].queue && f.c == d && !IsSend(f) ==>
               f in r.loops[l].queue
    requires Exits(TaskOf(s, s.conns[d].loop), d) ==> Exits(TaskOf(r, s.conns[d].loop), d)
    ensures Held(r, d)
  {
  }

  /** Every functor of `s` but sends is still queued, every exit still under way. */
  ghost predicate KeepsWork(s: System, r: System) {
    && s.loops.Keys == r.loops.Keys
    && (forall l, f :: l in s.loops && f in s.loops[l].queue && !IsSend(f) ==> f in r.loops[l].queue)
    && (forall l, d :: l in s.loops && Exits(TaskOf(s, l), d) ==> Exits(TaskOf(r, l), d))
  }

  lemma OneLoopWorks(s: System, r: System, l: Loop, ls: LoopState)
    requires l in s.loops && r.loops == s.loops[l := ls]
    requires forall f :: f in s.loops[l].queue && !IsSend(f) ==> f in ls.queue
    requires forall d :: Exits(TaskOf(s, l), d) ==> Exits(ls.task, d)
    ensures KeepsWork(s, r)
  {
  }

  /** Beside the loops, only names changed: new ones go to connections that are up. */
  lemma ConnsStayInv(s: System, r: System)
    requires Inv(s) && r.conns == s.conns && KeepsWork(s, r) && NamesOk(r)
    requires r.connections == s.connections && r.watched == s.watched && r.interest == s.interest
    requires forall c :: c in r.connName ==> c in s.connName || (c in s.conns && StageOf(s, c) == Up)
    requires forall l :: l in r.loops ==> LoopOk(r, l)
    ensures Inv(r)
  {
    forall d | d in r.conns ensures Held(r, d) {
      HeldStays(s, r, d);
    }
    forall d ensures SetsOk(r, d) {
      assert SetsOk(s, d);
    }
  }

  // ---------------------------------------------------------------- steps that move no connection

  /** Only loop `l`'s task and undispatched channels change. */
  lemma TaskStepInv(s: System, l: Loop, ls: LoopState)
    requires Inv(s) && l in s.loops && ls.queue == s.loops[l].queue
    requires TaskOk(s, l, ls.task)
    requires forall d :: Exits(TaskOf(s, l), d) ==> Exits(ls.task, d)
    requires ActiveOk(s.(loops := s.loops[l := ls]), l)
    ensures Inv(s.(loops := s.loops[l := ls]))
  {
    var r := s.(loops := s.loops[l := ls]);
    forall k | k in r.loops ensures LoopOk(r, k) {
      assert LoopOk(s, k);
      if k != l {
        LoopStays(s, r, k);
      }
    }
    ConnsStayInv(s, r);
  }

  lemma EnqueuedLoop(s: System, r: System, k: Loop, f: Functor)
    requires k in s.loops && k in r.loops && LoopOk(s, k)
    requires r.loops[k] == s.loops[k].(queue := s.loops[k].queue + [f])
    requires r.conns == s.conns && KeepsNames(s, r)
    requires FunctorOk(s, k, f) && forall g :: g in s.loops[k].queue ==> MayPrecede(g, f)
    ensures LoopOk(r, k)
  {
    AppendOrdered(s.loops[k].queue, f);
    assert ActiveOk(r, k);
    assert TaskOk(r, k, TaskOf(r, k));
  }

  lemma EnqueuedLoops(s: System, k: Loop, f: Functor)
    requires k in s.loops && FunctorOk(s, k, f) && forall l :: l in s.loops ==> LoopOk(s, l)
    requires forall g :: g in s.loops[k].queue ==> MayPrecede(g, f)
    ensures forall l :: l in s.loops ==> LoopOk(Enqueue(s, k, f), l)
  {
    var r := Enqueue(s, k, f);
    forall l | l in s.loops ensures LoopOk(r, l) {
      assert LoopOk(s, l);
      if l != k {
        LoopStays(s, r, l);
      } else {
        EnqueuedLoop(s, r, k, f);
      }
    }
  }

  lemma EnqueueInv(s: System, k: Loop, f: Functor)
    requires Inv(s) && k in s.loops && FunctorOk(s, k, f)
    requires forall g :: g in s.loops[k].queue ==> MayPrecede(g, f)
    ensures Inv(Enqueue(s, k, f))
  {
    var r := Enqueue(s, k, f);
    EnqueuedLoops(s, k, f);
    OneLoopWorks(s, r, k, r.loops[k]);
    ConnsStayInv(s, r);
  }

  lemma PollInv(s: System, l: Loop, ready: seq<Conn>)
    requires Inv(s) && Enabled(s, Poll(l, ready))
    ensures Inv(Next(s, Poll(l, ready)))
  {
    forall c | c in ready ensures StageOf(s, c) == Up {
      assert SetsOk(s, c);
    }
    assert LoopOk(s, l);
    TaskStepInv(s, l, s.loops[l].(dispatching := true, active := ready));
  }

  lemma TailMembers(a: seq<Conn>)
    requires a != [] && NoDup(a)
    ensures forall c :: c in a[1..] ==> c in a && c != a[0]
  {
    forall c | c in a[1..] ensures c in a && c != a[0] {
      var i :| 0 <= i < |a| - 1 && a[1..][i] == c;
      assert a[i + 1] == c;
    }
  }

  /** The first channel is dispatched: what remains is still in order. */
  lemma TailActive(s: System, l: Loop, t: Task)
    requires Inv(s) && l in s.loops && s.loops[l].active != []
    ensures ActiveOk(SetTask(PopActive(s, l), l, t), l) && ActiveOk(PopActive(s, l), l)
    ensures s.loops[l].active[0] in s.conns && s.conns[s.loops[l].active[0]] == Info(l, Up)
    ensures s.loops[l].active[0] !in s.loops[l].active[1..]
  {
    assert LoopOk(s, l);
    var a := s.loops[l].active;
    assert a[0] in a;
    TailMembers(a);
  }

  /** The first channel is dispatched and the loop goes on to task `t`. */
  lemma DispatchInv(s: System, l: Loop, t: Task)
    requires Inv(s) && HasActive(s, l) && TaskOk(s, l, t)
    ensures Inv(SetTask(PopActive(s, l), l, t))
  {
    var ls := s.loops[l].(active := s.loops[l].active[1..], task := t);
    TailActive(s, l, t);
    assert SetTask(PopActive(s, l), l, t) == s.(loops := s.loops[l := ls]);
    TaskStepInv(s, l, ls);
  }

  lemma MessageInv(s: System, l: Loop)
    requires Inv(s) && HasActive(s, l)
    ensures Inv(PopActive(s, l))
  {
    DispatchInv(s, l, Idle);
    assert SetTask(PopActive(s, l), l, Idle) == PopActive(s, l);
  }

  lemma LoginMessageInv(s: System, l: Loop, name: Name)
    requires Inv(s) && Enabled(s, LoginMessage(l, name))
    ensures Inv(Next(s, LoginMessage(l, name)))
  {
    TailActive(s, l, Idle);
    DispatchInv(s, l, WantWalk(ThenTest(s.loops[l].active[0], name)));
  }

  lemma TestNameInv(s: System, l: Loop)
    requires Inv(s) && Enabled(s, TestName(l))
    ensures Inv(Next(s, TestName(l)))
  {
    assert LoopOk(s, l);
    TaskStepInv(s, l, Next(s, TestName(l)).loops[l]);
  }

  lemma PrivateMessageInv(s: System, l: Loop, dest: Name)
    requires Inv(s) && Enabled(s, PrivateMessage(l, dest))
    ensures Inv(Next(s, PrivateMessage(l, dest)))
  {
    if dest in s.nameConn {
      assert SetsOk(s, s.nameConn[dest]);
      DispatchInv(s, l, Found(s.nameConn[dest]));
    } else {
      MessageInv(s, l);
    }
  }

  lemma CheckPrivateInv(s: System, l: Loop, connected: bool)
    requires Inv(s) && Enabled(s, CheckPrivate(l, connected))
    ensures Inv(Next(s, CheckPrivate(l, connected)))
  {
    assert LoopOk(s, l);
    TaskStepInv(s, l, Next(s, CheckPrivate(l, connected)).loops[l]);
  }

  /** A private send is queued whatever has become of its connection since the look-up. */
  lemma PushPrivateInv(s: System, l: Loop)
    requires Inv(s) && Enabled(s, PushPrivate(l))
    ensures Inv(Next(s, PushPrivate(l)))
  {
    var d := TaskOf(s, l).c;
    assert LoopOk(s, l);
    assert Held(s, d);
    TaskStepInv(s, l, SetTask(s, l, Idle).loops[l]);
    EnqueueInv(SetTask(s, l, Idle), LoopFor(s, d), PrivateSend(d));
  }

  lemma StartWalkInv(s: System, l: Loop)
    requires Inv(s) && Enabled(s, StartWalk(l))
    ensures Inv(Next(s, StartWalk(l)))
  {
    assert LoopOk(s, l);
    TaskStepInv(s, l, Next(s, StartWalk(l)).loops[l]);
  }

  lemma CheckOneInv(s: System, l: Loop, d: Conn, connected: bool)
    requires Inv(s) && Enabled(s, CheckOne(l, d, connected))
    ensures Inv(Next(s, CheckOne(l, d, connected)))
  {
    assert LoopOk(s, l);
    TaskStepInv(s, l, Next(s, CheckOne(l, d, connected)).loops[l]);
  }

  lemma EndWalkInv(s: System, l: Loop)
    requires Inv(s) && Enabled(s, EndWalk(l))
    ensures Inv(Next(s, EndWalk(l)))
  {
    assert LoopOk(s, l);
    TaskStepInv(s, l, Next(s, EndWalk(l)).loops[l]);
  }

  lemma EndDispatchInv(s: System, l: Loop)
    requires Inv(s) && Enabled(s, EndDispatch(l))
    ensures Inv(Next(s, EndDispatch(l)))
  {
    assert LoopOk(s, l);
    TaskStepInv(s, l, Next(s, EndDispatch(l)).loops[l]);
  }

  /** A connection some walk may still send to is named, so it is up or still in its own exit. */
  lemma TodoIsNamed(s: System, l: Loop, d: Conn)
    requires Inv(s) && l in s.loops && TaskOf(s, l).Walk? && d in TaskOf(s, l).todo
    ensures d in s.conns && (StageOf(s, d) == Up || StageOf(s, d) == Closing) && s.conns[d].loop in s.loops
  {
    assert LoopOk(s, l);
    assert d in s.nameConn.Values;
    assert SetsOk(s, d);
    assert Held(s, d);
  }

  /** A send found its connection named under the lock: it may be queued, nothing ends it before. */
  lemma PushOneInv(s: System, l: Loop)
    requires Inv(s) && Enabled(s, PushOne(l))
    ensures Inv(Next(s, PushOne(l)))
  {
    var t := TaskOf(s, l);
    var d := t.sending.value;
    assert LoopOk(s, l);
    TodoIsNamed(s, l, d);
    var s1 := SetTask(s, l, t.(todo := t.todo - {d}, sending := None));
    TaskStepInv(s, l, s1.loops[l]);
    var k := s.conns[d].loop;
    assert LoopOk(s1, k);
    forall g | g in s1.loops[k].queue ensures MayPrecede(g, SendInLoop(d)) {
      assert FunctorOk(s1, k, g);
    }
    EnqueueInv(s1, k, SendInLoop(d));
  }

  // ---------------------------------------------------------------- the exclusive lock

  /** Names change under the exclusive lock: nobody walks, and no task minds. */
  lemma RenameLoop(s: System, r: System, l: Loop)
    requires l in s.loops && l in r.loops && LoopOk(s, l) && r.loops[l] == s.loops[l]
    requires r.conns == s.conns && !TaskOf(s, l).Walk?
    requires forall c :: Mentions(TaskOf(s, l), c) ==> (c in r.connName <==> c in s.connName)
    ensures LoopOk(r, l)
  {
  }

  lemma InsertNamesOk(s: System, c: Conn, name: Name)
    requires NamesOk(s) && c !in s.connName
    ensures NamesOk(s.(nameConn := s.nameConn[name := c], connName := s.connName[c := name]))
  {
  }

  lemma DoInsertLoops(s: System, r: System, l: Loop, c: Conn)
    requires Inv(s) && l in s.loops && TaskOf(s, l).Insert? && TaskOf(s, l).c == c && NobodyWalks(s)
    requires r.conns == s.conns && r.loops == s.loops[l := s.loops[l].(task := Idle)]
    requires r.connName.Keys == s.connName.Keys + {c}
    ensures forall k :: k in r.loops ==> LoopOk(r, k)
  {
    assert LoopOk(s, l);
    forall k | k in r.loops ensures LoopOk(r, k) {
      assert LoopOk(s, k);
      if k != l {
        RenameLoop(s, r, k);
      } else {
        assert ActiveOk(r, l) && QueueOk(r, l);
      }
    }
  }

  lemma DoInsertInv(s: System, l: Loop)
    requires Inv(s) && Enabled(s, DoInsert(l))
    ensures Inv(Next(s, DoInsert(l)))
  {
    var t, s1, r := TaskOf(s, l), SetTask(s, l, Idle), Next(s, DoInsert(l));
    assert LoopOk(s, l);
    InsertNamesOk(s, t.c, t.name);
    DoInsertLoops(s, r, l, t.c);
    OneLoopWorks(s, r, l, s1.loops[l]);
    ConnsStayInv(s, r);
  }

  lemma EraseNamesOk(s: System, c: Conn)
    requires NamesOk(s)
    ensures NamesOk(EraseName(s, c)) && c !in EraseName(s, c).connName
    ensures EraseName(s, c).connName.Keys == s.connName.Keys - {c}
  {
    var r := EraseName(s, c);
    forall n | n in r.nameConn ensures r.nameConn[n] in r.connName && r.connName[r.nameConn[n]] == n {
      assert n in s.nameConn && s.nameConn[n] in s.connName;
    }
  }

  lemma EraserLoop(s: System, r: System, l: Loop, c: Conn)
    requires l in s.loops && l in r.loops && LoopOk(s, l) && TaskOf(s, l) == Erase(c)
    requires r.loops[l] == s.loops[l].(task := CloseCb(c)) && r.conns == s.conns && c !in r.connName
    ensures LoopOk(r, l)
  {
  }

  lemma DoEraseLoops(s: System, r: System, l: Loop, c: Conn)
    requires Inv(s) && l in s.loops && TaskOf(s, l) == Erase(c) && NobodyWalks(s)
    requires r.conns == s.conns && r.loops == s.loops[l := s.loops[l].(task := CloseCb(c))]
    requires r.connName.Keys == s.connName.Keys - {c}
    ensures forall k :: k in r.loops ==> LoopOk(r, k)
  {
    assert LoopOk(s, l);
    forall k | k in r.loops ensures LoopOk(r, k) {
      assert LoopOk(s, k);
      if k != l {
        RenameLoop(s, r, k);
      } else {
        EraserLoop(s, r, l, c);
      }
    }
  }

  lemma EraseInv(s: System, l: Loop, c: Conn)
    requires Inv(s) && l in s.loops && TaskOf(s, l) == Erase(c) && NobodyWalks(s)
    ensures Inv(EraseName(SetTask(s, l, CloseCb(c)), c))
  {
    var s1 := SetTask(s, l, CloseCb(c));
    var r := EraseName(s1, c);
    EraseNamesOk(s1, c);
    DoEraseLoops(s, r, l, c);
    OneLoopWorks(s, r, l, s1.loops[l]);
    ConnsStayInv(s, r);
  }

  lemma DoEraseInv(s: System, l: Loop)
    requires Inv(s) && Enabled(s, DoErase(l))
    ensures Inv(Next(s, DoErase(l)))
  {
    EraseInv(s, l, TaskOf(s, l).c);
  }

  // ---------------------------------------------------------------- steps that move a connection on

  /** Every other connection keeps its functors and its exit. */
  ghost predicate KeepsOthers(s: System, r: System, c: Conn) {
    && r.loops.Keys == s.loops.Keys
    && (forall l, f :: l in s.loops && f in s.loops[l].queue && f.c != c && !IsSend(f) ==> f in r.loops[l].queue)
    && (forall l, d :: l in s.loops && d != c && Exits(TaskOf(s, l), d) ==> Exits(TaskOf(r, l), d))
    && SameBut(r.interest, s.interest, c) && SameBut(r.watched, s.watched, c)
    && SameBut(r.connections, s.connections, c)
  }

  ghost predicate SameBut(a: set<Conn>, b: set<Conn>, c: Conn) {
    forall d :: d != c ==> (d in a <==> d in b)
  }

  lemma OneLoopMoves(s: System, r: System, l: Loop, ls: LoopState, c: Conn, stage: Stage)
    requires c in s.conns && l in s.loops && r.loops == s.loops[l := ls] && stage != Fresh
    requires r.conns == s.conns[c := Info(s.conns[c].loop, stage)]
    requires forall f :: f in s.loops[l].queue && f.c != c && !IsSend(f) ==> f in ls.queue
    requires forall d :: d != c && Exits(TaskOf(s, l), d) ==> Exits(ls.task, d)
    requires SameBut(r.interest, s.interest, c) && SameBut(r.watched, s.watched, c)
    requires SameBut(r.connections, s.connections, c)
    ensures MovesOnly(s, r, c) && KeepsOthers(s, r, c)
  {
  }

  lemma MoveInv(s: System, r: System, c: Conn)
    requires Inv(s) && MovesOnly(s, r, c) && KeepsNames(s, r) && KeepsOthers(s, r, c)
    requires forall l :: l in r.loops ==> LoopOk(r, l)
    requires Held(r, c) && SetsOk(r, c)
    ensures Inv(r)
  {
    forall d | d in r.conns ensures Held(r, d) {
      if d != c {
        HeldStays(s, r, d);
      }
    }
    forall d ensures SetsOk(r, d) {
      if d != c {
        SetsStay(s, r, d);
      }
    }
  }

  lemma CloseLoop(s: System, r: System, l: Loop, c: Conn)
    requires l in s.loops && l in r.loops && LoopOk(s, l) && MovesOnly(s, r, c) && KeepsNames(s, r)
    requires s.conns[c] == Info(l, Up) && r.conns[c] == Info(l, Closing)
    requires r.loops[l].queue == s.loops[l].queue && r.loops[l].dispatching == s.loops[l].dispatching
    requires TaskOf(r, l) == WantWalk(ThenErase(c)) || TaskOf(r, l) == Erase(c)
    requires NoDup(r.loops[l].active) && r.loops[l].dispatching
    requires forall d :: d in r.loops[l].active ==> d in s.loops[l].active && d != c
    ensures LoopOk(r, l)
  {
    forall f | f in r.loops[l].queue ensures FunctorOk(r, l, f) {
      assert FunctorOk(s, l, f);
    }
  }

  lemma CloseOthers(s: System, l: Loop)
    requires Inv(s) && HasActive(s, l)
    ensures var c, r := s.loops[l].active[0], Next(s, Close(l));
            MovesOnly(s, r, c) && KeepsNames(s, r) && KeepsOthers(s, r, c)
  {
    TailActive(s, l, Idle);
    var c, r := s.loops[l].active[0], Next(s, Close(l));
    assert r.loops == s.loops[l := r.loops[l]];
    OneLoopMoves(s, r, l, r.loops[l], c, Closing);
  }

  lemma CloseHeld(s: System, l: Loop)
    requires Inv(s) && HasActive(s, l)
    ensures var c, r := s.loops[l].active[0], Next(s, Close(l));
            c in r.conns && Held(r, c) && SetsOk(r, c)
  {
    var c := s.loops[l].active[0];
    TailActive(s, l, Idle);
    assert SetsOk(s, c) && Held(s, c);
  }

  /** The loop that closes. */
  lemma CloseOwnLoop(s: System, l: Loop, c: Conn, r: System)
    requires Inv(s) && HasActive(s, l) && c == s.loops[l].active[0] && r == Next(s, Close(l))
    requires MovesOnly(s, r, c) && KeepsNames(s, r) && s.conns[c] == Info(l, Up)
    ensures LoopOk(r, l)
  {
    assert LoopOk(s, l);
    TailMembers(s.loops[l].active);
    CloseLoop(s, r, l, c);
  }

  /** The other loops. */
  lemma CloseOtherLoop(s: System, r: System, l: Loop, c: Conn, k: Loop)
    requires k in s.loops && k in r.loops && LoopOk(s, k) && k != l && r.loops[k] == s.loops[k]
    requires MovesOnly(s, r, c) && KeepsNames(s, r) && s.conns[c] == Info(l, Up)
    ensures LoopOk(r, k)
  {
    forall f | f in s.loops[k].queue ensures f.c == c ==> FunctorOk(r, k, f) {
      assert FunctorOk(s, k, f);
    }
    MentionsOwn(s, k, c);
    LoopStaysAway(s, r, k, c);
  }

  lemma CloseInv(s: System, l: Loop)
    requires Inv(s) && HasActive(s, l)
    ensures Inv(Next(s, Close(l)))
  {
    var c, r := s.loops[l].active[0], Next(s, Close(l));
    TailActive(s, l, Idle);
    CloseOthers(s, l);
    CloseHeld(s, l);
    forall k | k in r.loops ensures LoopOk(r, k) {
      if k == l {
        CloseOwnLoop(s, l, c, r);
      } else {
        CloseOtherLoop(s, r, l, c, k);
      }
    }
    MoveInv(s, r, c);
  }

  /** A connection on its way out, or not yet in, moves on; nothing else than loop `l` changes. */
  lemma MovedLoops(s: System, r: System, l: Loop, ls: LoopState, c: Conn, stage: Stage)
    requires Inv(s) && l in s.loops && c in s.conns && stage != Fresh
    requires StageOf(s, c) != Up && (StageOf(s, c) == Closing ==> Exits(TaskOf(s, l), c))
    requires r.loops == s.loops[l := ls] && ls.task == Idle && ls == s.loops[l].(queue := ls.queue, task := Idle)
    requires r.conns == s.conns[c := Info(s.conns[c].loop, stage)] && KeepsNames(s, r)
    requires Ordered(ls.queue) && forall f :: f in ls.queue ==> f in s.loops[l].queue
    requires forall k, f :: k in r.loops && f in r.loops[k].queue && f.c == c ==> FunctorOk(r, k, f)
    ensures forall k :: k in r.loops ==> LoopOk(r, k)
  {
    assert LoopOk(s, l);
    forall k | k in r.loops ensures LoopOk(r, k) {
      assert LoopOk(s, k);
      MentionsOwn(s, k, c);
      MentionsOwn(s, l, c);
      if k != l {
        LoopStaysAway(s, r, k, c);
      } else {
        MovedLoop(s, r, l, c);
      }
    }
  }

  lemma MovedLoop(s: System, r: System, l: Loop, c: Conn)
    requires l in s.loops && l in r.loops && LoopOk(s, l) && TaskOf(r, l) == Idle && MovesOnly(s, r, c)
    requires r.loops[l].active == s.loops[l].active && r.loops[l].dispatching == s.loops[l].dispatching
    requires StageOf(s, c) != Up
    requires Ordered(r.loops[l].queue) && forall f :: f in r.loops[l].queue ==> f in s.loops[l].queue
    requires forall f :: f in r.loops[l].queue && f.c == c ==> FunctorOk(r, l, f)
    ensures LoopOk(r, l)
  {
    forall f | f in r.loops[l].queue ensures FunctorOk(r, l, f) {
      assert FunctorOk(s, l, f);
    }
  }

  lemma EnqueueKeepsOthers(s: System, r: System, c: Conn, k: Loop, f: Functor)
    requires MovesOnly(s, r, c) && KeepsNames(s, r) && KeepsOthers(s, r, c) && k in r.loops
    ensures MovesOnly(s, Enqueue(r, k, f), c) && KeepsNames(s, Enqueue(r, k, f)) && KeepsOthers(s, Enqueue(r, k, f), c)
  {
  }

  lemma NewFunctorLoops(r: System, k: Loop, f: Functor)
    requires (forall l :: l in r.loops ==> LoopOk(r, l)) && k in r.loops && FunctorOk(r, k, f)
    requires (f.RemoveInLoop? || f.ConnectDestroyed?) && f !in r.loops[k].queue
    ensures forall l :: l in r.loops ==> LoopOk(Enqueue(r, k, f), l)
  {
    forall g | g in r.loops[k].queue ensures MayPrecede(g, f) {
      assert LoopOk(r, k) && FunctorOk(r, k, g);
    }
    EnqueuedLoops(r, k, f);
  }

  lemma NewFunctorHolds(r: System, c: Conn, k: Loop, f: Functor)
    requires k in r.loops && FunctorOk(r, k, f) && f.c == c && (f.RemoveInLoop? || f.ConnectDestroyed?)
    requires r.conns[c].loop in r.loops && 0 in r.loops && SetsOk(r, c)
    ensures Held(Enqueue(r, k, f), c) && SetsOk(Enqueue(r, k, f), c)
  {
    SetsStay(r, Enqueue(r, k, f), c);
    assert f in Enqueue(r, k, f).loops[k].queue;
  }

  /** A functor about the moving connection is queued last. */
  lemma MoveThenEnqueue(s: System, r: System, c: Conn, k: Loop, f: Functor)
    requires Inv(s) && MovesOnly(s, r, c) && KeepsNames(s, r) && KeepsOthers(s, r, c) && SetsOk(r, c)
    requires (forall l :: l in r.loops ==> LoopOk(r, l)) && k in r.loops && FunctorOk(r, k, f) && f.c == c
    requires f.RemoveInLoop? || f.ConnectDestroyed?
    requires f !in r.loops[k].queue && r.conns[c].loop in r.loops && 0 in r.loops
    ensures Inv(Enqueue(r, k, f))
  {
    NewFunctorLoops(r, k, f);
    NewFunctorHolds(r, c, k, f);
    EnqueueKeepsOthers(s, r, c, k, f);
    MoveInv(s, Enqueue(r, k, f), c);
  }

  lemma CloserIsClosing(s: System, l: Loop, c: Conn)
    requires Inv(s) && l in s.loops && TaskOf(s, l) == CloseCb(c)
    ensures c in s.conns && s.conns[c] == Info(l, Closing) && 0 in s.loops && SetsOk(s, c) && c !in s.connName
    ensures forall k, f :: k in s.loops && f in s.loops[k].queue && f.c == c ==> IsSend(f) && k == l
  {
    assert LoopOk(s, l) && SetsOk(s, c) && Held(s, c);
    forall k, f | k in s.loops && f in s.loops[k].queue && f.c == c ensures IsSend(f) && k == l {
      assert LoopOk(s, k) && FunctorOk(s, k, f);
    }
  }

  /** The state between the end of the close callback and the functor it queues. */
  ghost predicate AfterCloseCb(s: System, l: Loop, c: Conn, r: System, stage: Stage)
    requires l in s.loops
  {
    && (stage == Doomed || stage == Removing)
    && r == s.(conns := s.conns[c := Info(l, stage)], loops := s.loops[l := s.loops[l].(task := Idle)],
               connections := if stage == Doomed then s.connections - {c} else s.connections)
  }

  lemma DoCloseCbLoops(s: System, l: Loop, c: Conn, r: System, stage: Stage)
    requires Inv(s) && l in s.loops && TaskOf(s, l) == CloseCb(c) && AfterCloseCb(s, l, c, r, stage)
    ensures forall k :: k in r.loops ==> LoopOk(r, k)
  {
    CloserIsClosing(s, l, c);
    assert LoopOk(s, l);
    MovedLoops(s, r, l, r.loops[l], c, stage);
  }

  lemma DoCloseCbMoves(s: System, l: Loop, c: Conn, r: System, stage: Stage)
    requires Inv(s) && l in s.loops && TaskOf(s, l) == CloseCb(c) && AfterCloseCb(s, l, c, r, stage)
    ensures c in s.conns && s.conns[c] == Info(l, Closing) && 0 in s.loops
    ensures MovesOnly(s, r, c) && KeepsOthers(s, r, c) && SetsOk(r, c)
    ensures forall k, f :: k in r.loops && f in r.loops[k].queue && f.c == c ==> IsSend(f)
  {
    CloserIsClosing(s, l, c);
    OneLoopMoves(s, r, l, r.loops[l], c, stage);
  }

  /** On the main loop the close callback removes at once. */
  lemma CloseCbHere(s: System, c: Conn)
    requires Inv(s) && 0 in s.loops && TaskOf(s, 0) == CloseCb(c)
    ensures Inv(Remove(SetTask(s, 0, Idle), c))
  {
    var r := Unlisted(SetTask(s, 0, Idle), c);
    CloserIsClosing(s, 0, c);
    DoCloseCbMoves(s, 0, c, r, Doomed);
    DoCloseCbLoops(s, 0, c, r, Doomed);
    MoveThenEnqueue(s, r, c, 0, ConnectDestroyed(c));
  }

  /** Elsewhere it queues the removal on the main loop. */
  lemma CloseCbElsewhere(s: System, l: Loop, c: Conn)
    requires Inv(s) && l in s.loops && TaskOf(s, l) == CloseCb(c)
    ensures Inv(Enqueue(SetStage(SetTask(s, l, Idle), c, Removing), 0, RemoveInLoop(c)))
  {
    var r := SetStage(SetTask(s, l, Idle), c, Removing);
    CloserIsClosing(s, l, c);
    DoCloseCbMoves(s, l, c, r, Removing);
    DoCloseCbLoops(s, l, c, r, Removing);
    MoveThenEnqueue(s, r, c, 0, RemoveInLoop(c));
  }

  lemma DoCloseCbInv(s: System, l: Loop)
    requires Inv(s) && Enabled(s, DoCloseCb(l))
    ensures Inv(Next(s, DoCloseCb(l)))
  {
    if l == 0 {
      CloseCbHere(s, TaskOf(s, l).c);
    } else {
      CloseCbElsewhere(s, l, TaskOf(s, l).c);
    }
  }

  /** The head of the queue is gone: nothing of its connection but sends is left anywhere. */
  lemma HeadWasLast(s: System, l: Loop, f: Functor)
    requires Inv(s) && l in s.loops && s.loops[l].queue != [] && f == s.loops[l].queue[0] && !IsSend(f)
    ensures FunctorOk(s, l, f)
    ensures forall k, g :: k in s.loops && g in PopQueue(s, l).loops[k].queue && g.c == f.c ==>
              FunctorOk(s, k, g) && IsSend(g) && (g.SendInLoop? ==> f.RemoveInLoop?)
    ensures Ordered(s.loops[l].queue[1..]) && forall g :: g in s.loops[l].queue[1..] ==> g in s.loops[l].queue
  {
    assert LoopOk(s, l) && f in s.loops[l].queue && FunctorOk(s, l, f);
    TailOrdered(s.loops[l].queue);
    forall k, g | k in s.loops && g in PopQueue(s, l).loops[k].queue && g.c == f.c
      ensures FunctorOk(s, k, g) && IsSend(g) && (g.SendInLoop? ==> f.RemoveInLoop?)
    {
      assert LoopOk(s, k) && FunctorOk(s, k, g);
    }
  }

  /** The head functor takes its connection on to `stage`. */
  ghost predicate HeadTakes(s: System, l: Loop, f: Functor, r: System, stage: Stage) {
    && Enabled(s, RunFunctor(l)) && s.loops[l].queue[0] == f && !IsSend(f)
    && stage != Fresh && (f.RemoveInLoop? ==> stage == Doomed)
    && f.c in s.conns && r.conns == s.conns[f.c := Info(s.conns[f.c].loop, stage)] && KeepsNames(s, r)
    && r.loops == PopQueue(s, l).loops && SameBut(r.interest, s.interest, f.c)
    && SameBut(r.watched, s.watched, f.c) && SameBut(r.connections, s.connections, f.c)
  }

  lemma HeadOthers(s: System, l: Loop, f: Functor, r: System, stage: Stage)
    requires Inv(s) && HeadTakes(s, l, f, r, stage)
    ensures MovesOnly(s, r, f.c) && KeepsOthers(s, r, f.c)
  {
    HeadWasLast(s, l, f);
    OneLoopMoves(s, r, l, r.loops[l], f.c, stage);
  }

  lemma HeadLeavesSends(s: System, l: Loop, f: Functor, r: System, stage: Stage)
    requires Inv(s) && HeadTakes(s, l, f, r, stage)
    ensures forall k, g :: k in r.loops && g in r.loops[k].queue && g.c == f.c ==> IsSend(g) && FunctorOk(r, k, g)
  {
    HeadWasLast(s, l, f);
    forall k, g | k in r.loops && g in r.loops[k].queue && g.c == f.c ensures IsSend(g) && FunctorOk(r, k, g) {
      assert g in PopQueue(s, l).loops[k].queue;
    }
  }

  lemma HeadLoops(s: System, l: Loop, f: Functor, r: System, stage: Stage)
    requires Inv(s) && HeadTakes(s, l, f, r, stage)
    ensures forall k :: k in r.loops ==> LoopOk(r, k)
  {
    HeadWasLast(s, l, f);
    HeadLeavesSends(s, l, f, r, stage);
    MovedLoops(s, r, l, r.loops[l], f.c, stage);
  }

  lemma HeadMoves(s: System, l: Loop, f: Functor, r: System, stage: Stage)
    requires Inv(s) && HeadTakes(s, l, f, r, stage)
    ensures MovesOnly(s, r, f.c) && KeepsOthers(s, r, f.c)
    ensures forall k :: k in r.loops ==> LoopOk(r, k)
  {
    HeadOthers(s, l, f, r, stage);
    HeadLoops(s, l, f, r, stage);
  }

  lemma HeadHeld(s: System, l: Loop, f: Functor)
    requires Inv(s) && Enabled(s, RunFunctor(l)) && s.loops[l].queue[0] == f
    ensures FunctorOk(s, l, f) && Held(s, f.c) && SetsOk(s, f.c)
  {
    assert LoopOk(s, l) && f in s.loops[l].queue;
  }

  lemma RunEstablishedInv(s: System, l: Loop, c: Conn)
    requires Inv(s) && Enabled(s, RunFunctor(l)) && s.loops[l].queue[0] == Established(c)
    ensures Inv(Establish(PopQueue(s, l), c))
  {
    HeadHeld(s, l, Established(c));
    var r := Establish(PopQueue(s, l), c);
    HeadMoves(s, l, Established(c), r, Up);
    assert Held(r, c) && SetsOk(r, c);
    MoveInv(s, r, c);
  }

  lemma RunDestroyedInv(s: System, l: Loop, c: Conn)
    requires Inv(s) && Enabled(s, RunFunctor(l)) && s.loops[l].queue[0] == ConnectDestroyed(c)
    ensures Inv(Destroy(PopQueue(s, l), c))
  {
    HeadHeld(s, l, ConnectDestroyed(c));
    var r := Destroy(PopQueue(s, l), c);
    HeadMoves(s, l, ConnectDestroyed(c), r, Destroyed);
    assert Held(r, c) && SetsOk(r, c);
    MoveInv(s, r, c);
  }

  lemma RemovedTakes(s: System, l: Loop, c: Conn)
    requires Inv(s) && Enabled(s, RunFunctor(l)) && s.loops[l].queue[0] == RemoveInLoop(c)
    ensures HeadTakes(s, l, RemoveInLoop(c), Unlisted(PopQueue(s, l), c), Doomed)
  {
    HeadHeld(s, l, RemoveInLoop(c));
  }

  lemma RemovedOk(s: System, l: Loop, c: Conn)
    requires Inv(s) && Enabled(s, RunFunctor(l)) && s.loops[l].queue[0] == RemoveInLoop(c)
    ensures var r := Unlisted(PopQueue(s, l), c);
      && c in s.conns && r.conns[c] == Info(s.conns[c].loop, Doomed)
      && s.conns[c].loop in r.loops && 0 in r.loops && SetsOk(r, c) && KeepsNames(s, r)
  {
    HeadHeld(s, l, RemoveInLoop(c));
  }

  lemma RemovedMoves(s: System, l: Loop, c: Conn)
    requires Inv(s) && Enabled(s, RunFunctor(l)) && s.loops[l].queue[0] == RemoveInLoop(c)
    ensures MovesOnly(s, Unlisted(PopQueue(s, l), c), c) && KeepsOthers(s, Unlisted(PopQueue(s, l), c), c)
    ensures forall k :: k in Unlisted(PopQueue(s, l), c).loops ==> LoopOk(Unlisted(PopQueue(s, l), c), k)
  {
    RemovedTakes(s, l, c);
    HeadMoves(s, l, RemoveInLoop(c), Unlisted(PopQueue(s, l), c), Doomed);
  }

  lemma RemovedUnqueued(s: System, l: Loop, c: Conn)
    requires Inv(s) && Enabled(s, RunFunctor(l)) && s.loops[l].queue[0] == RemoveInLoop(c)
    ensures var r := Unlisted(PopQueue(s, l), c); forall k :: k in r.loops ==> ConnectDestroyed(c) !in r.loops[k].queue
  {
    HeadWasLast(s, l, RemoveInLoop(c));
    assert Unlisted(PopQueue(s, l), c).loops == PopQueue(s, l).loops;
  }

  lemma RunRemoveInv(s: System, l: Loop, c: Conn)
    requires Inv(s) && Enabled(s, RunFunctor(l)) && s.loops[l].queue[0] == RemoveInLoop(c)
    ensures Inv(Remove(PopQueue(s, l), c))
  {
    RemovedOk(s, l, c);
    RemovedMoves(s, l, c);
    RemovedUnqueued(s, l, c);
    MoveThenEnqueue(s, Unlisted(PopQueue(s, l), c), c, LoopFor(s, c), ConnectDestroyed(c));
  }

  lemma PoppedLoop(s: System, l: Loop)
    requires l in s.loops && LoopOk(s, l) && s.loops[l].queue != []
    ensures LoopOk(PopQueue(s, l), l)
  {
    TailOrdered(s.loops[l].queue);
    assert ActiveOk(PopQueue(s, l), l);
  }

  lemma RunSendInv(s: System, l: Loop)
    requires Inv(s) && Enabled(s, RunFunctor(l)) && IsSend(s.loops[l].queue[0])
    ensures Inv(PopQueue(s, l))
  {
    var r := PopQueue(s, l);
    forall k | k in r.loops ensures LoopOk(r, k) {
      assert LoopOk(s, k);
      if k != l {
        LoopStays(s, r, k);
      } else {
        PoppedLoop(s, l);
      }
    }
    OneLoopWorks(s, r, l, r.loops[l]);
    ConnsStayInv(s, r);
  }

  /** A new connection: established at once on the main loop, by a functor elsewhere. */
  lemma AcceptLoops(s: System, r: System, c: Conn, io: Loop)
    requires Inv(s) && c !in s.conns && io in s.loops && KeepsNames(s, r)
    requires (r.conns == s.conns[c := Info(io, Fresh)] && r.loops == Enqueue(s, io, Established(c)).loops)
          || (r.conns == s.conns[c := Info(io, Up)] && r.loops == s.loops)
    ensures forall k :: k in r.loops ==> LoopOk(r, k)
  {
    forall k | k in r.loops ensures LoopOk(r, k) {
      assert LoopOk(s, k);
      var s1 := r.(loops := s.loops);
      LoopStays(s, s1, k);
      if r.loops[k] == s.loops[k] {
        LoopStays(s1, r, k);
      } else {
        forall g | g in s.loops[k].queue ensures MayPrecede(g, Established(c)) {
          assert FunctorOk(s, k, g);
        }
        EnqueuedLoop(s1, r, k, Established(c));
      }
    }
  }

  lemma AcceptSets(s: System, c: Conn, io: Loop)
    requires Inv(s) && Enabled(s, Accept(c, io))
    ensures forall d :: SetsOk(Next(s, Accept(c, io)), d)
  {
    var r := Next(s, Accept(c, io));
    forall d ensures SetsOk(r, d) {
      assert SetsOk(s, d);
      if d != c {
        SetsStay(s, r, d);
      }
    }
  }

  lemma AcceptHeld(s: System, c: Conn, io: Loop)
    requires Inv(s) && Enabled(s, Accept(c, io))
    ensures forall d :: d in Next(s, Accept(c, io)).conns ==> Held(Next(s, Accept(c, io)), d)
  {
    var r := Next(s, Accept(c, io));
    forall d | d in r.conns ensures Held(r, d) {
      if d != c {
        HeldStays(s, r, d);
      }
    }
  }

  lemma AcceptInv(s: System, c: Conn, io: Loop)
    requires Inv(s) && Enabled(s, Accept(c, io))
    ensures Inv(Next(s, Accept(c, io)))
  {
    AcceptLoops(s, Next(s, Accept(c, io)), c, io);
    AcceptHeld(s, c, io);
    AcceptSets(s, c, io);
  }

  lemma RunInv(s: System, l: Loop)
    requires Inv(s) && Enabled(s, RunFunctor(l))
    ensures Inv(RunHead(s, l))
  {
    match s.loops[l].queue[0]
    case Established(c) => RunEstablishedInv(s, l, c);
    case SendInLoop(c) => RunSendInv(s, l);
    case PrivateSend(c) => RunSendInv(s, l);
    case RemoveInLoop(c) => RunRemoveInv(s, l, c);
    case ConnectDestroyed(c) => RunDestroyedInv(s, l, c);
  }

  /** The steps of a loop thread that hold, wait for or test what the lock guards. */
  lemma LockStepInv(s: System, step: Step)
    requires Inv(s) && Enabled(s, step)
    requires step.StartWalk? || step.CheckOne? || step.PushOne? || step.EndWalk? || step.DoInsert? || step.DoErase?
    ensures Inv(Next(s, step))
  {
    match step
    case StartWalk(l) => StartWalkInv(s, l);
    case CheckOne(l, d, connected) => CheckOneInv(s, l, d, connected);
    case PushOne(l) => PushOneInv(s, l);
    case EndWalk(l) => EndWalkInv(s, l);
    case DoInsert(l) => DoInsertInv(s, l);
    case DoErase(l) => DoEraseInv(s, l);
  }

  /** The steps that handle a message. */
  lemma MessageStepInv(s: System, step: Step)
    requires Inv(s) && Enabled(s, step)
    requires step.Message? || step.PrivateMessage? || step.CheckPrivate? || step.PushPrivate? || step.GroupMessage?
          || step.LoginMessage? || step.TestName?
    ensures Inv(Next(s, step))
  {
    match step
    case Message(l) => MessageInv(s, l);
    case PrivateMessage(l, dest) => PrivateMessageInv(s, l, dest);
    case CheckPrivate(l, connected) => CheckPrivateInv(s, l, connected);
    case PushPrivate(l) => PushPrivateInv(s, l);
    case GroupMessage(l) => DispatchInv(s, l, WantWalk(Nothing));
    case LoginMessage(l, name) => LoginMessageInv(s, l, name);
    case TestName(l) => TestNameInv(s, l);
  }

  /** The steps of a loop between messages. */
  lemma LoopStepInv(s: System, step: Step)
    requires Inv(s) && Enabled(s, step)
    requires step.Poll? || step.Close? || step.DoCloseCb? || step.EndDispatch? || step.RunFunctor?
    ensures Inv(Next(s, step))
  {
    match step
    case Poll(l, ready) => PollInv(s, l, ready);
    case Close(l) => CloseInv(s, l);
    case DoCloseCb(l) => DoCloseCbInv(s, l);
    case EndDispatch(l) => EndDispatchInv(s, l);
    case RunFunctor(l) => RunInv(s, l);
  }

  lemma StepInv(s: System, step: Step)
    requires Inv(s) && Enabled(s, step)
    ensures Inv(Next(s, step))
  {
    if step.Accept? {
      AcceptInv(s, step.c, step.io);
    } else if step.Poll? || step.Close? || step.DoCloseCb? || step.EndDispatch? || step.RunFunctor? {
      LoopStepInv(s, step);
    } else if step.StartWalk? || step.CheckOne? || step.PushOne? || step.EndWalk? || step.DoInsert? || step.DoErase? {
      LockStepInv(s, step);
    } else {
      MessageStepInv(s, step);
    }
  }
}
