/**
 * Connections, loops and the chat server's lock, step by step: which callbacks and queued functors may still touch a
 * connection while it is closed on its io loop, removed on the main loop and destroyed on its io loop again.
 * Loop 0 is the main loop. Taking the shared lock, every send under it and releasing it are steps of their own; what
 * is done under the exclusive lock is one step, enabled while nobody holds the shared one.
 */
module LifecycleSpec {
  import opened Bytes

  type Conn = nat
  type Loop = nat

  /**
   * `Fresh`: accepted, ConnectionEstablished to come. `Up`: established, not closed. `Closing`: in HandleClose.
   * `Removing`: RemoveConnectionInLoop to come. `Doomed`: ConnectDestroyed to come. `Destroyed`: it has run.
   */
  datatype Stage = Fresh | Up | Closing | Removing | Doomed | Destroyed

  /** `SendInLoop`: queued by a broadcast. `PrivateSend`: the same functor queued by a private message, without lock. */
  datatype Functor =
    | Established(c: Conn)
    | SendInLoop(c: Conn)
    | PrivateSend(c: Conn)
    | RemoveInLoop(c: Conn)
    | ConnectDestroyed(c: Conn)

  predicate IsSend(f: Functor) {
    f.SendInLoop? || f.PrivateSend?
  }

  /**
   * What follows a walk over the names: nothing, the test of a login's name after its roster was collected, the
   * insertion of a login after it was announced, the erasure of an exit.
   */
  datatype Then = Nothing | ThenTest(c: Conn, name: Name) | ThenInsert(c: Conn, name: Name) | ThenErase(c: Conn)

  /**
   * What the loop's thread is in the middle of. `Walk`: holding the shared lock, `todo` not yet sent to, `sending`
   * found connected and about to be pushed. `Test`: about to look the name up, without lock. `Insert`, `Erase`:
   * waiting for the exclusive lock. `Found`, `Pushing`: a private message, its destination looked up, then found
   * connected. `CloseCb`: the down callback is over, the close callback next.
   */
  datatype Task =
    | Idle
    | WantWalk(next: Then)
    | Walk(next: Then, todo: set<Conn>, sending: Option<Conn>)
    | Test(c: Conn, name: Name)
    | Insert(c: Conn, name: Name)
    | Erase(c: Conn)
    | Found(c: Conn)
    | Pushing(c: Conn)
    | CloseCb(c: Conn)

  /** `active`: the channels of connections epoll_wait reported and not yet dispatched. */
  datatype LoopState = LoopState(queue: seq<Functor>, dispatching: bool, active: seq<Conn>, task: Task)

  datatype Info = Info(loop: Loop, stage: Stage)

  /**
   * `connections`: the server's map. `watched`: the channels in the pollers' maps. `interest`: those the kernel
   * watches. `nameConn`, `connName`: the chat server's maps, the second without its empty names.
   */
  datatype System = System(
    conns: map<Conn, Info>, loops: map<Loop, LoopState>,
    connections: set<Conn>, watched: set<Conn>, interest: set<Conn>,
    nameConn: map<Name, Conn>, connName: map<Conn, Name>)

  datatype Step =
    | Accept(c: Conn, io: Loop)
    | Poll(l: Loop, ready: seq<Conn>)
    | Message(l: Loop)                    // unknown or partial
    | PrivateMessage(l: Loop, dest: Name)
    | CheckPrivate(l: Loop, connected: bool)
    | PushPrivate(l: Loop)
    | GroupMessage(l: Loop)
    | LoginMessage(l: Loop, name: Name)
    | TestName(l: Loop)
    | Close(l: Loop)                      // end of file or hang-up
    | StartWalk(l: Loop)
    | CheckOne(l: Loop, d: Conn, connected: bool)
    | PushOne(l: Loop)
    | EndWalk(l: Loop)
    | DoInsert(l: Loop)
    | DoErase(l: Loop)
    | DoCloseCb(l: Loop)
    | EndDispatch(l: Loop)
    | RunFunctor(l: Loop)

  function StageOf(s: System, c: Conn): Stage
    requires c in s.conns
  {
    s.conns[c].stage
  }

  /** A kConnected connection is up; one that was shut down may be up without being kConnected. */
  predicate IsUp(s: System, c: Conn) {
    c in s.conns && StageOf(s, c) == Up
  }

  function TaskOf(s: System, l: Loop): Task
    requires l in s.loops
  {
    s.loops[l].task
  }

  ghost predicate NobodyWalks(s: System) {
    forall l :: l in s.loops ==> !TaskOf(s, l).Walk?
  }

  /** An idle loop thread with a channel to dispatch. */
  ghost predicate HasActive(s: System, l: Loop) {
    l in s.loops && TaskOf(s, l).Idle? && s.loops[l].active != []
  }

  ghost predicate Enabled(s: System, step: Step) {
    match step
    case Accept(c, io) =>
      0 in s.loops && TaskOf(s, 0).Idle? && s.loops[0].dispatching && c !in s.conns && io in s.loops
    case Poll(l, ready) =>
      && l in s.loops && TaskOf(s, l).Idle? && !s.loops[l].dispatching && NoDup(ready)
      && (forall c :: c in ready ==> c in s.interest && c in s.conns && s.conns[c].loop == l)
    case Message(l) => HasActive(s, l)
    case PrivateMessage(l, dest) => HasActive(s, l) && s.loops[l].active[0] in s.connName
    case CheckPrivate(l, connected) =>
      l in s.loops && TaskOf(s, l).Found? && (connected ==> IsUp(s, TaskOf(s, l).c))
    case PushPrivate(l) => l in s.loops && TaskOf(s, l).Pushing?
    case GroupMessage(l) => HasActive(s, l) && s.loops[l].active[0] in s.connName
    case TestName(l) => l in s.loops && TaskOf(s, l).Test?
    case LoginMessage(l, name) => HasActive(s, l) && s.loops[l].active[0] !in s.connName && name != []
    case Close(l) => HasActive(s, l)
    case StartWalk(l) => l in s.loops && TaskOf(s, l).WantWalk?
    case CheckOne(l, d, connected) =>
      && l in s.loops && TaskOf(s, l).Walk? && TaskOf(s, l).sending == None && d in TaskOf(s, l).todo
      && (connected ==> IsUp(s, d))
    case PushOne(l) => l in s.loops && TaskOf(s, l).Walk? && TaskOf(s, l).sending.Some?
    case EndWalk(l) => l in s.loops && TaskOf(s, l).Walk? && TaskOf(s, l).todo == {}
    case DoInsert(l) => l in s.loops && TaskOf(s, l).Insert? && NobodyWalks(s)
    case DoErase(l) => l in s.loops && TaskOf(s, l).Erase? && NobodyWalks(s)
    case DoCloseCb(l) => l in s.loops && TaskOf(s, l).CloseCb?
    case EndDispatch(l) => l in s.loops && TaskOf(s, l).Idle? && s.loops[l].dispatching && s.loops[l].active == []
    case RunFunctor(l) => l in s.loops && TaskOf(s, l).Idle? && !s.loops[l].dispatching && s.loops[l].queue != []
  }

  // ---------------------------------------------------------------- small updates

  function SetTask(s: System, l: Loop, t: Task): System
    requires l in s.loops
  {
    s.(loops := s.loops[l := s.loops[l].(task := t)])
  }

  function LoopFor(s: System, c: Conn): Loop {
    if c in s.conns then s.conns[c].loop else 0
  }

  function SetStage(s: System, c: Conn, stage: Stage): System {
    s.(conns := s.conns[c := Info(LoopFor(s, c), stage)])
  }

  function Enqueue(s: System, l: Loop, f: Functor): System {
    if l !in s.loops then s
    else s.(loops := s.loops[l := s.loops[l].(queue := s.loops[l].queue + [f])])
  }

  function PopQueue(s: System, l: Loop): System
    requires l in s.loops && s.loops[l].queue != []
  {
    s.(loops := s.loops[l := s.loops[l].(queue := s.loops[l].queue[1..])])
  }

  function PopActive(s: System, l: Loop): System
    requires l in s.loops && s.loops[l].active != []
  {
    s.(loops := s.loops[l := s.loops[l].(active := s.loops[l].active[1..])])
  }

  /** ConnectionEstablished: the channel is registered, the up callback made. */
  function Establish(s: System, c: Conn): System {
    SetStage(s, c, Up).(watched := s.watched + {c}, interest := s.interest + {c})
  }

  /** Out of the server's map. */
  function Unlisted(s: System, c: Conn): System {
    SetStage(s, c, Doomed).(connections := s.connections - {c})
  }

  /** RemoveConnectionInLoop: out of the server's map, and back to the io loop. */
  function Remove(s: System, c: Conn): System {
    Enqueue(Unlisted(s, c), LoopFor(s, c), ConnectDestroyed(c))
  }

  /** ConnectDestroyed: the channel leaves its poller. */
  function Destroy(s: System, c: Conn): System {
    SetStage(s, c, Destroyed).(watched := s.watched - {c})
  }

  /** HandleClose: the kernel forgets the channel; a connection with a name says goodbye first. */
  function BeginClose(s: System, l: Loop, c: Conn): System
    requires l in s.loops
  {
    SetTask(SetStage(s, c, Closing).(interest := s.interest - {c}), l,
            if c in s.connName then WantWalk(ThenErase(c)) else Erase(c))
  }

  /** UserExit under the exclusive lock. */
  function EraseName(s: System, c: Conn): System {
    if c in s.connName then s.(nameConn := s.nameConn - {s.connName[c]}, connName := s.connName - {c}) else s
  }

  /** The connections a walk sends to: all with a name, but the one it is about; the collection of names sends none. */
  function Targets(s: System, next: Then): set<Conn> {
    match next
    case Nothing => s.nameConn.Values
    case ThenTest(_, _) => {}
    case _ => s.nameConn.Values - {next.c}
  }

  function AfterWalk(next: Then): Task {
    match next
    case Nothing => Idle
    case ThenTest(c, name) => Test(c, name)
    case ThenInsert(c, name) => Insert(c, name)
    case ThenErase(c) => Erase(c)
  }

  /** The functor at the head of the queue runs. */
  function RunHead(s: System, l: Loop): System
    requires l in s.loops && s.loops[l].queue != []
  {
    match s.loops[l].queue[0]
    case Established(c) => Establish(PopQueue(s, l), c)
    case SendInLoop(c) => PopQueue(s, l)
    case PrivateSend(c) => PopQueue(s, l)
    case RemoveInLoop(c) => Remove(PopQueue(s, l), c)
    case ConnectDestroyed(c) => Destroy(PopQueue(s, l), c)
  }

  function Next(s: System, step: Step): System
    requires Enabled(s, step)
  {
    match step
    case Accept(c, io) =>
      var t := s.(conns := s.conns[c := Info(io, Fresh)], connections := s.connections + {c});
      if io == 0 then Establish(t, c) else Enqueue(t, io, Established(c))
    case Poll(l, ready) => s.(loops := s.loops[l := s.loops[l].(dispatching := true, active := ready)])
    case Message(l) => PopActive(s, l)
    case GroupMessage(l) => SetTask(PopActive(s, l), l, WantWalk(Nothing))
    case PrivateMessage(l, dest) =>
      if dest in s.nameConn then SetTask(PopActive(s, l), l, Found(s.nameConn[dest])) else PopActive(s, l)
    case CheckPrivate(l, connected) =>
      var d := TaskOf(s, l).c;
      SetTask(s, l, if connected && LoopFor(s, d) != l then Pushing(d) else Idle)    // or SendInLoop at once
    case PushPrivate(l) =>
      var d := TaskOf(s, l).c;
      Enqueue(SetTask(s, l, Idle), LoopFor(s, d), PrivateSend(d))
    case LoginMessage(l, name) => SetTask(PopActive(s, l), l, WantWalk(ThenTest(s.loops[l].active[0], name)))
    case TestName(l) =>
      var t := TaskOf(s, l);
      SetTask(s, l, if t.name in s.nameConn then Idle else WantWalk(ThenInsert(t.c, t.name)))    // taken: shut down
    case Close(l) => BeginClose(PopActive(s, l), l, s.loops[l].active[0])
    case StartWalk(l) =>
      var next := TaskOf(s, l).next;
      SetTask(s, l, Walk(next, Targets(s, next), None))
    case CheckOne(l, d, connected) =>
      var t := TaskOf(s, l);
      if connected && LoopFor(s, d) != l then SetTask(s, l, t.(sending := Some(d)))
      else SetTask(s, l, t.(todo := t.todo - {d}))    // not connected, or SendInLoop at once
    case PushOne(l) =>
      var t := TaskOf(s, l);
      var d := t.sending.value;
      Enqueue(SetTask(s, l, t.(todo := t.todo - {d}, sending := None)), LoopFor(s, d), SendInLoop(d))
    case EndWalk(l) => SetTask(s, l, AfterWalk(TaskOf(s, l).next))
    case DoInsert(l) =>
      var t := TaskOf(s, l);
      SetTask(s, l, Idle).(nameConn := s.nameConn[t.name := t.c], connName := s.connName[t.c := t.name])
    case DoErase(l) => EraseName(SetTask(s, l, CloseCb(TaskOf(s, l).c)), TaskOf(s, l).c)
    case DoCloseCb(l) =>
      var c := TaskOf(s, l).c;
      if l == 0 then Remove(SetTask(s, l, Idle), c)
      else Enqueue(SetStage(SetTask(s, l, Idle), c, Removing), 0, RemoveInLoop(c))
    case EndDispatch(l) => s.(loops := s.loops[l := s.loops[l].(dispatching := false)])
    case RunFunctor(l) => RunHead(s, l)
  }
}
