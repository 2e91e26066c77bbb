/** What holds over every run of the machine of LifecycleSpec. */
module Lifecycle {
  import opened Bytes
  import opened LifecycleSpec
  import opened LifecycleProofs

  /** Nothing accepted yet: the threads idle at their polls. */
  ghost predicate Start(s: System) {
    && 0 in s.loops && (forall l :: l in s.loops ==> s.loops[l] == LoopState([], false, [], Idle))
    && s.conns == map[] && s.connections == {} && s.watched == {} && s.interest == {}
    && s.nameConn == map[] && s.connName == map[]
  }

  ghost predicate IsRun(states: seq<System>, steps: seq<Step>) {
    && |states| == |steps| + 1 && Start(states[0])
    && (forall i {:trigger steps[i]} :: 0 <= i < |steps| ==>
          Enabled(states[i], steps[i]) && states[i + 1] == Next(states[i], steps[i]))
  }

  lemma StartInv(s: System)
    requires Start(s)
    ensures Inv(s)
  {
  }

  /** The invariant holds in every state of every run. */
  lemma {:induction false} Reachable(states: seq<System>, steps: seq<Step>, i: nat)
    requires IsRun(states, steps) && i < |states|
    ensures Inv(states[i])
  {
    if i == 0 {
      StartInv(states[0]);
    } else {
      Reachable(states, steps, i - 1);
      StepInv(states[i - 1], steps[i - 1]);
    }
  }

  function Rank(stage: Stage): nat {
    match stage
    case Fresh => 0
    case Up => 1
    case Closing => 2
    case Removing => 3
    case Doomed => 4
    case Destroyed => 5
  }

  /** A connection's stage never goes back, and its loop never changes. */
  ghost predicate Onward(s: System, r: System, c: Conn) {
    c in s.conns ==>
      c in r.conns && Rank(StageOf(s, c)) <= Rank(StageOf(r, c)) && r.conns[c].loop == s.conns[c].loop
  }

  /** One connection moves on, the others stay. */
  lemma OneOnward(s: System, r: System, d: Conn, stage: Stage, c: Conn)
    requires d in s.conns && r.conns == s.conns[d := Info(s.conns[d].loop, stage)]
    requires Rank(StageOf(s, d)) <= Rank(stage)
    ensures Onward(s, r, c)
  {
  }

  lemma FunctorOnward(s: System, l: Loop, c: Conn)
    requires l in s.loops && s.loops[l].queue != [] && FunctorOk(s, l, s.loops[l].queue[0])
    ensures Onward(s, RunHead(s, l), c)
  {
    var r := RunHead(s, l);
    match s.loops[l].queue[0]
    case Established(d) => OneOnward(s, r, d, Up, c);
    case SendInLoop(_) =>
    case PrivateSend(_) =>
    case RemoveInLoop(d) => OneOnward(s, r, d, Doomed, c);
    case ConnectDestroyed(d) => OneOnward(s, r, d, Destroyed, c);
  }

  lemma CloseOnward(s: System, l: Loop, c: Conn)
    requires HasActive(s, l) && ActiveOk(s, l)
    ensures Onward(s, Next(s, Close(l)), c)
  {
    assert s.loops[l].active[0] in s.loops[l].active;
    OneOnward(s, Next(s, Close(l)), s.loops[l].active[0], Closing, c);
  }

  lemma CloseCbOnward(s: System, l: Loop, c: Conn)
    requires Enabled(s, DoCloseCb(l)) && TaskOk(s, l, TaskOf(s, l))
    ensures Onward(s, Next(s, DoCloseCb(l)), c)
  {
    OneOnward(s, Next(s, DoCloseCb(l)), TaskOf(s, l).c, if l == 0 then Doomed else Removing, c);
  }

  /** All other steps leave the connections as they are; an accept adds one. */
  lemma ConnsStay(s: System, step: Step)
    requires Enabled(s, step) && !step.Close? && !step.DoCloseCb? && !step.RunFunctor?
    ensures if step.Accept? then KeepsConns(s, Next(s, step)) else Next(s, step).conns == s.conns
  {
  }

  lemma StepOnward(s: System, step: Step, c: Conn)
    requires Inv(s) && Enabled(s, step)
    ensures Onward(s, Next(s, step), c)
  {
    if step.Close? {
      assert LoopOk(s, step.l);
      CloseOnward(s, step.l, c);
    } else if step.DoCloseCb? {
      assert LoopOk(s, step.l);
      CloseCbOnward(s, step.l, c);
    } else if step.RunFunctor? {
      HeadHeld(s, step.l, s.loops[step.l].queue[0]);
      FunctorOnward(s, step.l, c);
    } else {
      ConnsStay(s, step);
    }
  }

  lemma {:induction false} RunOnward(states: seq<System>, steps: seq<Step>, i: nat, j: nat, c: Conn)
    requires IsRun(states, steps) && i <= j < |states|
    ensures Onward(states[i], states[j], c)
    decreases j - i
  {
    if i < j {
      Reachable(states, steps, i);
      StepOnward(states[i], steps[i], c);
      RunOnward(states, steps, i + 1, j, c);
    }
  }

  /** Step `i` of the run executes functor `f`. */
  ghost predicate Executes(states: seq<System>, steps: seq<Step>, i: nat, f: Functor)
    requires IsRun(states, steps)
  {
    i < |steps| && steps[i].RunFunctor? && states[i].loops[steps[i].l].queue[0] == f
  }

  lemma ExecutedOk(states: seq<System>, steps: seq<Step>, i: nat, f: Functor)
    requires IsRun(states, steps) && Executes(states, steps, i, f)
    ensures FunctorOk(states[i], steps[i].l, f)
    ensures f.ConnectDestroyed? ==> f.c in states[i + 1].conns && StageOf(states[i + 1], f.c) == Destroyed
  {
    Reachable(states, steps, i);
    assert LoopOk(states[i], steps[i].l);
    assert f in states[i].loops[steps[i].l].queue;
  }

  /**
   * Every functor of a connection, but the sends queued without the lock, runs before its destruction; so does every
   * send queued by a broadcast. The destruction runs once.
   */
  lemma SendsPrecedeDestroy(states: seq<System>, steps: seq<Step>, i: nat, j: nat, f: Functor, c: Conn)
    requires IsRun(states, steps) && Executes(states, steps, j, ConnectDestroyed(c))
    requires Executes(states, steps, i, f) && f.c == c && !f.PrivateSend? && i != j
    ensures i < j
  {
    ExecutedOk(states, steps, i, f);
    ExecutedOk(states, steps, j, ConnectDestroyed(c));
    if j < i {
      RunOnward(states, steps, j + 1, i, c);
    }
  }

  /**
   * In any state only sends are queued beside a connection's destruction, and those behind it were queued without the
   * lock.
   */
  lemma NothingBehindDestroy(states: seq<System>, steps: seq<Step>, i: nat, l: Loop, a: nat, b: nat, c: Conn)
    requires IsRun(states, steps) && i < |states| && l in states[i].loops
    requires a < |states[i].loops[l].queue| && b < |states[i].loops[l].queue|
    requires states[i].loops[l].queue[a] == ConnectDestroyed(c)
    requires states[i].loops[l].queue[b].c == c && b != a
    ensures IsSend(states[i].loops[l].queue[b])
    ensures a < b ==> states[i].loops[l].queue[b] == PrivateSend(c)
  {
    Reachable(states, steps, i);
    var q := states[i].loops[l].queue;
    assert LoopOk(states[i], l) && FunctorOk(states[i], l, q[a]) && FunctorOk(states[i], l, q[b]);
    assert a < b ==> MayPrecede(q[a], q[b]);
    assert b < a ==> MayPrecede(q[b], q[a]);
  }

  /**
   * A channel epoll_wait reported and not yet dispatched is in the poller's map, the kernel's set and the server's
   * map, whatever the other loops did meanwhile.
   */
  lemma NoStaleDispatch(states: seq<System>, steps: seq<Step>, i: nat, l: Loop, c: Conn)
    requires IsRun(states, steps) && i < |states| && l in states[i].loops && c in states[i].loops[l].active
    ensures c in states[i].watched && c in states[i].interest && c in states[i].connections
  {
    Reachable(states, steps, i);
    assert LoopOk(states[i], l);
    assert SetsOk(states[i], c);
  }

  /** Until its ConnectDestroyed has run a connection is in the server's map or held by that queued functor. */
  lemma HeldUntilDestroyed(states: seq<System>, steps: seq<Step>, i: nat, c: Conn)
    requires IsRun(states, steps) && i < |states| && c in states[i].conns
    ensures var s := states[i];
            && s.conns[c].loop in s.loops
            && (StageOf(s, c) != Destroyed <==>
                  c in s.connections || ConnectDestroyed(c) in s.loops[s.conns[c].loop].queue)
  {
    Reachable(states, steps, i);
    var s := states[i];
    assert SetsOk(s, c) && Held(s, c);
    var l := s.conns[c].loop;
    assert LoopOk(s, l);
    assert ConnectDestroyed(c) in s.loops[l].queue ==> FunctorOk(s, l, ConnectDestroyed(c));
  }

  /** A channel leaves the poller's map only in the functor phase of its own loop, with nothing left to dispatch. */
  lemma LeavesInFunctorPhase(states: seq<System>, steps: seq<Step>, i: nat, c: Conn)
    requires IsRun(states, steps) && i < |steps| && c in states[i].watched && c !in states[i + 1].watched
    ensures Executes(states, steps, i, ConnectDestroyed(c))
    ensures c in states[i].conns && states[i].conns[c].loop == steps[i].l
    ensures states[i].loops[steps[i].l].active == [] && !states[i].loops[steps[i].l].dispatching
  {
    Reachable(states, steps, i);
    var s, step := states[i], steps[i];
    assert step.RunFunctor?;
    assert LoopOk(s, step.l) && ActiveOk(s, step.l);
    assert FunctorOk(s, step.l, s.loops[step.l].queue[0]);
  }

  /** Once its exit erased it, no map of the chat server speaks of a connection again. */
  lemma NamesForgotten(states: seq<System>, steps: seq<Step>, i: nat, j: nat, c: Conn)
    requires IsRun(states, steps) && i <= j < |states| && c in states[i].conns
    requires Rank(StageOf(states[i], c)) >= Rank(Removing)
    ensures c !in states[j].connName && c !in states[j].nameConn.Values
  {
    RunOnward(states, steps, i, j, c);
    Reachable(states, steps, j);
    assert SetsOk(states[j], c);
  }

  /** A send under the shared lock goes to a connection whose destruction is neither queued nor run. */
  lemma PushedWhileAlive(states: seq<System>, steps: seq<Step>, i: nat)
    requires IsRun(states, steps) && i < |steps| && steps[i].PushOne?
    ensures var s, d := states[i], TaskOf(states[i], steps[i].l).sending.value;
            && d in s.conns && d in s.connections && d in s.watched
            && forall l :: l in s.loops ==> ConnectDestroyed(d) !in s.loops[l].queue
  {
    Reachable(states, steps, i);
    var s, d := states[i], TaskOf(states[i], steps[i].l).sending.value;
    assert LoopOk(s, steps[i].l);
    TodoIsNamed(s, steps[i].l, d);
    assert SetsOk(s, d);
    forall l | l in s.loops ensures ConnectDestroyed(d) !in s.loops[l].queue {
      assert LoopOk(s, l);
      assert ConnectDestroyed(d) in s.loops[l].queue ==> FunctorOk(s, l, ConnectDestroyed(d));
    }
  }

  /** Only sends to connections of other loops are ever queued: a loop sends to its own at once. */
  lemma QueuedElsewhere(states: seq<System>, steps: seq<Step>, i: nat)
    requires IsRun(states, steps) && i < |steps| && (steps[i].PushOne? || steps[i].PushPrivate?)
    ensures var s, l := states[i], steps[i].l;
      Elsewhere(s, l, if steps[i].PushOne? then TaskOf(s, l).sending.value else TaskOf(s, l).c)
  {
    Reachable(states, steps, i);
    assert LoopOk(states[i], steps[i].l);
  }

  /** A send is queued only for a connection found connected, of another loop; all others are over with the check. */
  lemma ChecksDecide(s: System, l: Loop, d: Conn, connected: bool)
    requires Inv(s)
    ensures Enabled(s, CheckPrivate(l, connected)) && TaskOf(s, l).c == d ==>
              var after := TaskOf(Next(s, CheckPrivate(l, connected)), l);
              if connected && Elsewhere(s, l, d) then after == Pushing(d) else after == Idle
    ensures Enabled(s, CheckOne(l, d, connected)) ==>
              var after := TaskOf(Next(s, CheckOne(l, d, connected)), l);
              if connected && Elsewhere(s, l, d) then after.sending == Some(d) && d in after.todo
              else after.sending == None && d !in after.todo
  {
    if l in s.loops {
      assert LoopOk(s, l);
    }
    if l in s.loops && TaskOf(s, l).Walk? && d in TaskOf(s, l).todo {
      TodoIsNamed(s, l, d);
    }
  }

  /** A login goes on to announce and insert its name exactly when the test finds it free; else it is over. */
  lemma TestDecides(s: System, l: Loop)
    requires Enabled(s, TestName(l))
    ensures var t, after := TaskOf(s, l), TaskOf(Next(s, TestName(l)), l);
      if t.name in s.nameConn then after == Idle else after.WantWalk? && AfterWalk(after.next) == Insert(t.c, t.name)
  {
  }

  /** The step a walking thread takes next. */
  ghost function WalkOn(s: System, l: Loop): (step: Step)
    requires l in s.loops && TaskOf(s, l).Walk?
    ensures Enabled(s, step)
  {
    var t := TaskOf(s, l);
    if t.sending.Some? then PushOne(l)
    else if t.todo == {} then EndWalk(l)
    else var d :| d in t.todo; CheckOne(l, d, false)
  }

  /**
   * No deadlock on the lock: a thread waiting for it may take it, or someone who holds it shared can go on, collecting
   * a roster or sending.
   */
  lemma LockIsFreed(s: System, l: Loop)
    requires l in s.loops
    ensures || ((TaskOf(s, l).Insert? ==> Enabled(s, DoInsert(l))) && (TaskOf(s, l).Erase? ==> Enabled(s, DoErase(l))))
            || exists k :: k in s.loops && TaskOf(s, k).Walk? && Enabled(s, WalkOn(s, k))
  {
    if !NobodyWalks(s) {
      var k :| k in s.loops && TaskOf(s, k).Walk?;
      assert Enabled(s, WalkOn(s, k));
    }
  }
}
