/** The sends SendPrivateMsg queues without the lock: when they come too late, exactly, and that they do. */
module PrivateSends {
  import opened Bytes
  import opened LifecycleSpec
  import opened LifecycleProofs
  import opened Lifecycle

  // ---------------------------------------------------------------- the history of a loop

  /** Every loop is still there, its queue untouched. */
  ghost predicate QueuesStay(s: System, r: System) {
    r.loops.Keys == s.loops.Keys && forall k :: k in s.loops ==> r.loops[k].queue == s.loops[k].queue
  }

  lemma SetTaskQueues(s: System, l: Loop, t: Task)
    requires l in s.loops
    ensures QueuesStay(s, SetTask(s, l, t)) && SetTask(s, l, t).conns == s.conns
  {
  }

  lemma DispatchQueues(s: System, l: Loop, t: Task)
    requires l in s.loops && s.loops[l].active != []
    ensures QueuesStay(s, PopActive(s, l)) && QueuesStay(s, SetTask(PopActive(s, l), l, t))
    ensures PopActive(s, l).conns == s.conns && SetTask(PopActive(s, l), l, t).conns == s.conns
  {
    SetTaskQueues(PopActive(s, l), l, t);
  }

  /** The steps that queue or run a functor. */
  predicate QueuesOrRuns(step: Step) {
    step.Accept? || step.PushOne? || step.PushPrivate? || step.DoCloseCb? || step.RunFunctor?
  }

  lemma MessageQueues(s: System, step: Step)
    requires Enabled(s, step)
    requires step.Message? || step.PrivateMessage? || step.GroupMessage? || step.LoginMessage? || step.Close?
    ensures QueuesStay(s, Next(s, step))
  {
    match step
    case Message(l) => DispatchQueues(s, l, Idle);
    case PrivateMessage(l, dest) => DispatchQueues(s, l, if dest in s.nameConn then Found(s.nameConn[dest]) else Idle);
    case GroupMessage(l) => DispatchQueues(s, l, WantWalk(Nothing));
    case LoginMessage(l, name) => DispatchQueues(s, l, WantWalk(ThenTest(s.loops[l].active[0], name)));
    case Close(l) => CloseQueues(s, l);
  }

  lemma CloseQueues(s: System, l: Loop)
    requires HasActive(s, l)
    ensures QueuesStay(s, Next(s, Close(l)))
  {
  }

  lemma LockQueues(s: System, step: Step)
    requires Enabled(s, step) && !QueuesOrRuns(step)
    requires !(step.Message? || step.PrivateMessage? || step.GroupMessage? || step.LoginMessage? || step.Close?)
    ensures QueuesStay(s, Next(s, step))
  {
    match step
    case Poll(l, ready) =>
    case EndDispatch(l) =>
    case CheckPrivate(l, connected) => SetTaskQueues(s, l, TaskOf(Next(s, step), l));
    case TestName(l) => SetTaskQueues(s, l, TaskOf(Next(s, step), l));
    case StartWalk(l) => SetTaskQueues(s, l, TaskOf(Next(s, step), l));
    case CheckOne(l, d, connected) => SetTaskQueues(s, l, TaskOf(Next(s, step), l));
    case EndWalk(l) => SetTaskQueues(s, l, AfterWalk(TaskOf(s, l).next));
    case DoInsert(l) => SetTaskQueues(s, l, Idle);
    case DoErase(l) => SetTaskQueues(s, l, CloseCb(TaskOf(s, l).c));
  }

  lemma OtherQueues(s: System, step: Step)
    requires Enabled(s, step) && !QueuesOrRuns(step)
    ensures QueuesStay(s, Next(s, step))
  {
    if step.Message? || step.PrivateMessage? || step.GroupMessage? || step.LoginMessage? || step.Close? {
      MessageQueues(s, step);
    } else {
      LockQueues(s, step);
    }
  }

  /** Every loop is still there, at most the head of one queue taken, functors appended. */
  ghost predicate Grown(s: System, r: System, took: Loop, takes: bool) {
    && r.loops.Keys == s.loops.Keys && (takes ==> took in s.loops && s.loops[took].queue != [])
    && forall k :: k in s.loops ==> Rest(s, k, took, takes) <= r.loops[k].queue
  }

  function Rest(s: System, k: Loop, took: Loop, takes: bool): seq<Functor>
    requires k in s.loops
  {
    if takes && k == took && s.loops[k].queue != [] then s.loops[k].queue[1..] else s.loops[k].queue
  }

  lemma EnqueueGrows(s: System, t: System, k: Loop, f: Functor, took: Loop, takes: bool)
    requires Grown(s, t, took, takes)
    ensures Grown(s, Enqueue(t, k, f), took, takes)
  {
  }

  lemma RunGrows(s: System, l: Loop)
    requires l in s.loops && s.loops[l].queue != []
    ensures Grown(s, RunHead(s, l), l, true)
  {
    match s.loops[l].queue[0]
    case Established(c) =>
    case SendInLoop(c) =>
    case PrivateSend(c) =>
    case RemoveInLoop(c) =>
      var t := Unlisted(PopQueue(s, l), c);
      assert Grown(s, t, l, true);
      EnqueueGrows(s, t, LoopFor(PopQueue(s, l), c), ConnectDestroyed(c), l, true);
    case ConnectDestroyed(c) =>
  }

  lemma AcceptGrows(s: System, c: Conn, io: Loop)
    requires Enabled(s, Accept(c, io))
    ensures Grown(s, Next(s, Accept(c, io)), 0, false)
  {
    var t := s.(conns := s.conns[c := Info(io, Fresh)], connections := s.connections + {c});
    assert Grown(s, t, 0, false);
    EnqueueGrows(s, t, io, Established(c), 0, false);
  }

  lemma PushGrows(s: System, l: Loop, t: Task, k: Loop, f: Functor)
    requires l in s.loops
    ensures Grown(s, Enqueue(SetTask(s, l, t), k, f), 0, false)
  {
    SetTaskQueues(s, l, t);
    EnqueueGrows(s, SetTask(s, l, t), k, f, 0, false);
  }

  lemma PushOneGrows(s: System, l: Loop)
    requires Enabled(s, PushOne(l))
    ensures Grown(s, Next(s, PushOne(l)), 0, false)
  {
    var t := TaskOf(s, l);
    var d := t.sending.value;
    PushGrows(s, l, t.(todo := t.todo - {d}, sending := None), LoopFor(s, d), SendInLoop(d));
  }

  lemma CloseCbGrows(s: System, l: Loop)
    requires Enabled(s, DoCloseCb(l))
    ensures Grown(s, Next(s, DoCloseCb(l)), 0, false)
  {
    var c, t := TaskOf(s, l).c, SetTask(s, l, Idle);
    SetTaskQueues(s, l, Idle);
    if l == 0 {
      EnqueueGrows(s, Unlisted(t, c), LoopFor(t, c), ConnectDestroyed(c), 0, false);
    } else {
      EnqueueGrows(s, SetStage(t, c, Removing), 0, RemoveInLoop(c), 0, false);
    }
  }

  /** The loop whose queue a step takes from. */
  function TakesFrom(step: Step): Loop {
    if step.RunFunctor? then step.l else 0
  }

  lemma StepGrows(s: System, step: Step)
    requires Enabled(s, step)
    ensures Grown(s, Next(s, step), TakesFrom(step), step.RunFunctor?)
  {
    if step.Accept? {
      AcceptGrows(s, step.c, step.io);
    } else if step.PushOne? {
      PushOneGrows(s, step.l);
    } else if step.PushPrivate? {
      PushGrows(s, step.l, Idle, LoopFor(s, TaskOf(s, step.l).c), PrivateSend(TaskOf(s, step.l).c));
    } else if step.DoCloseCb? {
      CloseCbGrows(s, step.l);
    } else if step.RunFunctor? {
      RunGrows(s, step.l);
    } else {
      OtherQueues(s, step);
    }
  }

  /** The functors loop `l` has run in the first `n` steps. */
  ghost function Done(states: seq<System>, steps: seq<Step>, l: Loop, n: nat): seq<Functor>
    requires IsRun(states, steps) && n <= |steps|
  {
    if n == 0 then []
    else
      Done(states, steps, l, n - 1) +
      if steps[n - 1] == RunFunctor(l) then [states[n - 1].loops[l].queue[0]] else []
  }

  /** Every functor queued on loop `l` so far, in order: those it has run, then those it has not. */
  ghost function History(states: seq<System>, steps: seq<Step>, l: Loop, n: nat): seq<Functor>
    requires IsRun(states, steps) && n <= |steps| && l in states[n].loops
  {
    Done(states, steps, l, n) + states[n].loops[l].queue
  }

  lemma DoneStep(states: seq<System>, steps: seq<Step>, l: Loop, n: nat)
    requires IsRun(states, steps) && n < |steps| && l in states[n].loops
    ensures var rest := Rest(states[n], l, TakesFrom(steps[n]), steps[n].RunFunctor?);
      Done(states, steps, l, n + 1) + rest == History(states, steps, l, n)
  {
    var queue := states[n].loops[l].queue;
    if steps[n] == RunFunctor(l) {
      assert queue == [queue[0]] + queue[1..];
      Assoc(Done(states, steps, l, n), [queue[0]], queue[1..]);
    } else {
      assert Done(states, steps, l, n) + [] == Done(states, steps, l, n);
    }
  }

  lemma HistoryStep(states: seq<System>, steps: seq<Step>, l: Loop, n: nat) returns (more: seq<Functor>)
    requires IsRun(states, steps) && n < |steps| && l in states[n].loops
    ensures l in states[n + 1].loops
    ensures History(states, steps, l, n + 1) == History(states, steps, l, n) + more
  {
    StepGrows(states[n], steps[n]);
    DoneStep(states, steps, l, n);
    var rest := Rest(states[n], l, TakesFrom(steps[n]), steps[n].RunFunctor?);
    more := states[n + 1].loops[l].queue[|rest|..];
    assert states[n + 1].loops[l].queue == rest + more;
    Assoc(Done(states, steps, l, n + 1), rest, more);
  }

  lemma PrefixTrans<T>(a: seq<T>, b: seq<T>, c: seq<T>)
    requires a <= b <= c
    ensures a <= c
  {
  }

  lemma HistoryGrowsOne(states: seq<System>, steps: seq<Step>, l: Loop, n: nat)
    requires IsRun(states, steps) && n < |steps| && l in states[n].loops
    ensures l in states[n + 1].loops && History(states, steps, l, n) <= History(states, steps, l, n + 1)
  {
    var more := HistoryStep(states, steps, l, n);
  }

  /** What was queued once stays in the history, at its place. */
  lemma {:induction false} HistoryGrows(states: seq<System>, steps: seq<Step>, l: Loop, i: nat, j: nat)
    requires IsRun(states, steps) && i <= j <= |steps| && l in states[i].loops
    ensures l in states[j].loops && History(states, steps, l, i) <= History(states, steps, l, j)
  {
    if i < j {
      var m: nat := j - 1;
      HistoryGrows(states, steps, l, i, m);
      HistoryGrowsOne(states, steps, l, m);
      PrefixTrans(History(states, steps, l, i), History(states, steps, l, m), History(states, steps, l, j));
    }
  }

  // ---------------------------------------------------------------- destruction

  predicate IsDestroyed(s: System, c: Conn) {
    c in s.conns && StageOf(s, c) == Destroyed
  }

  ghost predicate Runs(s: System, step: Step, f: Functor)
    requires Enabled(s, step)
  {
    step.RunFunctor? && s.loops[step.l].queue[0] == f
  }

  lemma HeadDestroys(s: System, l: Loop, c: Conn)
    requires l in s.loops && s.loops[l].queue != [] && FunctorOk(s, l, s.loops[l].queue[0])
    ensures IsDestroyed(RunHead(s, l), c) <==> IsDestroyed(s, c) || s.loops[l].queue[0] == ConnectDestroyed(c)
  {
  }

  lemma ClosingIsNot(s: System, l: Loop, c: Conn)
    requires Enabled(s, Close(l)) && ActiveOk(s, l)
    ensures IsDestroyed(Next(s, Close(l)), c) <==> IsDestroyed(s, c)
  {
    assert s.loops[l].active[0] in s.loops[l].active;
  }

  lemma CloseCbIsNot(s: System, l: Loop, c: Conn)
    requires Enabled(s, DoCloseCb(l)) && TaskOk(s, l, TaskOf(s, l))
    ensures IsDestroyed(Next(s, DoCloseCb(l)), c) <==> IsDestroyed(s, c)
  {
  }

  /** A connection becomes destroyed by its ConnectDestroyed only. */
  lemma DestroyedStep(s: System, step: Step, c: Conn)
    requires Inv(s) && Enabled(s, step)
    ensures IsDestroyed(Next(s, step), c) <==> IsDestroyed(s, c) || Runs(s, step, ConnectDestroyed(c))
  {
    if step.RunFunctor? {
      HeadHeld(s, step.l, s.loops[step.l].queue[0]);
      HeadDestroys(s, step.l, c);
    } else if step.Close? {
      assert LoopOk(s, step.l);
      ClosingIsNot(s, step.l, c);
    } else if step.DoCloseCb? {
      assert LoopOk(s, step.l);
      CloseCbIsNot(s, step.l, c);
    } else {
      ConnsStay(s, step);
      if step.Accept? {
        AcceptsFresh(s, step);
      }
    }
  }

  lemma AcceptsFresh(s: System, step: Step)
    requires Enabled(s, step) && step.Accept?
    ensures forall c :: c in Next(s, step).conns && c !in s.conns ==> StageOf(Next(s, step), c) != Destroyed
  {
  }

  predicate DestroyedOn(s: System, c: Conn, l: Loop) {
    IsDestroyed(s, c) && s.conns[c].loop == l
  }

  /** It runs on the connection's own loop. */
  lemma DestroyedOnStep(s: System, step: Step, c: Conn, l: Loop)
    requires Inv(s) && Enabled(s, step)
    ensures DestroyedOn(Next(s, step), c, l) <==>
            DestroyedOn(s, c, l) || (step == RunFunctor(l) && Runs(s, step, ConnectDestroyed(c)))
  {
    DestroyedStep(s, step, c);
    StepOnward(s, step, c);
    if Runs(s, step, ConnectDestroyed(c)) {
      HeadHeld(s, step.l, ConnectDestroyed(c));
    }
  }

  lemma DoneOne(states: seq<System>, steps: seq<Step>, l: Loop, n: nat, f: Functor)
    requires IsRun(states, steps) && n < |steps|
    ensures f in Done(states, steps, l, n + 1) <==>
            f in Done(states, steps, l, n) || (steps[n] == RunFunctor(l) && Runs(states[n], steps[n], f))
  {
  }

  lemma DestroyedOnRun(states: seq<System>, steps: seq<Step>, l: Loop, n: nat, c: Conn)
    requires IsRun(states, steps) && n < |steps|
    ensures DestroyedOn(states[n + 1], c, l) <==>
            DestroyedOn(states[n], c, l) ||
            (steps[n] == RunFunctor(l) && Runs(states[n], steps[n], ConnectDestroyed(c)))
  {
    Reachable(states, steps, n);
    DestroyedOnStep(states[n], steps[n], c, l);
  }

  lemma DoneExactStep(states: seq<System>, steps: seq<Step>, l: Loop, n: nat, c: Conn)
    requires IsRun(states, steps) && n < |steps|
    requires ConnectDestroyed(c) in Done(states, steps, l, n) <==> DestroyedOn(states[n], c, l)
    ensures ConnectDestroyed(c) in Done(states, steps, l, n + 1) <==> DestroyedOn(states[n + 1], c, l)
  {
    DestroyedOnRun(states, steps, l, n, c);
    DoneOne(states, steps, l, n, ConnectDestroyed(c));
  }

  /** A loop has run the destruction of exactly its destroyed connections. */
  lemma {:induction false} DoneExact(states: seq<System>, steps: seq<Step>, l: Loop, n: nat, c: Conn)
    requires IsRun(states, steps) && n <= |steps|
    ensures ConnectDestroyed(c) in Done(states, steps, l, n) <==> DestroyedOn(states[n], c, l)
  {
    if n == 0 {
      assert Done(states, steps, l, 0) == [] && states[0].conns == map[];
    } else {
      var m: nat := n - 1;
      DoneExact(states, steps, l, m, c);
      DoneExactStep(states, steps, l, m, c);
    }
  }

  /** At any moment, a loop's history holds the destruction of exactly its connections that left the server's map. */
  lemma HistoryExact(states: seq<System>, steps: seq<Step>, l: Loop, n: nat, c: Conn)
    requires IsRun(states, steps) && n <= |steps| && l in states[n].loops
    requires c in states[n].conns && states[n].conns[c].loop == l
    ensures ConnectDestroyed(c) in History(states, steps, l, n) <==> c !in states[n].connections
  {
    var s := states[n];
    Reachable(states, steps, n);
    DoneExact(states, steps, l, n, c);
    assert SetsOk(s, c) && Held(s, c) && LoopOk(s, l);
    assert ConnectDestroyed(c) in s.loops[l].queue ==> FunctorOk(s, l, ConnectDestroyed(c));
  }

  // ---------------------------------------------------------------- when a private send comes too late

  /** The functor a private message queues in step `i` is the one its loop runs in step `j`. */
  ghost predicate QueuedThenRun(states: seq<System>, steps: seq<Step>, i: nat, j: nat, c: Conn, l: Loop)
    requires IsRun(states, steps)
  {
    && i < j < |steps| && steps[i].PushPrivate? && TaskOf(states[i], steps[i].l).c == c
    && c in states[i].conns && states[i].conns[c].loop == l && l in states[i].loops
    && steps[j] == RunFunctor(l) && |Done(states, steps, l, j)| == |History(states, steps, l, i)|
  }

  lemma PushQueues(s: System, actor: Loop, l: Loop)
    requires Enabled(s, PushPrivate(actor)) && l in s.loops && l == LoopFor(s, TaskOf(s, actor).c)
    ensures l in Next(s, PushPrivate(actor)).loops
    ensures Next(s, PushPrivate(actor)).loops[l].queue == s.loops[l].queue + [PrivateSend(TaskOf(s, actor).c)]
  {
  }

  lemma PushedLast(states: seq<System>, steps: seq<Step>, i: nat, j: nat, c: Conn, l: Loop)
    requires IsRun(states, steps) && QueuedThenRun(states, steps, i, j, c, l)
    ensures l in states[i + 1].loops
    ensures History(states, steps, l, i + 1) == History(states, steps, l, i) + [PrivateSend(c)]
  {
    PushQueues(states[i], steps[i].l, l);
    Assoc(Done(states, steps, l, i), states[i].loops[l].queue, [PrivateSend(c)]);
    assert Done(states, steps, l, i + 1) == Done(states, steps, l, i) + [] == Done(states, steps, l, i);
  }

  /** A history splits at a place into what came before, the functor there, and the rest. */
  lemma AtItsPlace(all: seq<Functor>, done: seq<Functor>, queue: seq<Functor>, before: seq<Functor>, f: Functor)
    requires all == done + queue && before + [f] <= all && |done| == |before|
    ensures done == before && queue != [] && queue[0] == f
  {
    assert all[..|done|] == done && (before + [f])[..|before|] == before;
    assert all[|before|] == (before + [f])[|before|] == f;
  }

  /** It is that functor indeed: what ran before it is what was queued before it. */
  lemma RunAtItsPlace(states: seq<System>, steps: seq<Step>, i: nat, j: nat, c: Conn, l: Loop)
    requires IsRun(states, steps) && QueuedThenRun(states, steps, i, j, c, l)
    ensures Done(states, steps, l, j) == History(states, steps, l, i)
    ensures Executes(states, steps, j, PrivateSend(c))
  {
    PushedLast(states, steps, i, j, c, l);
    HistoryGrows(states, steps, l, i + 1, j);
    AtItsPlace(History(states, steps, l, j), Done(states, steps, l, j), states[j].loops[l].queue,
               History(states, steps, l, i), PrivateSend(c));
  }

  /**
   * A private send runs before its connection is destroyed exactly when it was queued while the connection was still
   * in the server's map.
   */
  lemma PrivateSendExact(states: seq<System>, steps: seq<Step>, i: nat, j: nat, c: Conn, l: Loop)
    requires IsRun(states, steps) && QueuedThenRun(states, steps, i, j, c, l)
    ensures Executes(states, steps, j, PrivateSend(c))
    ensures !IsDestroyed(states[j], c) <==> c in states[i].connections
  {
    RunAtItsPlace(states, steps, i, j, c, l);
    HistoryExact(states, steps, l, i, c);
    DoneExact(states, steps, l, j, c);
    RunOnward(states, steps, i, j, c);
  }
}
