/**
 * A run in which a private send comes too late: its destination leaves between the look-up and the push. One client
 * on loop 1, one on loop 2; the second writes to the first while that one hangs up.
 */
module LateSends {
  import opened Bytes
  import opened LifecycleSpec
  import opened LifecycleProofs
  import opened Lifecycle
  import opened PrivateSends

  /** `steps` lead from `s` to `r`. */
  ghost predicate Leads(s: System, steps: seq<Step>, r: System)
    decreases |steps|
  {
    if steps == [] then s == r
    else Enabled(s, steps[0]) && Leads(Next(s, steps[0]), steps[1..], r)
  }

  lemma OneStep(s: System, step: Step, r: System)
    requires Enabled(s, step) && Next(s, step) == r
    ensures Leads(s, [step], r)
  {
    assert Leads(r, [step][1..], r);
  }

  lemma StepThen(s: System, step: Step, rest: seq<Step>, r: System)
    requires Enabled(s, step) && Leads(Next(s, step), rest, r)
    ensures Leads(s, [step] + rest, r)
  {
    assert ([step] + rest)[1..] == rest;
  }

  lemma {:induction false} LeadsOn(s: System, a: seq<Step>, m: System, b: seq<Step>, r: System)
    requires Leads(s, a, m) && Leads(m, b, r)
    ensures Leads(s, a + b, r)
    decreases |a|
  {
    if a == [] {
      assert a + b == b;
    } else {
      var first, rest := a[0], a[1..];
      LeadsOn(Next(s, first), rest, m, b, r);
      StepThen(s, first, rest + b, r);
      assert a == [first] + rest;
      Assoc([first], rest, b);
    }
  }

  const REST: LoopState := LoopState([], false, [], Idle)
  const FIRST: Name := [65]
  const SECOND: Name := [66]

  /** The state with loop `l` in `ls`. */
  function At(s: System, l: Loop, ls: LoopState): System {
    s.(loops := s.loops[l := ls])
  }

  /** Loop `l` dispatching, nothing queued, at task `t`. */
  function Busy(active: seq<Conn>, t: Task): LoopState {
    LoopState([], true, active, t)
  }

  lemma Again(s: System, l: Loop, a: LoopState, b: LoopState)
    ensures At(At(s, l, a), l, b) == At(s, l, b)
  {
    assert s.loops[l := a][l := b] == s.loops[l := b];
  }

  /** A loop with one channel to dispatch. */
  lemma PollOne(s: System, l: Loop, c: Conn)
    requires l in s.loops && s.loops[l] == REST && c in s.interest && c in s.conns && s.conns[c].loop == l
    ensures Leads(s, [Poll(l, [c])], At(s, l, Busy([c], Idle)))
  {
    OneStep(s, Poll(l, [c]), At(s, l, Busy([c], Idle)));
  }

  /** One more step of loop `l` that touches nothing else. */
  lemma Busier(s: System, l: Loop, a: seq<Step>, ls: LoopState, step: Step, ls': LoopState)
    requires l in s.loops && Leads(s, a, At(s, l, ls))
    requires Enabled(At(s, l, ls), step) && Next(At(s, l, ls), step) == At(At(s, l, ls), l, ls')
    ensures Leads(s, a + [step], At(s, l, ls'))
  {
    Again(s, l, ls, ls');
    OneStep(At(s, l, ls), step, At(s, l, ls'));
    LeadsOn(s, a, At(s, l, ls), [step], At(s, l, ls'));
  }

  lemma Popped(s: System, l: Loop, c: Conn, t: Task)
    requires l in s.loops && s.loops[l] == Busy([c], Idle)
    ensures SetTask(PopActive(s, l), l, t) == At(s, l, Busy([], t))
  {
    assert [c][1..] == [];
    Again(s, l, Busy([], Idle), Busy([], t));
  }

  lemma LoginStarts(s: System, l: Loop, c: Conn, name: Name)
    requires l in s.loops && s.loops[l] == Busy([c], Idle) && c !in s.connName && name != []
    ensures Enabled(s, LoginMessage(l, name))
    ensures Next(s, LoginMessage(l, name)) == At(s, l, Busy([], WantWalk(ThenTest(c, name))))
  {
    Popped(s, l, c, WantWalk(ThenTest(c, name)));
  }

  /** A walk that sends to nobody. */
  lemma EmptyWalk(s: System, l: Loop, a: seq<Step>, queue: seq<Functor>, next: Then)
    requires l in s.loops && Targets(s, next) == {}
    requires Leads(s, a, At(s, l, LoopState(queue, true, [], WantWalk(next))))
    ensures Leads(s, a + [StartWalk(l)] + [EndWalk(l)], At(s, l, LoopState(queue, true, [], AfterWalk(next))))
  {
    var walk := Walk(next, {}, None);
    Busier(s, l, a, LoopState(queue, true, [], WantWalk(next)), StartWalk(l), LoopState(queue, true, [], walk));
    Busier(s, l, a + [StartWalk(l)], LoopState(queue, true, [], walk), EndWalk(l),
           LoopState(queue, true, [], AfterWalk(next)));
  }

  /** A login while nobody is registered, as far as the exclusive lock. */
  function LoginSteps(l: Loop, c: Conn, name: Name): seq<Step> {
    [Poll(l, [c])] + [LoginMessage(l, name)] + [StartWalk(l)] + [EndWalk(l)] + [TestName(l)]
    + [StartWalk(l)] + [EndWalk(l)]
  }

  lemma LoginRuns(s: System, l: Loop, c: Conn, name: Name)
    requires l in s.loops && s.loops[l] == REST && c in s.interest && c in s.conns && s.conns[c].loop == l
    requires s.nameConn == map[] && s.connName == map[] && name != []
    ensures Leads(s, LoginSteps(l, c, name), At(s, l, Busy([], Insert(c, name))))
  {
    var a := [Poll(l, [c])];
    PollOne(s, l, c);
    LoginStarts(At(s, l, Busy([c], Idle)), l, c, name);
    Busier(s, l, a, Busy([c], Idle), LoginMessage(l, name), Busy([], WantWalk(ThenTest(c, name))));
    a := a + [LoginMessage(l, name)];
    EmptyWalk(s, l, a, [], ThenTest(c, name));
    a := a + [StartWalk(l)] + [EndWalk(l)];
    Busier(s, l, a, Busy([], Test(c, name)), TestName(l), Busy([], WantWalk(ThenInsert(c, name))));
    assert Targets(s, ThenInsert(c, name)) == {};
    EmptyWalk(s, l, a + [TestName(l)], [], ThenInsert(c, name));
  }

  // ---------------------------------------------------------------- the run, part by part

  const START: System := System(map[], map[0 := REST, 1 := REST, 2 := REST], {}, {}, {}, map[], map[])

  /** Both connections up. */
  const UP: System :=
    START.(conns := map[1 := Info(1, Up), 2 := Info(2, Up)],
           connections := {1, 2}, watched := {1, 2}, interest := {1, 2})

  /** Both registered. */
  const NAMED: System :=
    UP.(nameConn := map[FIRST := 1, SECOND := 2], connName := map[1 := FIRST, 2 := SECOND])

  /** The second client's loop has looked the first up and found it connected. */
  const AIMED: System := At(NAMED, 2, Busy([], Pushing(1)))

  /** `c` is up on loop `io`. */
  function Connected(s: System, c: Conn, io: Loop): System {
    s.(conns := s.conns[c := Info(io, Up)], connections := s.connections + {c},
       watched := s.watched + {c}, interest := s.interest + {c})
  }

  lemma Connects(s: System, c: Conn, io: Loop)
    requires 0 in s.loops && s.loops[0] == Busy([], Idle) && io in s.loops && io != 0 && s.loops[io] == REST
    requires c !in s.conns
    ensures Leads(s, [Accept(c, io)] + [RunFunctor(io)], Connected(s, c, io))
  {
    var m := Next(s, Accept(c, io));
    var taken := s.(conns := s.conns[c := Info(io, Fresh)], connections := s.connections + {c});
    assert [] + [Established(c)] == [Established(c)];
    assert m == At(taken, io, LoopState([Established(c)], false, [], Idle));
    OneStep(s, Accept(c, io), m);
    assert [Established(c)][1..] == [];
    Again(taken, io, LoopState([Established(c)], false, [], Idle), REST);
    assert s.loops[io := REST] == s.loops;
    assert s.conns[c := Info(io, Fresh)][c := Info(io, Up)] == s.conns[c := Info(io, Up)];
    OneStep(m, RunFunctor(io), Connected(s, c, io));
    LeadsOn(s, [Accept(c, io)], m, [RunFunctor(io)], Connected(s, c, io));
  }

  const CONNECT: seq<Step> :=
    [Poll(0, [])] + ([Accept(1, 1)] + [RunFunctor(1)]) + ([Accept(2, 2)] + [RunFunctor(2)]) + [EndDispatch(0)]

  lemma BothConnect()
    ensures Leads(START, CONNECT, UP)
  {
    var s0 := At(START, 0, Busy([], Idle));
    OneStep(START, Poll(0, []), s0);
    Connects(s0, 1, 1);
    LeadsOn(START, [Poll(0, [])], s0, [Accept(1, 1)] + [RunFunctor(1)], Connected(s0, 1, 1));
    var s1 := Connected(s0, 1, 1);
    Connects(s1, 2, 2);
    LeadsOn(START, [Poll(0, [])] + ([Accept(1, 1)] + [RunFunctor(1)]), s1,
            [Accept(2, 2)] + [RunFunctor(2)], Connected(s1, 2, 2));
    var s2 := Connected(s1, 2, 2);
    assert s2 == At(UP, 0, Busy([], Idle));
    Again(UP, 0, Busy([], Idle), REST);
    assert At(UP, 0, REST) == UP;
    OneStep(s2, EndDispatch(0), UP);
    LeadsOn(START, [Poll(0, [])] + ([Accept(1, 1)] + [RunFunctor(1)]) + ([Accept(2, 2)] + [RunFunctor(2)]), s2,
            [EndDispatch(0)], UP);
  }

  /** `name` registered for `c`. */
  function Registers(s: System, c: Conn, name: Name): System {
    s.(nameConn := s.nameConn[name := c], connName := s.connName[c := name])
  }

  lemma Inserts(s: System, l: Loop, c: Conn, name: Name)
    requires l in s.loops && s.loops[l] == Busy([], Insert(c, name)) && NobodyWalks(s)
    ensures Leads(s, [DoInsert(l)] + [EndDispatch(l)], Registers(At(s, l, REST), c, name))
  {
    var m := Registers(At(s, l, Busy([], Idle)), c, name);
    OneStep(s, DoInsert(l), m);
    Again(s, l, Busy([], Idle), REST);
    OneStep(m, EndDispatch(l), Registers(At(s, l, REST), c, name));
    LeadsOn(s, [DoInsert(l)], m, [EndDispatch(l)], Registers(At(s, l, REST), c, name));
  }

  const LOGIN: seq<Step> :=
    LoginSteps(1, 1, FIRST) + LoginSteps(2, 2, SECOND)
    + ([DoInsert(1)] + [EndDispatch(1)]) + ([DoInsert(2)] + [EndDispatch(2)])

  lemma BothLogin()
    ensures Leads(UP, LOGIN, NAMED)
  {
    var one := At(UP, 1, Busy([], Insert(1, FIRST)));
    var two := At(one, 2, Busy([], Insert(2, SECOND)));
    LoginRuns(UP, 1, 1, FIRST);
    LoginRuns(one, 2, 2, SECOND);
    var a := LoginSteps(1, 1, FIRST) + LoginSteps(2, 2, SECOND);
    LeadsOn(UP, LoginSteps(1, 1, FIRST), one, LoginSteps(2, 2, SECOND), two);
    Inserts(two, 1, 1, FIRST);
    var three := Registers(At(two, 1, REST), 1, FIRST);
    LeadsOn(UP, a, two, [DoInsert(1)] + [EndDispatch(1)], three);
    Inserts(three, 2, 2, SECOND);
    var four := Registers(At(three, 2, REST), 2, SECOND);
    assert four == NAMED;
    LeadsOn(UP, a + ([DoInsert(1)] + [EndDispatch(1)]), three, [DoInsert(2)] + [EndDispatch(2)], four);
  }

  const AIM: seq<Step> := [Poll(2, [2])] + [PrivateMessage(2, FIRST)] + [CheckPrivate(2, true)]

  /** The second client's message is looked up, its destination found connected; the push is still to come. */
  lemma Aims()
    ensures Leads(NAMED, AIM, AIMED)
  {
    PollOne(NAMED, 2, 2);
    Popped(At(NAMED, 2, Busy([2], Idle)), 2, 2, Found(1));
    Busier(NAMED, 2, [Poll(2, [2])], Busy([2], Idle), PrivateMessage(2, FIRST), Busy([], Found(1)));
    Busier(NAMED, 2, [Poll(2, [2])] + [PrivateMessage(2, FIRST)], Busy([], Found(1)), CheckPrivate(2, true),
           Busy([], Pushing(1)));
  }

  /** One step, of which only loops and connections matter later. */
  lemma StepsTo(s: System, a: seq<Step>, m: System, step: Step) returns (r: System)
    requires Leads(s, a, m) && Enabled(m, step)
    ensures r == Next(m, step) && Leads(s, a + [step], r)
  {
    r := Next(m, step);
    OneStep(m, step, r);
    LeadsOn(s, a, m, [step], r);
  }

  /** The loop begins to close the only channel it has to dispatch. */
  lemma BeginsToClose(s: System, l: Loop, c: Conn)
    requires l in s.loops && s.loops[l] == Busy([c], Idle) && c in s.conns && s.conns[c].loop == l && c in s.connName
    ensures Enabled(s, Close(l))
    ensures var r := Next(s, Close(l));
      && r.loops == s.loops[l := Busy([], WantWalk(ThenErase(c)))] && r.conns == s.conns[c := Info(l, Closing)]
      && r.nameConn == s.nameConn && r.connName == s.connName
  {
    assert [c][1..] == [];
    assert s.loops[l := Busy([], Idle)][l := Busy([], WantWalk(ThenErase(c)))] ==
           s.loops[l := Busy([], WantWalk(ThenErase(c)))];
  }

  const HANG_UP: seq<Step> := [Poll(1, [1])] + [Close(1)]

  /** The names as they are, loop 2 about to push, loop 1 at `t`. */
  ghost predicate Midway(s: System, t: Task, queue: seq<Functor>) {
    && s.loops == map[0 := REST, 1 := Busy([], t), 2 := LoopState(queue, true, [], Pushing(1))]
    && s.conns == map[1 := Info(1, Closing), 2 := Info(2, Up)]
    && s.nameConn == NAMED.nameConn && s.connName == NAMED.connName
  }

  lemma StartsClosing() returns (r: System)
    ensures Leads(AIMED, HANG_UP, r) && Midway(r, WantWalk(ThenErase(1)), [])
  {
    var polled := At(AIMED, 1, Busy([1], Idle));
    PollOne(AIMED, 1, 1);
    BeginsToClose(polled, 1, 1);
    r := StepsTo(AIMED, [Poll(1, [1])], polled, Close(1));
  }

  lemma TargetsSecond(s: System)
    requires s.nameConn == NAMED.nameConn
    ensures Targets(s, ThenErase(1)) == {2}
  {
    assert s.nameConn[FIRST] == 1 && s.nameConn[SECOND] == 2;
    assert s.nameConn.Values == {1, 2};
  }

  lemma WalkStarts(s: System)
    requires Midway(s, WantWalk(ThenErase(1)), [])
    ensures Enabled(s, StartWalk(1)) && Midway(Next(s, StartWalk(1)), Walk(ThenErase(1), {2}, None), [])
  {
    TargetsSecond(s);
  }

  lemma WalkChecks(s: System)
    requires Midway(s, Walk(ThenErase(1), {2}, None), [])
    ensures Enabled(s, CheckOne(1, 2, true))
    ensures Midway(Next(s, CheckOne(1, 2, true)), Walk(ThenErase(1), {2}, Some(2)), [])
  {
  }

  lemma WalkPushes(s: System)
    requires Midway(s, Walk(ThenErase(1), {2}, Some(2)), [])
    ensures Enabled(s, PushOne(1)) && Midway(Next(s, PushOne(1)), Walk(ThenErase(1), {}, None), [SendInLoop(2)])
  {
    assert {2} - {2} == {} && [] + [SendInLoop(2)] == [SendInLoop(2)];
  }

  lemma WalkEnds(s: System)
    requires Midway(s, Walk(ThenErase(1), {}, None), [SendInLoop(2)])
    ensures Enabled(s, EndWalk(1)) && Midway(Next(s, EndWalk(1)), Erase(1), [SendInLoop(2)])
  {
  }

  const TELL: seq<Step> := [StartWalk(1)] + [CheckOne(1, 2, true)] + [PushOne(1)] + [EndWalk(1)]

  /** The second client is told under the shared lock. */
  lemma TellsTheSecond(s: System) returns (r: System)
    requires Midway(s, WantWalk(ThenErase(1)), [])
    ensures Leads(s, TELL, r) && Midway(r, Erase(1), [SendInLoop(2)])
  {
    WalkStarts(s);
    OneStep(s, StartWalk(1), Next(s, StartWalk(1)));
    r := Next(s, StartWalk(1));
    WalkChecks(r);
    r := StepsTo(s, [StartWalk(1)], r, CheckOne(1, 2, true));
    WalkPushes(r);
    r := StepsTo(s, [StartWalk(1)] + [CheckOne(1, 2, true)], r, PushOne(1));
    WalkEnds(r);
    r := StepsTo(s, [StartWalk(1)] + [CheckOne(1, 2, true)] + [PushOne(1)], r, EndWalk(1));
  }

  /** The three queues and where the first connection stands; loop 2 still about to push. */
  ghost predicate Parting(s: System, main: seq<Functor>, own: LoopState, stage: Stage) {
    && s.loops == map[0 := LoopState(main, false, [], Idle), 1 := own,
                      2 := LoopState([SendInLoop(2)], true, [], Pushing(1))]
    && 1 in s.conns && s.conns[1] == Info(1, stage)
  }

  lemma ErasesFirst(s: System)
    requires Midway(s, Erase(1), [SendInLoop(2)])
    ensures Enabled(s, DoErase(1)) && Parting(Next(s, DoErase(1)), [], Busy([], CloseCb(1)), Closing)
  {
  }

  lemma CallsBack(s: System)
    requires Parting(s, [], Busy([], CloseCb(1)), Closing)
    ensures Enabled(s, DoCloseCb(1))
    ensures Parting(Next(s, DoCloseCb(1)), [RemoveInLoop(1)], Busy([], Idle), Removing)
  {
    assert [] + [RemoveInLoop(1)] == [RemoveInLoop(1)];
  }

  lemma EndsDispatch(s: System)
    requires Parting(s, [RemoveInLoop(1)], Busy([], Idle), Removing)
    ensures Enabled(s, EndDispatch(1))
    ensures Parting(Next(s, EndDispatch(1)), [RemoveInLoop(1)], REST, Removing)
  {
  }

  lemma RemovesOnMain(s: System)
    requires Parting(s, [RemoveInLoop(1)], REST, Removing)
    ensures Enabled(s, RunFunctor(0))
    ensures Parting(Next(s, RunFunctor(0)), [], LoopState([ConnectDestroyed(1)], false, [], Idle), Doomed)
  {
    assert [RemoveInLoop(1)][1..] == [] && [] + [ConnectDestroyed(1)] == [ConnectDestroyed(1)];
  }

  lemma DestroysFirst(s: System)
    requires Parting(s, [], LoopState([ConnectDestroyed(1)], false, [], Idle), Doomed)
    ensures Enabled(s, RunFunctor(1)) && Parting(Next(s, RunFunctor(1)), [], REST, Destroyed)
  {
    assert [ConnectDestroyed(1)][1..] == [];
  }

  /** The push of the private message comes now. */
  lemma PushesLate(s: System)
    requires Parting(s, [], REST, Destroyed)
    ensures Enabled(s, PushPrivate(2)) && IsDestroyed(Next(s, PushPrivate(2)), 1)
    ensures 1 in Next(s, PushPrivate(2)).loops
    ensures Next(s, PushPrivate(2)).loops[1] == LoopState([PrivateSend(1)], false, [], Idle)
  {
    assert [] + [PrivateSend(1)] == [PrivateSend(1)];
  }

  const PART: seq<Step> :=
    [DoErase(1)] + [DoCloseCb(1)] + [EndDispatch(1)] + [RunFunctor(0)] + [RunFunctor(1)] + [PushPrivate(2)]

  lemma Parts(s: System) returns (r: System)
    requires Midway(s, Erase(1), [SendInLoop(2)])
    ensures Leads(s, PART, r) && IsDestroyed(r, 1)
    ensures 1 in r.loops && r.loops[1] == LoopState([PrivateSend(1)], false, [], Idle)
  {
    ErasesFirst(s);
    var a := [DoErase(1)];
    OneStep(s, DoErase(1), Next(s, DoErase(1)));
    CallsBack(Next(s, DoErase(1)));
    r := StepsTo(s, a, Next(s, DoErase(1)), DoCloseCb(1));
    EndsDispatch(r);
    r := StepsTo(s, a + [DoCloseCb(1)], r, EndDispatch(1));
    RemovesOnMain(r);
    r := StepsTo(s, a + [DoCloseCb(1)] + [EndDispatch(1)], r, RunFunctor(0));
    DestroysFirst(r);
    r := StepsTo(s, a + [DoCloseCb(1)] + [EndDispatch(1)] + [RunFunctor(0)], r, RunFunctor(1));
    PushesLate(r);
    r := StepsTo(s, a + [DoCloseCb(1)] + [EndDispatch(1)] + [RunFunctor(0)] + [RunFunctor(1)], r, PushPrivate(2));
  }

  // ---------------------------------------------------------------- the whole run

  /** The states on the way. */
  lemma {:induction false} Walked(s: System, steps: seq<Step>, r: System) returns (states: seq<System>)
    requires Leads(s, steps, r)
    ensures |states| == |steps| + 1 && states[0] == s && states[|steps|] == r
    ensures forall i :: 0 <= i < |steps| ==> Enabled(states[i], steps[i]) && states[i + 1] == Next(states[i], steps[i])
    decreases |steps|
  {
    if steps == [] {
      states := [s];
    } else {
      var rest := Walked(Next(s, steps[0]), steps[1..], r);
      states := [s] + rest;
      forall i | 0 <= i < |steps|
        ensures Enabled(states[i], steps[i]) && states[i + 1] == Next(states[i], steps[i])
      {
        if i > 0 {
          assert steps[i] == steps[1..][i - 1] && states[i] == rest[i - 1] && states[i + 1] == rest[i];
        }
      }
    }
  }

  const STORY: seq<Step> := CONNECT + LOGIN + AIM + HANG_UP + TELL + PART

  lemma StoryAims()
    ensures Leads(START, CONNECT + LOGIN + AIM, AIMED)
  {
    BothConnect();
    BothLogin();
    Aims();
    LeadsOn(START, CONNECT, UP, LOGIN, NAMED);
    LeadsOn(START, CONNECT + LOGIN, NAMED, AIM, AIMED);
  }

  lemma StoryEnds() returns (r: System)
    ensures Leads(START, STORY, r) && IsDestroyed(r, 1)
    ensures 1 in r.loops && r.loops[1] == LoopState([PrivateSend(1)], false, [], Idle)
  {
    StoryAims();
    var a := CONNECT + LOGIN + AIM;
    var closing := StartsClosing();
    LeadsOn(START, a, AIMED, HANG_UP, closing);
    var told := TellsTheSecond(closing);
    LeadsOn(START, a + HANG_UP, closing, TELL, told);
    r := Parts(told);
    LeadsOn(START, a + HANG_UP + TELL, told, PART, r);
  }

  /** That it happens: a run in which a queued private send runs on a connection already destroyed. */
  lemma LateSendHappens() returns (states: seq<System>, steps: seq<Step>)
    ensures IsRun(states, steps) && steps == STORY + [RunFunctor(1)]
    ensures Executes(states, steps, |STORY|, PrivateSend(1)) && IsDestroyed(states[|STORY|], 1)
  {
    var late := StoryEnds();
    var last := StepsTo(START, STORY, late, RunFunctor(1));
    var before := Walked(START, STORY, late);
    steps := STORY + [RunFunctor(1)];
    states := before + [last];
    forall i | 0 <= i < |steps| ensures Enabled(states[i], steps[i]) && states[i + 1] == Next(states[i], steps[i]) {
      if i < |STORY| {
        assert steps[i] == STORY[i] && states[i] == before[i] && states[i + 1] == before[i + 1];
      }
    }
  }
}
