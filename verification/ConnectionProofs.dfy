/** What every run of a connection keeps. */
module ConnectionProofs {
  import opened Bytes
  import opened BufferSpec
  import opened PollerSpec
  import opened ConnectionSpec

  // ---------------------------------------------------------------- the life of a connection

  datatype Phase = Unborn | Armed | Live | Muted | Downed | Dead | Gone | Bad

  /**
   * The order in which a connection may speak: one Up, messages and mask changes, at most one Down with the close
   * callback behind it, then only the removal.
   */
  function After(p: Phase, e: Event): Phase {
    match (p, e)
    case (Unborn, Update(m)) => if m != NONE_EVENT then Armed else Bad
    case (Armed, Up) => Live
    case (Live, Message) => Live
    case (Live, Update(m)) => if m != NONE_EVENT then Live else Muted
    case (Muted, Down) => Downed
    case (Downed, CloseCb) => Dead
    case (Dead, Removed) => Gone
    case _ => Bad
  }

  function PhaseOf(trace: seq<Event>): Phase {
    if trace == [] then Unborn else After(PhaseOf(trace[..|trace| - 1]), trace[|trace| - 1])
  }

  lemma PhaseLast(trace: seq<Event>, e: Event)
    ensures PhaseOf(trace + [e]) == After(PhaseOf(trace), e)
  {
    assert (trace + [e])[..|trace|] == trace;
  }

  /** Once something is out of order it stays so. */
  lemma {:induction false} BadStays(trace: seq<Event>, more: seq<Event>)
    requires PhaseOf(trace) == Bad
    ensures PhaseOf(trace + more) == Bad
    decreases |more|
  {
    if more == [] {
      assert trace + more == trace;
    } else {
      PhaseLast(trace, more[0]);
      BadStays(trace + [more[0]], more[1..]);
      assert trace + [more[0]] + more[1..] == trace + more;
    }
  }

  /** The last mask the connection asked for. */
  function LastMask(trace: seq<Event>): Mask {
    if trace == [] then NONE_EVENT
    else if trace[|trace| - 1].Update? then trace[|trace| - 1].mask
    else LastMask(trace[..|trace| - 1])
  }

  lemma LastMaskLast(trace: seq<Event>, e: Event)
    ensures LastMask(trace + [e]) == if e.Update? then e.mask else LastMask(trace)
  {
    assert (trace + [e])[..|trace|] == trace;
  }

  // ---------------------------------------------------------------- level counts

  /** The buffered lengths that went from below the mark to the mark or above, in order. */
  function Crossings(levels: seq<nat>, mark: nat): seq<nat> {
    if |levels| < 2 then []
    else
      var before, last := Crossings(levels[..|levels| - 1], mark), levels[|levels| - 1];
      if levels[|levels| - 2] < mark <= last then before + [last] else before
  }

  /** The lengths the high-water callbacks were queued with, in order. */
  function HighWaters(tasks: seq<Task>): seq<nat> {
    if tasks == [] then []
    else
      var before, last := HighWaters(tasks[..|tasks| - 1]), tasks[|tasks| - 1];
      if last.HighWater? then before + [last.length] else before
  }

  lemma CrossingsLast(levels: seq<nat>, n: nat, mark: nat)
    requires levels != []
    ensures var before := Crossings(levels, mark);
      Crossings(levels + [n], mark) == if levels[|levels| - 1] < mark <= n then before + [n] else before
  {
    assert (levels + [n])[..|levels|] == levels;
  }

  lemma HighWatersLast(tasks: seq<Task>, t: Task)
    ensures HighWaters(tasks + [t]) == if t.HighWater? then HighWaters(tasks) + [t.length] else HighWaters(tasks)
  {
    assert (tasks + [t])[..|tasks|] == tasks;
  }

  // ---------------------------------------------------------------- the invariant

  /** Written, then buffered: together the accepted messages in order, up to where a buffer overran. */
  ghost predicate StreamExact(c: Conn)
    requires Sound(c)
  {
    && c.wire + c.output.Content() <= c.accepted
    && (!c.overrun ==> c.wire + c.output.Content() == c.accepted)
  }

  /** Until closed the connection reads, and waits for the socket exactly when something is buffered. */
  ghost predicate MaskRight(c: Conn)
    requires Sound(c)
  {
    && (c.events == NONE_EVENT || c.events == READ_EVENT || c.events == READ_EVENT | WRITE_EVENT)
    && (!c.overrun && c.events != NONE_EVENT ==> (IsWriting(c) <==> c.output.Content() != []))
  }

  /** Taken by the callback, then readable: together the bytes the socket delivered, up to where a buffer overran. */
  ghost predicate InputExact(c: Conn)
    requires Sound(c)
  {
    && c.input.reader == CHEAP_PREPEND
    && c.consumed + c.input.Content() <= c.delivered
    && (!c.overrun ==> c.consumed + c.input.Content() == c.delivered)
  }

  ghost predicate LevelsRight(cfg: Config, c: Conn)
    requires Sound(c)
  {
    && c.levels != []
    && (!c.overrun ==> c.levels[|c.levels| - 1] == c.output.Readable())
    && HighWaters(c.tasks) == Crossings(c.levels, cfg.highWaterMark)
  }

  /** When a write-complete was queued, everything accepted until then was on the wire. */
  ghost predicate CompletesRight(c: Conn) {
    forall i :: 0 <= i < |c.tasks| && c.tasks[i].WriteComplete? ==> c.tasks[i].accepted <= |c.wire|
  }

  ghost predicate TraceRight(c: Conn) {
    && c.state != Disconnecting
    && (c.state == Connecting <==> PhaseOf(c.trace) == Unborn)
    && (c.events != NONE_EVENT <==> PhaseOf(c.trace) == Live)
    && (c.state == Connected ==> c.events != NONE_EVENT)
    && PhaseOf(c.trace) in {Unborn, Live, Dead, Gone}
    && (PhaseOf(c.trace) == Gone <==> Removed in c.trace)
    && c.events == LastMask(c.trace)
  }

  /** The socket was shut down with nothing left to write, or after the close. */
  ghost predicate ShutRight(c: Conn)
    requires Sound(c)
  {
    && (c.asked ==> c.state == Disconnected)
    && (c.shutdowns > 0 ==> c.state == Disconnected && !IsWriting(c))
  }

  /** The parts that do not look at state, mask and trace. */
  ghost predicate FlowRight(cfg: Config, c: Conn) {
    Sound(c) && StreamExact(c) && InputExact(c) && LevelsRight(cfg, c) && CompletesRight(c)
  }

  /** The parts that do. */
  ghost predicate LifeRight(c: Conn)
    requires Sound(c)
  {
    MaskRight(c) && TraceRight(c) && ShutRight(c) && (c.state == Connecting ==> c == Created())
  }

  ghost predicate Inv(cfg: Config, c: Conn) {
    FlowRight(cfg, c) && LifeRight(c)
  }

  lemma CreatedInv(cfg: Config)
    ensures Inv(cfg, Created())
  {
  }

  // ---------------------------------------------------------------- handlers keep it

  /** Only state, mask, trace and shutdowns changed. */
  lemma FlowStays(cfg: Config, c: Conn, r: Conn)
    requires FlowRight(cfg, c)
    requires r == c.(state := r.state, events := r.events, trace := r.trace, shutdowns := r.shutdowns, asked := r.asked)
    ensures FlowRight(cfg, r)
  {
  }

  lemma WriteNowInv(cfg: Config, c: Conn, data: bytes, complete: bool)
    requires Inv(cfg, c) && !c.overrun && c.state == Connected && c.output.Readable() == 0
    ensures Inv(cfg, WriteNow(cfg, c, data, complete))
  {
    assert c.output.Content() == [] && c.wire + data + [] == c.wire + data;
    assert c.wire == c.accepted;
    HighWatersLast(c.tasks, WriteComplete(|c.accepted + data|));
  }

  lemma NoteLevelCounts(cfg: Config, c: Conn, oldLen: nat, newLen: nat)
    requires c.levels != [] && c.levels[|c.levels| - 1] == oldLen
    requires HighWaters(c.tasks) == Crossings(c.levels, cfg.highWaterMark)
    ensures var r := NoteLevel(cfg, c, oldLen, newLen);
      HighWaters(r.tasks) == Crossings(r.levels, cfg.highWaterMark)
  {
    CrossingsLast(c.levels, newLen, cfg.highWaterMark);
    HighWatersLast(c.tasks, HighWater(newLen));
  }

  lemma NoteLevelCompletes(cfg: Config, c: Conn, oldLen: nat, newLen: nat)
    requires CompletesRight(c)
    ensures CompletesRight(NoteLevel(cfg, c, oldLen, newLen))
  {
  }

  lemma MaskChangeRight(c: Conn, r: Conn)
    requires TraceRight(c) && PhaseOf(c.trace) == Live && r.state == c.state
    requires r.events != NONE_EVENT && r.trace == c.trace + [Update(r.events)]
    ensures TraceRight(r)
  {
    PhaseLast(c.trace, Update(r.events));
    LastMaskLast(c.trace, Update(r.events));
  }

  /** Watching the socket once something is buffered. */
  lemma WatchInv(cfg: Config, c: Conn)
    requires Sound(c) && !c.overrun && c.state == Connected && c.output.Content() != []
    requires FlowRight(cfg, c) && TraceRight(c) && ShutRight(c)
    requires c.events == READ_EVENT || c.events == READ_EVENT | WRITE_EVENT
    ensures Inv(cfg, Watch(c))
  {
    var r := Watch(c);
    assert r.events == READ_EVENT | WRITE_EVENT && IsWriting(r);
    FlowStays(cfg, c, r);
    if r.trace != c.trace {
      MaskChangeRight(c, r);
    }
  }

  lemma NotedRight(cfg: Config, c: Conn, rest: bytes)
    requires Sound(c) && !c.overrun && LevelsRight(cfg, c)
    ensures var r := Noted(cfg, c, rest);
      && HighWaters(r.tasks) == Crossings(r.levels, cfg.highWaterMark)
      && r.levels != [] && r.levels[|r.levels| - 1] == c.output.Readable() + |rest|
  {
    var c1 := c.(accepted := c.accepted + rest);
    NoteLevelCounts(cfg, c1, c.output.Readable(), c.output.Readable() + |rest|);
  }

  /** What is buffered of the rest follows what was written and buffered. */
  lemma NotedStream(cfg: Config, c: Conn, rest: bytes, out: Buf, overrun: bool)
    requires Sound(c) && StreamExact(c) && !c.overrun && out.Valid()
    requires out.Content() == c.output.Content() + if overrun then [] else rest
    ensures StreamExact(Noted(cfg, c, rest).(output := out, overrun := overrun))
  {
    var r := Noted(cfg, c, rest).(output := out, overrun := overrun);
    assert r.wire == c.wire && r.accepted == c.accepted + rest && c.wire + c.output.Content() == c.accepted;
    if overrun {
      assert out.Content() == c.output.Content();
    } else {
      Assoc(c.wire, c.output.Content(), rest);
    }
  }

  lemma NotedLevels(cfg: Config, c: Conn, rest: bytes, out: Buf, overrun: bool)
    requires Sound(c) && LevelsRight(cfg, c) && !c.overrun && out.Valid()
    requires !overrun ==> out.Readable() == c.output.Readable() + |rest|
    ensures LevelsRight(cfg, Noted(cfg, c, rest).(output := out, overrun := overrun))
  {
    NotedRight(cfg, c, rest);
  }

  lemma NotedCompletes(cfg: Config, c: Conn, rest: bytes, out: Buf, overrun: bool)
    requires Sound(c) && CompletesRight(c)
    ensures CompletesRight(Noted(cfg, c, rest).(output := out, overrun := overrun))
  {
    NoteLevelCompletes(cfg, c.(accepted := c.accepted + rest), c.output.Readable(), c.output.Readable() + |rest|);
  }

  /** Buffered or not, the rest is accepted. */
  lemma NotedFlow(cfg: Config, c: Conn, rest: bytes, out: Buf, overrun: bool)
    requires FlowRight(cfg, c) && !c.overrun && out.Valid()
    requires out.Content() == c.output.Content() + if overrun then [] else rest
    ensures FlowRight(cfg, Noted(cfg, c, rest).(output := out, overrun := overrun))
  {
    var r := Noted(cfg, c, rest).(output := out, overrun := overrun);
    assert |out.Content()| == out.Readable();
    NotedLevels(cfg, c, rest, out, overrun);
    NotedCompletes(cfg, c, rest, out, overrun);
    NotedStream(cfg, c, rest, out, overrun);
    assert r.input == c.input && r.consumed == c.consumed && r.delivered == c.delivered;
    assert InputExact(r);
  }

  lemma OverrunInv(cfg: Config, c: Conn, rest: bytes, out: Buf)
    requires Inv(cfg, c) && !c.overrun && c.state == Connected && out.Valid() && out.Content() == c.output.Content()
    ensures Inv(cfg, Noted(cfg, c, rest).(output := out, overrun := true))
  {
    assert c.output.Content() + [] == c.output.Content();
    NotedFlow(cfg, c, rest, out, true);
  }

  lemma FilledInv(cfg: Config, c: Conn, rest: bytes, out: Buf)
    requires Inv(cfg, c) && !c.overrun && c.state == Connected && rest != []
    requires out.Valid() && out.Content() == c.output.Content() + rest
    ensures Inv(cfg, Watch(Noted(cfg, c, rest).(output := out)))
  {
    var r := Noted(cfg, c, rest).(output := out);
    assert r == r.(overrun := false);
    NotedFlow(cfg, c, rest, out, false);
    WatchInv(cfg, r);
  }

  lemma BufferRestInv(cfg: Config, c: Conn, rest: bytes)
    requires Inv(cfg, c) && !c.overrun && c.state == Connected && rest != []
    ensures Inv(cfg, BufferRest(cfg, c, rest))
  {
    if c.output.Overruns(|rest|) {
      OverrunInv(cfg, c, rest, Ensure(c.output, |rest|, 0));
    } else {
      FilledInv(cfg, c, rest, Append(c.output, rest));
    }
  }

  lemma SendInLoopInv(cfg: Config, c: Conn, msg: bytes, result: WriteResult)
    requires Inv(cfg, c) && c.state != Connecting
    ensures Inv(cfg, SendInLoop(cfg, c, msg, result))
  {
    if !(c.overrun || Drops(c, result)) {
      var n := if Direct(c) then Count(result, |msg|) else 0;
      if Direct(c) {
        WriteNowInv(cfg, c, msg[..n], result.Wrote? && n == |msg|);
      }
      var c1 := if Direct(c) then WriteNow(cfg, c, msg[..n], result.Wrote? && n == |msg|) else c;
      if n != |msg| {
        BufferRestInv(cfg, c1, msg[n..]);
      }
    }
  }

  lemma DrainedFlow(cfg: Config, c: Conn, n: nat)
    requires FlowRight(cfg, c) && !c.overrun && n <= c.output.Readable()
    ensures FlowRight(cfg, Drained(c, n))
    ensures Drained(c, n).output.Content() == c.output.Content()[n..]
  {
    var r, content := Drained(c, n), c.output.Content();
    assert content == content[..n] + content[n..];
    Assoc(c.wire, content[..n], content[n..]);
    assert r.output.Content() == content[n..];
    assert r.output.Readable() == |content[n..]|;
    CrossingsLast(c.levels, c.output.Readable() - n, cfg.highWaterMark);
  }

  lemma CompleteFlow(cfg: Config, c: Conn)
    requires FlowRight(cfg, c) && c.wire == c.accepted
    ensures FlowRight(cfg, QueueComplete(cfg, c))
  {
    HighWatersLast(c.tasks, WriteComplete(|c.accepted|));
  }

  lemma EmptiedInv(cfg: Config, c: Conn)
    requires FlowRight(cfg, c) && TraceRight(c) && ShutRight(c) && !c.overrun
    requires c.output.Content() == [] && c.events == READ_EVENT | WRITE_EVENT
    ensures Inv(cfg, Emptied(cfg, c))
  {
    var c1 := SetEvents(c, READ_EVENT);
    assert NewMask(DisableWriting, c.events) == READ_EVENT && !IsWriting(c1);
    MaskChangeRight(c, c1);
    FlowStays(cfg, c, c1);
    assert c1.wire == c1.accepted;
    CompleteFlow(cfg, c1);
  }

  lemma HandleWriteInv(cfg: Config, c: Conn, result: WriteResult)
    requires Inv(cfg, c)
    ensures Inv(cfg, HandleWrite(cfg, c, result))
  {
    var n := Count(result, c.output.Readable());
    if !(c.overrun || !IsWriting(c) || n == 0) {
      assert c.events == READ_EVENT | WRITE_EVENT;
      DrainedFlow(cfg, c, n);
      if n == c.output.Readable() {
        EmptiedInv(cfg, Drained(c, n));
      } else {
        assert c.output.Content()[n..] != [];
      }
    }
  }

  /** A change of state and shutdown counts alone, away from kConnecting. */
  lemma ShutInv(cfg: Config, c: Conn, r: Conn)
    requires Inv(cfg, c) && c.state != Connecting && r.state == Disconnected
    requires r == c.(state := r.state, shutdowns := r.shutdowns, asked := r.asked)
    requires r.shutdowns > 0 ==> !IsWriting(c)
    ensures Inv(cfg, r)
  {
    FlowStays(cfg, c, r);
  }

  lemma ShutdownInv(cfg: Config, c: Conn)
    requires Inv(cfg, c)
    ensures Inv(cfg, Shutdown(c)) && Inv(cfg, ShutdownElsewhere(c))
    ensures c.asked ==> Inv(cfg, ShutdownRuns(c))
  {
    if c.state == Connected && !c.overrun {
      ShutInv(cfg, c, Shutdown(c));
      ShutInv(cfg, c, ShutdownElsewhere(c));
    }
    if c.asked {
      ShutInv(cfg, c, ShutdownRuns(c));
    }
  }

  lemma EstablishedInv(cfg: Config, c: Conn)
    requires Inv(cfg, c) && c.state == Connecting
    ensures Inv(cfg, Established(c))
  {
    PhaseLast([], Update(READ_EVENT));
    PhaseLast([Update(READ_EVENT)], Up);
    assert NONE_EVENT | READ_EVENT == READ_EVENT;
    assert [] + [Update(READ_EVENT)] == [Update(READ_EVENT)];
    var r := Established(c);
    assert r.trace == [Update(READ_EVENT)] + [Up];
    LastMaskLast([Update(READ_EVENT)], Up);
    assert !IsWriting(r);
  }

  /** The mask goes, then the down callback, then the close callback. */
  lemma CloseTrace(t: seq<Event>)
    ensures var muted := t + [Update(NONE_EVENT)];
      && PhaseOf(muted + [Down]) == After(After(PhaseOf(t), Update(NONE_EVENT)), Down)
      && PhaseOf(muted + [Down] + [CloseCb]) == After(After(After(PhaseOf(t), Update(NONE_EVENT)), Down), CloseCb)
      && LastMask(muted + [Down] + [CloseCb]) == NONE_EVENT
  {
    LastMaskLast(t, Update(NONE_EVENT));
    LastMaskLast(t + [Update(NONE_EVENT)], Down);
    LastMaskLast(t + [Update(NONE_EVENT)] + [Down], CloseCb);
    var muted := t + [Update(NONE_EVENT)];
    PhaseLast(t, Update(NONE_EVENT));
    PhaseLast(muted, Down);
    PhaseLast(muted + [Down], CloseCb);
  }

  /** Closed with that trace: the life of the connection is in order. */
  lemma ClosedLife(c: Conn, r: Conn)
    requires Sound(c) && LifeRight(c) && c.events != NONE_EVENT && Sound(r)
    requires r.state == Disconnected && r.events == NONE_EVENT
    requires PhaseOf(r.trace) == Dead && Removed !in r.trace && LastMask(r.trace) == NONE_EVENT
    ensures LifeRight(r)
  {
    assert !IsWriting(r);
  }

  lemma HandleCloseInv(cfg: Config, c: Conn)
    requires Inv(cfg, c) && c.events != NONE_EVENT
    ensures Inv(cfg, HandleClose(c))
    ensures !c.overrun ==> HandleClose(c).events == NONE_EVENT
  {
    if !c.overrun {
      var r := HandleClose(c);
      assert r.trace == c.trace + [Update(NONE_EVENT)] + [Down] + [CloseCb];
      CloseTrace(c.trace);
      FlowStays(cfg, c, r);
      ClosedLife(c, r);
    }
  }

  lemma RemovedTrace(t: seq<Event>)
    requires PhaseOf(t) == Dead
    ensures PhaseOf(t + [Removed]) == Gone && Removed in t + [Removed] && LastMask(t + [Removed]) == LastMask(t)
  {
    LastMaskLast(t, Removed);
    PhaseLast(t, Removed);
    assert (t + [Removed])[|t|] == Removed;
  }

  lemma RemovedLife(c: Conn, r: Conn)
    requires Sound(c) && LifeRight(c) && PhaseOf(c.trace) == Dead && c.events == NONE_EVENT
    requires r == c.(trace := r.trace) && PhaseOf(r.trace) == Gone && Removed in r.trace
    requires LastMask(r.trace) == LastMask(c.trace)
    ensures LifeRight(r)
  {
  }

  lemma DestroyedInv(cfg: Config, c: Conn)
    requires Inv(cfg, c) && Enabled(c, CallDestroyed)
    ensures Inv(cfg, Destroyed(c))
  {
    if !c.overrun {
      RemovedTrace(c.trace);
      FlowStays(cfg, c, Destroyed(c));
      RemovedLife(c, Destroyed(c));
    }
  }

  // ---------------------------------------------------------------- input

  lemma RunActInv(cfg: Config, c: Conn, act: Act)
    requires Inv(cfg, c)
    ensures Inv(cfg, RunAct(cfg, c, act))
  {
    match act {
      case ActSend(msg, result) =>
        if c.state == Connected {
          SendInLoopInv(cfg, c, msg, result);
        }
      case ActShutdown => ShutdownInv(cfg, c);
    }
  }

  lemma {:induction false} RunActsInv(cfg: Config, c: Conn, acts: seq<Act>)
    requires Inv(cfg, c)
    ensures Inv(cfg, RunActs(cfg, c, acts))
    decreases |acts|
  {
    if acts != [] {
      RunActInv(cfg, c, acts[0]);
      RunActsInv(cfg, RunAct(cfg, c, acts[0]), acts[1..]);
    }
  }

  lemma TakeInv(cfg: Config, c: Conn, take: bool)
    requires Inv(cfg, c) && c.state != Connecting
    ensures Inv(cfg, Take(c, take))
  {
    if take {
      AllAsString(c.input);
      assert c.consumed + c.input.Content() + [] == c.consumed + c.input.Content();
    }
  }

  lemma ReceivedInv(cfg: Config, c: Conn, data: bytes)
    requires Inv(cfg, c) && c.events != NONE_EVENT && !c.overrun && !c.input.SpillOverruns(|data|)
    ensures Inv(cfg, Received(c, data))
  {
    PhaseLast(c.trace, Message);
    LastMaskLast(c.trace, Message);
    Assoc(c.consumed, c.input.Content(), data);
    assert ReadFd(c.input, data).Content() == c.input.Content() + data;
  }

  lemma SpilledOverInv(cfg: Config, c: Conn, data: bytes)
    requires Inv(cfg, c) && c.events != NONE_EVENT && !c.overrun && c.input.SpillOverruns(|data|)
    ensures Inv(cfg, SpilledOver(c, data))
  {
    var fits := data[..c.input.Writable()];
    assert Spilled(c.input, data).Content() == c.input.Content() + fits;
    Assoc(c.consumed, c.input.Content(), fits);
    assert data == fits + data[c.input.Writable()..];
    Assoc(c.delivered, fits, data[c.input.Writable()..]);
  }

  lemma HandleReadInv(cfg: Config, c: Conn, result: ReadResult, take: bool, acts: seq<Act>)
    requires Inv(cfg, c) && c.events != NONE_EVENT
    ensures Inv(cfg, HandleRead(cfg, c, result, take, acts))
  {
    if c.overrun || result.ReadError? {
    } else if result.data == [] {
      HandleCloseInv(cfg, c);
    } else if c.input.SpillOverruns(|result.data|) {
      SpilledOverInv(cfg, c, result.data);
    } else {
      var c1 := Received(c, result.data);
      ReceivedInv(cfg, c, result.data);
      TakeInv(cfg, c1, take);
      RunActsInv(cfg, Take(c1, take), acts);
    }
  }

  lemma DispatchInv(cfg: Config, c: Conn, revents: Mask, read: ReadResult, take: bool, acts: seq<Act>,
                    write: WriteResult)
    requires Inv(cfg, c) && c.events != NONE_EVENT && !HangupWithPri(revents)
    ensures Inv(cfg, Dispatch(cfg, c, revents, read, take, acts, write))
  {
    var c1 := if HangsUp(revents) then HandleClose(c) else c;
    if HangsUp(revents) {
      HandleCloseInv(cfg, c);
      assert revents & (EPOLLIN | EPOLLPRI) == 0;
    }
    var c2 := if revents & (EPOLLIN | EPOLLPRI) != 0 then HandleRead(cfg, c1, read, take, acts) else c1;
    if revents & (EPOLLIN | EPOLLPRI) != 0 {
      HandleReadInv(cfg, c1, read, take, acts);
    }
    HandleWriteInv(cfg, c2, write);
  }

  // ---------------------------------------------------------------- runs

  lemma PerformInv(cfg: Config, c: Conn, call: Call)
    requires Inv(cfg, c) && Enabled(c, call)
    ensures Inv(cfg, Perform(cfg, c, call))
  {
    match call {
      case CallEstablished => EstablishedInv(cfg, c);
      case CallSend(msg, result) => SendInLoopInv(cfg, c, msg, result);
      case CallDispatch(revents, read, take, acts, write) => DispatchInv(cfg, c, revents, read, take, acts, write);
      case CallDestroyed => DestroyedInv(cfg, c);
      case _ => ShutdownInv(cfg, c);
    }
  }

  lemma {:induction false} PerformAllInv(cfg: Config, c: Conn, calls: seq<Call>)
    requires Inv(cfg, c) && Possible(cfg, c, calls)
    ensures Inv(cfg, PerformAll(cfg, c, calls))
    decreases |calls|
  {
    if calls != [] {
      PerformInv(cfg, c, calls[0]);
      PerformAllInv(cfg, Perform(cfg, c, calls[0]), calls[1..]);
    }
  }
}
