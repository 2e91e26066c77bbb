/** What the runs of a connection promise its owner, its peer and its poller. */
module ConnectionTheorems {
  import opened Bytes
  import opened BufferSpec
  import opened PollerSpec
  import opened ConnectionSpec
  import opened ConnectionProofs

  // ---------------------------------------------------------------- output

  /**
   * Output stream exactness: for every sequence of sends, write-ready events and shutdowns, and every partial write
   * or error, what was written followed by what is buffered is the accepted messages in order - all of them, unless a
   * buffer overran. Until closed, the connection waits for the socket exactly when something is buffered.
   */
  lemma OutputStreamExact(cfg: Config, calls: seq<Call>)
    requires Possible(cfg, Created(), calls)
    ensures var c := PerformAll(cfg, Created(), calls);
      && c.wire + c.output.Content() <= c.accepted
      && (!c.overrun ==> c.wire + c.output.Content() == c.accepted)
      && (!c.overrun && c.events != NONE_EVENT ==> (IsWriting(c) <==> c.output.Content() != []))
  {
    CreatedInv(cfg);
    PerformAllInv(cfg, Created(), calls);
  }

  /** What a write of `whole` puts on the wire: as much as the socket says it took, nothing on an error. */
  ghost predicate SocketTook(whole: bytes, result: WriteResult, sent: bytes) {
    && sent <= whole
    && match result
       case Wrote(n) => if n <= |whole| then |sent| == n else sent == whole
       case _ => sent == []
  }

  lemma TookIsCount(whole: bytes, result: WriteResult, sent: bytes)
    requires SocketTook(whole, result, sent)
    ensures sent == whole[..Count(result, |whole|)] && whole == sent + whole[|sent|..]
  {
  }

  /**
   * A send is accepted whole, or not at all: exactly when disconnected or told that the peer is gone. What the socket
   * takes is written, the rest buffered behind what was buffered.
   */
  lemma SendAcceptsWhole(cfg: Config, c: Conn, msg: bytes, result: WriteResult, sent: bytes)
    requires Inv(cfg, c) && !c.overrun && c.state != Connecting && SocketTook(msg, result, sent)
    ensures var r, direct := SendInLoop(cfg, c, msg, result), c.output.Content() == [];
      if c.state == Disconnected || (direct && result.PeerGone?) then r == c
      else
        && r.accepted == c.accepted + msg
        && r.wire == c.wire + (if direct then sent else [])
        && (!r.overrun ==> r.output.Content() == if direct then msg[|sent|..] else c.output.Content() + msg)
  {
    SendInLoopInv(cfg, c, msg, result);
    TookIsCount(msg, result, sent);
    assert c.wire + [] == c.wire;
    assert c.state == Connected ==> (Direct(c) <==> c.output.Content() == []);
    if c.state == Connected && Direct(c) && !result.PeerGone? {
      DirectSend(cfg, c, msg, result, sent);
    } else if c.state == Connected && !Direct(c) {
      BufferedSend(cfg, c, msg, result);
    }
  }

  lemma DirectSend(cfg: Config, c: Conn, msg: bytes, result: WriteResult, sent: bytes)
    requires Sound(c) && !c.overrun && c.state == Connected && Direct(c) && !result.PeerGone?
    requires SocketTook(msg, result, sent)
    ensures var r := SendInLoop(cfg, c, msg, result);
      && r.accepted == c.accepted + msg && r.wire == c.wire + sent
      && (!r.overrun ==> r.output.Content() == msg[|sent|..])
  {
    TookIsCount(msg, result, sent);
    Assoc(c.accepted, sent, msg[|sent|..]);
    assert c.output.Content() == [] && [] + msg[|sent|..] == msg[|sent|..];
  }

  lemma BufferedSend(cfg: Config, c: Conn, msg: bytes, result: WriteResult)
    requires Sound(c) && !c.overrun && c.state == Connected && !Direct(c)
    ensures var r := SendInLoop(cfg, c, msg, result);
      && r.accepted == c.accepted + msg && r.wire == c.wire
      && (!r.overrun ==> r.output.Content() == c.output.Content() + msg)
  {
    assert msg[0..] == msg && c.accepted + [] == c.accepted && c.output.Content() + [] == c.output.Content();
  }

  /** A send leaves the vector exactly when what it has to buffer falls in the buffer's 8-wide window. */
  lemma SendOverrunsExactly(cfg: Config, c: Conn, msg: bytes, result: WriteResult, sent: bytes)
    requires Inv(cfg, c) && !c.overrun && c.state == Connected && SocketTook(msg, result, sent)
    requires c.output.Content() == [] ==> !result.PeerGone?
    ensures var rest := if c.output.Content() == [] then |msg| - |sent| else |msg|;
      SendInLoop(cfg, c, msg, result).overrun <==> rest > 0 && c.output.Overruns(rest)
  {
    assert Direct(c) <==> c.output.Content() == [];
  }

  /** A write-ready event writes exactly what the socket takes of the buffer, and takes it out of the buffer. */
  lemma HandleWriteExact(cfg: Config, c: Conn, result: WriteResult, sent: bytes)
    requires Inv(cfg, c) && !c.overrun && SocketTook(c.output.Content(), result, sent)
    ensures var r := HandleWrite(cfg, c, result);
      if c.events == NONE_EVENT then r == c
      else r.wire == c.wire + sent && r.output.Content() == c.output.Content()[|sent|..] && !r.overrun
  {
    TookIsCount(c.output.Content(), result, sent);
    assert |c.output.Content()| == c.output.Readable();
    if IsWriting(c) && sent != [] {
      DrainedFlow(cfg, c, |sent|);
    } else if c.events != NONE_EVENT {
      assert sent == [];
      assert c.wire + sent == c.wire && c.output.Content()[|sent|..] == c.output.Content();
    }
  }

  // ---------------------------------------------------------------- levels and shutdown

  /**
   * The high-water callbacks queued are, with their lengths and in order, the upward crossings of the mark by the
   * buffered length; a write-complete was queued only with everything accepted until then on the wire; the socket of
   * a connection not closed yet is shut down only with everything accepted on the wire.
   */
  lemma LevelsExact(cfg: Config, calls: seq<Call>)
    requires Possible(cfg, Created(), calls)
    ensures var c := PerformAll(cfg, Created(), calls);
      && HighWaters(c.tasks) == Crossings(c.levels, cfg.highWaterMark)
      && (!c.overrun ==> c.levels != [] && c.levels[|c.levels| - 1] == c.output.Readable())
      && CompletesRight(c)
      && (c.shutdowns > 0 && c.events != NONE_EVENT && !c.overrun ==> c.wire == c.accepted)
  {
    CreatedInv(cfg);
    PerformAllInv(cfg, Created(), calls);
    var c := PerformAll(cfg, Created(), calls);
    if c.shutdowns > 0 && c.events != NONE_EVENT && !c.overrun {
      assert c.output.Content() == [];
    }
  }

  /** A write-ready event queues write-complete exactly when it empties the buffer; everything accepted is then out. */
  lemma WriteCompleteExact(cfg: Config, c: Conn, result: WriteResult)
    requires Inv(cfg, c) && !c.overrun && c.events != NONE_EVENT
    ensures var r := HandleWrite(cfg, c, result);
      && (r.tasks != c.tasks <==> cfg.hasWriteComplete && c.output.Content() != [] && r.output.Content() == [])
      && (r.tasks != c.tasks ==> r.tasks == c.tasks + [WriteComplete(|c.accepted|)] && r.wire == c.accepted)
  {
    HandleWriteInv(cfg, c, result);
    var n := Count(result, c.output.Readable());
    if IsWriting(c) && n > 0 {
      DrainedFlow(cfg, c, n);
    }
  }

  /** Buffering the rest of a message queues no write-complete. */
  lemma BufferRestTasks(cfg: Config, c: Conn, rest: bytes)
    requires Sound(c)
    ensures var r := BufferRest(cfg, c, rest);
      r.tasks == c.tasks || (|r.tasks| == |c.tasks| + 1 && r.tasks[|c.tasks|].HighWater?)
  {
  }

  /** A send queues write-complete exactly when the socket took the whole message at once. */
  lemma SendCompleteExact(cfg: Config, c: Conn, msg: bytes, result: WriteResult)
    requires Sound(c) && !c.overrun
    ensures var r := SendInLoop(cfg, c, msg, result);
      r.tasks == c.tasks + [WriteComplete(|r.accepted|)] <==>
        cfg.hasWriteComplete && !Drops(c, result) && Direct(c) && result.Wrote? && r.wire == c.wire + msg
  {
    if !Drops(c, result) {
      var n := if Direct(c) then Count(result, |msg|) else 0;
      var c1 := if Direct(c) then WriteNow(cfg, c, msg[..n], result.Wrote? && n == |msg|) else c;
      assert msg[..|msg|] == msg;
      if n != |msg| {
        BufferRestTasks(cfg, c1, msg[n..]);
      }
    }
  }

  /** `Shutdown` reaches the socket exactly when the connection is up with nothing buffered. */
  lemma ShutdownExact(cfg: Config, c: Conn)
    requires Inv(cfg, c) && !c.overrun
    ensures Shutdown(c).shutdowns ==
            c.shutdowns + (if c.state == Connected && c.output.Content() == [] then 1 else 0)
    ensures c.state == Connected ==> Shutdown(c).state == Disconnected
  {
  }

  /** The socket is shut down although accepted bytes were not written. */
  ghost predicate CutsOff(c: Conn, r: Conn) {
    r.shutdowns > c.shutdowns && r.wire != r.accepted
  }

  /** A queued ShutdownInLoop cuts output off exactly when the connection was closed in between with output buffered. */
  lemma QueuedShutdownExact(cfg: Config, c: Conn)
    requires Inv(cfg, c) && !c.overrun && c.asked
    ensures CutsOff(c, ShutdownRuns(c)) <==> c.events == NONE_EVENT && c.output.Content() != []
  {
    assert |c.accepted| == |c.wire| + |c.output.Content()|;
    if c.output.Content() == [] {
      assert c.wire + [] == c.wire;
    }
  }

  lemma WriteKeepsMask(cfg: Config, c: Conn, result: WriteResult)
    requires Inv(cfg, c)
    ensures HandleWrite(cfg, c, result).shutdowns == c.shutdowns
    ensures c.events != NONE_EVENT ==> HandleWrite(cfg, c, result).events != NONE_EVENT
  {
    assert NewMask(DisableWriting, READ_EVENT | WRITE_EVENT) == READ_EVENT;
  }

  lemma WatchingIsSome(m: Mask)
    ensures NewMask(EnableWriting, m) != NONE_EVENT
  {
    assert (m | WRITE_EVENT) & WRITE_EVENT == WRITE_EVENT;
  }

  lemma StoreKeepsMask(c: Conn, rest: bytes)
    requires Sound(c) && c.events != NONE_EVENT
    ensures StoreRest(c, rest).events != NONE_EVENT
  {
    WatchingIsSome(c.events);
  }

  lemma ActKeepsMask(cfg: Config, c: Conn, act: Act)
    requires Sound(c) && c.events != NONE_EVENT
    ensures RunAct(cfg, c, act).events != NONE_EVENT
  {
    if act.ActSend? && c.state == Connected && !c.overrun && !Drops(c, act.result) {
      var n := if Direct(c) then Count(act.result, |act.msg|) else 0;
      var c1 := if Direct(c) then WriteNow(cfg, c, act.msg[..n], act.result.Wrote? && n == |act.msg|) else c;
      assert c1.events == c.events;
      if n != |act.msg| {
        StoreKeepsMask(Noted(cfg, c1, act.msg[n..]), act.msg[n..]);
      }
    }
  }

  lemma {:induction false} ActsKeepMask(cfg: Config, c: Conn, acts: seq<Act>)
    requires Sound(c) && c.events != NONE_EVENT
    ensures RunActs(cfg, c, acts).events != NONE_EVENT
    decreases |acts|
  {
    if acts != [] {
      ActKeepsMask(cfg, c, acts[0]);
      ActsKeepMask(cfg, RunAct(cfg, c, acts[0]), acts[1..]);
    }
  }

  lemma ReadShuts(cfg: Config, c: Conn, read: ReadResult, take: bool, acts: seq<Act>)
    requires Sound(c) && c.events != NONE_EVENT
    ensures var r := HandleRead(cfg, c, read, take, acts); r.shutdowns == c.shutdowns || r.events != NONE_EVENT
  {
    if read.ReadOk? && read.data != [] && !c.overrun && !c.input.SpillOverruns(|read.data|) {
      ActsKeepMask(cfg, Take(Received(c, read.data), take), acts);
    }
  }

  /** A dispatch shuts the socket of a connection it leaves open only. */
  lemma DispatchShuts(cfg: Config, c: Conn, revents: Mask, read: ReadResult, take: bool, acts: seq<Act>,
                      write: WriteResult)
    requires Inv(cfg, c) && c.events != NONE_EVENT && !HangupWithPri(revents)
    ensures var r := Dispatch(cfg, c, revents, read, take, acts, write);
      r.shutdowns == c.shutdowns || r.events != NONE_EVENT
  {
    var c1 := if HangsUp(revents) then HandleClose(c) else c;
    if HangsUp(revents) {
      HandleCloseInv(cfg, c);
      assert revents & (EPOLLIN | EPOLLPRI) == 0;
    } else {
      ReadShuts(cfg, c1, read, take, acts);
      HandleReadInv(cfg, c1, read, take, acts);
    }
    var c2 := if revents & (EPOLLIN | EPOLLPRI) != 0 then HandleRead(cfg, c1, read, take, acts) else c1;
    WriteKeepsMask(cfg, c2, write);
  }

  /** With the mask still up and no overrun, a socket already shut down has everything accepted on the wire. */
  lemma ShutOpenDrained(cfg: Config, r: Conn)
    requires Inv(cfg, r) && !r.overrun && r.shutdowns > 0 && r.events != NONE_EVENT
    ensures r.wire == r.accepted
  {
    assert r.output.Content() == [];
  }

  lemma DispatchDrains(cfg: Config, c: Conn, call: Call)
    requires Inv(cfg, c) && call.CallDispatch? && Enabled(c, call) && !Perform(cfg, c, call).overrun
    ensures !CutsOff(c, Perform(cfg, c, call))
  {
    DispatchShuts(cfg, c, call.revents, call.read, call.take, call.acts, call.write);
    DispatchInv(cfg, c, call.revents, call.read, call.take, call.acts, call.write);
    var r := Perform(cfg, c, call);
    if r.shutdowns > c.shutdowns {
      ShutOpenDrained(cfg, r);
    }
  }

  lemma LoopShutdownDrains(cfg: Config, c: Conn)
    requires Inv(cfg, c) && !c.overrun
    ensures !CutsOff(c, Shutdown(c))
  {
    ShutdownInv(cfg, c);
    if Shutdown(c).shutdowns > c.shutdowns {
      ShutOpenDrained(cfg, Shutdown(c));
    }
  }

  /** The other calls never shut the socket. */
  lemma OthersShutNothing(cfg: Config, c: Conn, call: Call)
    requires Sound(c) && !call.CallDispatch? && !call.CallShutdown? && !call.CallShutdownInLoop?
    ensures Perform(cfg, c, call).shutdowns == c.shutdowns
  {
  }

  /**
   * Of all calls in all runs, exactly one kind shuts the socket with accepted bytes unwritten: a ShutdownInLoop
   * queued from another thread that runs after the close, with output still buffered.
   */
  lemma CutsOffExactly(cfg: Config, c: Conn, call: Call)
    requires Inv(cfg, c) && Enabled(c, call) && !Perform(cfg, c, call).overrun
    ensures CutsOff(c, Perform(cfg, c, call)) <==>
            call.CallShutdownInLoop? && c.events == NONE_EVENT && c.output.Content() != []
  {
    match call {
      case CallShutdownInLoop => QueuedShutdownExact(cfg, c);
      case CallDispatch(_, _, _, _, _) => DispatchDrains(cfg, c, call);
      case CallShutdown => LoopShutdownDrains(cfg, c);
      case _ => OthersShutNothing(cfg, c, call);
    }
  }

  const HANGUP: Call := CallDispatch(EPOLLHUP, ReadError, false, [], WouldBlock)

  /** One byte waits for the socket, another thread shuts down, the peer hangs up, the queued shutdown runs. */
  const CUT_OFF: seq<Call> :=
    [CallEstablished] + ([CallSend([1], WouldBlock)] + ([CallShutdownElsewhere] + ([HANGUP] + [CallShutdownInLoop])))

  lemma FirstCall(cfg: Config, c: Conn, call: Call, calls: seq<Call>)
    requires Sound(c) && Enabled(c, call)
    ensures Possible(cfg, c, [call] + calls) <==> Possible(cfg, Perform(cfg, c, call), calls)
    ensures PerformAll(cfg, c, [call] + calls) == PerformAll(cfg, Perform(cfg, c, call), calls)
  {
    assert ([call] + calls)[1..] == calls;
  }

  /** One byte is accepted, none written. */
  ghost predicate OneWaits(c: Conn) {
    Sound(c) && !c.overrun && c.shutdowns == 0 && c.wire == [] && c.accepted == [1]
  }

  /** Up, with one byte buffered. */
  lemma OneBuffered(cfg: Config)
    ensures var c := SendInLoop(cfg, Established(Created()), [1], WouldBlock);
      OneWaits(c) && c.state == Connected && c.events == READ_EVENT | WRITE_EVENT
  {
    var c := Established(Created());
    assert c.events == READ_EVENT && c.events & WRITE_EVENT == 0;
    assert NewMask(EnableWriting, READ_EVENT) == READ_EVENT | WRITE_EVENT;
    assert [1][..0] == [] && [1][0..] == [1];
  }

  lemma HangupCloses(cfg: Config, c: Conn)
    requires Sound(c) && c.events != NONE_EVENT
    ensures Enabled(c, HANGUP) && Perform(cfg, c, HANGUP) == HandleClose(c)
  {
    assert EPOLLHUP & EPOLLIN == 0 && EPOLLHUP & EPOLLPRI == 0 && EPOLLHUP & EPOLLOUT == 0;
    assert EPOLLHUP & (EPOLLIN | EPOLLPRI) == 0 && EPOLLHUP & EPOLLHUP != 0;
  }

  /** From there, closed before the queued shutdown ran. */
  lemma ShutAfterClose(cfg: Config, c: Conn)
    requires OneWaits(c) && c.state == Disconnected && c.asked && c.events != NONE_EVENT
    ensures Possible(cfg, c, [HANGUP] + [CallShutdownInLoop])
    ensures var r := PerformAll(cfg, c, [HANGUP] + [CallShutdownInLoop]);
      r == ShutdownRuns(HandleClose(c)) && r.shutdowns == 1
  {
    HangupCloses(cfg, c);
    FirstCall(cfg, c, HANGUP, [CallShutdownInLoop]);
    assert [CallShutdownInLoop] == [CallShutdownInLoop] + [];
    FirstCall(cfg, HandleClose(c), CallShutdownInLoop, []);
    assert !IsWriting(HandleClose(c));
  }

  /** That this happens: a run that ends with the socket shut down and the accepted byte still in the buffer. */
  lemma UndrainedShutdown(cfg: Config)
    ensures Possible(cfg, Created(), CUT_OFF)
    ensures var c := PerformAll(cfg, Created(), CUT_OFF);
      c.shutdowns == 1 && !c.overrun && c.wire == [] && c.accepted == [1]
  {
    var up := Established(Created());
    var waiting := SendInLoop(cfg, up, [1], WouldBlock);
    OneBuffered(cfg);
    ShutAfterClose(cfg, ShutdownElsewhere(waiting));
    FirstCall(cfg, waiting, CallShutdownElsewhere, [HANGUP] + [CallShutdownInLoop]);
    FirstCall(cfg, up, CallSend([1], WouldBlock), [CallShutdownElsewhere] + ([HANGUP] + [CallShutdownInLoop]));
    FirstCall(cfg, Created(), CallEstablished,
              [CallSend([1], WouldBlock)] + ([CallShutdownElsewhere] + ([HANGUP] + [CallShutdownInLoop])));
  }

  /** Disconnected and not waiting for the socket: nothing more will be written. */
  ghost predicate Quiet(c: Conn) {
    c.state == Disconnected && !IsWriting(c)
  }

  lemma {:induction false} QuietActs(cfg: Config, c: Conn, acts: seq<Act>)
    requires Sound(c) && Quiet(c)
    ensures RunActs(cfg, c, acts) == c
    decreases |acts|
  {
    if acts != [] {
      QuietActs(cfg, RunAct(cfg, c, acts[0]), acts[1..]);
    }
  }

  /** A message callback finds its quiet connection deaf: only the read itself leaves a mark. */
  lemma QuietRead(cfg: Config, c: Conn, data: bytes, take: bool, acts: seq<Act>)
    requires Sound(c) && Quiet(c) && !c.overrun && data != [] && !c.input.SpillOverruns(|data|)
    ensures HandleRead(cfg, c, ReadOk(data), take, acts) == Take(Received(c, data), take)
  {
    QuietActs(cfg, Take(Received(c, data), take), acts);
  }

  lemma ReadKeepsQuiet(cfg: Config, c: Conn, read: ReadResult, take: bool, acts: seq<Act>)
    requires Sound(c) && Quiet(c)
    ensures var r := HandleRead(cfg, c, read, take, acts); Quiet(r) && r.wire == c.wire && r.accepted == c.accepted
  {
    if read.ReadOk? && read.data != [] && !c.overrun && !c.input.SpillOverruns(|read.data|) {
      QuietRead(cfg, c, read.data, take, acts);
    }
  }

  lemma QuietCloses(c: Conn)
    requires Sound(c) && Quiet(c)
    ensures Quiet(HandleClose(c)) && HandleClose(c).wire == c.wire && HandleClose(c).accepted == c.accepted
  {
    assert NONE_EVENT & WRITE_EVENT == 0;
  }

  lemma QuietDispatch(cfg: Config, c: Conn, revents: Mask, read: ReadResult, take: bool, acts: seq<Act>,
                      write: WriteResult)
    requires Sound(c) && Quiet(c)
    ensures var r := Dispatch(cfg, c, revents, read, take, acts, write);
      Quiet(r) && r.wire == c.wire && r.accepted == c.accepted
  {
    QuietCloses(c);
    var c1 := if HangsUp(revents) then HandleClose(c) else c;
    ReadKeepsQuiet(cfg, c1, read, take, acts);
  }

  lemma QuietPerform(cfg: Config, c: Conn, call: Call)
    requires Sound(c) && Quiet(c) && Enabled(c, call)
    ensures var r := Perform(cfg, c, call); Quiet(r) && r.wire == c.wire && r.accepted == c.accepted
  {
    match call {
      case CallDispatch(revents, read, take, acts, write) => QuietDispatch(cfg, c, revents, read, take, acts, write);
      case _ =>
    }
  }

  /** After a shutdown request reached the socket no byte is written any more and no message accepted. */
  lemma {:induction false} NothingAfterShutdown(cfg: Config, c: Conn, calls: seq<Call>)
    requires Sound(c) && Quiet(c) && Possible(cfg, c, calls)
    ensures PerformAll(cfg, c, calls).wire == c.wire && PerformAll(cfg, c, calls).accepted == c.accepted
    decreases |calls|
  {
    if calls != [] {
      QuietPerform(cfg, c, calls[0]);
      NothingAfterShutdown(cfg, Perform(cfg, c, calls[0]), calls[1..]);
    }
  }

  lemma ShutdownIsQuiet(cfg: Config, c: Conn)
    requires Inv(cfg, c) && c.shutdowns > 0
    ensures Quiet(c)
  {
  }

  // ---------------------------------------------------------------- input

  /**
   * Input conservation: what the callbacks took followed by what is readable is what the socket delivered - all of
   * it, unless a buffer overran.
   */
  lemma InputConserved(cfg: Config, calls: seq<Call>)
    requires Possible(cfg, Created(), calls)
    ensures var c := PerformAll(cfg, Created(), calls);
      && c.input.reader == CHEAP_PREPEND
      && c.consumed + c.input.Content() <= c.delivered
      && (!c.overrun ==> c.consumed + c.input.Content() == c.delivered)
  {
    CreatedInv(cfg);
    PerformAllInv(cfg, Created(), calls);
  }

  // ---------------------------------------------------------------- overruns

  /** A read overruns exactly when it spills 1 to 8 bytes; what a send overruns on is in SendOverrunsExactly. */
  lemma ReadOverrunsExactly(cfg: Config, c: Conn, data: bytes, take: bool)
    requires Inv(cfg, c) && !c.overrun && data != []
    ensures HandleRead(cfg, c, ReadOk(data), take, []).overrun <==>
            1 <= |data| - c.input.Writable() <= CHEAP_PREPEND
  {
    SpillWindow(c.input, |data|);
  }

  /** `n` bytes, all the same. */
  function Filler(n: nat): (r: bytes)
    ensures |r| == n
  {
    seq(n, _ => 1)
  }

  /** Both buffers overrun in two calls from the start: 1025 bytes to send to a busy socket, or to read. */
  lemma OverrunHappens(cfg: Config)
    ensures var calls := [CallEstablished] + [CallSend(Filler(INITIAL_SIZE + 1), WouldBlock)];
      Possible(cfg, Created(), calls) && PerformAll(cfg, Created(), calls).overrun
    ensures var data := Filler(INITIAL_SIZE + 1);
      var calls := [CallEstablished] + [CallDispatch(EPOLLIN, ReadOk(data), true, [], WouldBlock)];
      Possible(cfg, Created(), calls) && PerformAll(cfg, Created(), calls).overrun
  {
    var data := Filler(INITIAL_SIZE + 1);
    var send, dispatch := CallSend(data, WouldBlock), CallDispatch(EPOLLIN, ReadOk(data), true, [], WouldBlock);
    var up := Established(Created());
    CreatedInv(cfg);
    EstablishedInv(cfg, Created());
    assert up.events == READ_EVENT;
    SendOverrunsExactly(cfg, up, data, WouldBlock, []);
    assert [send] == [send] + [] && [dispatch] == [dispatch] + [];
    FirstCall(cfg, up, send, []);
    FirstCall(cfg, Created(), CallEstablished, [send]);
    assert EPOLLIN & EPOLLHUP == 0 && EPOLLIN & EPOLLOUT == 0 && EPOLLIN & (EPOLLIN | EPOLLPRI) != 0;
    FirstCall(cfg, up, dispatch, []);
    FirstCall(cfg, Created(), CallEstablished, [dispatch]);
  }

  // ---------------------------------------------------------------- life cycle

  function Rank(s: StateE): nat {
    match s
    case Connecting => 0
    case Connected => 1
    case Disconnecting => 2
    case Disconnected => 3
  }

  lemma WriteState(cfg: Config, c: Conn, result: WriteResult)
    requires Sound(c)
    ensures HandleWrite(cfg, c, result).state == c.state
  {
  }

  lemma {:induction false} ActsRank(cfg: Config, c: Conn, acts: seq<Act>)
    requires Sound(c)
    ensures Rank(c.state) <= Rank(RunActs(cfg, c, acts).state)
    decreases |acts|
  {
    if acts != [] {
      ActsRank(cfg, RunAct(cfg, c, acts[0]), acts[1..]);
    }
  }

  lemma ReadRank(cfg: Config, c: Conn, result: ReadResult, take: bool, acts: seq<Act>)
    requires Sound(c)
    ensures Rank(c.state) <= Rank(HandleRead(cfg, c, result, take, acts).state)
  {
    if result.ReadOk? && result.data != [] && !c.overrun && !c.input.SpillOverruns(|result.data|) {
      ActsRank(cfg, Take(Received(c, result.data), take), acts);
    }
  }

  lemma DispatchRank(cfg: Config, c: Conn, revents: Mask, read: ReadResult, take: bool, acts: seq<Act>,
                     write: WriteResult)
    requires Sound(c)
    ensures Rank(c.state) <= Rank(Dispatch(cfg, c, revents, read, take, acts, write).state)
  {
    var c1 := if HangsUp(revents) then HandleClose(c) else c;
    ReadRank(cfg, c1, read, take, acts);
    var c2 := if revents & (EPOLLIN | EPOLLPRI) != 0 then HandleRead(cfg, c1, read, take, acts) else c1;
    WriteState(cfg, c2, write);
  }

  /** The state only moves from connecting to connected to disconnected. */
  lemma StateMonotone(cfg: Config, c: Conn, call: Call)
    requires Inv(cfg, c) && Enabled(c, call)
    ensures Rank(c.state) <= Rank(Perform(cfg, c, call).state)
    ensures Perform(cfg, c, call).state != Disconnecting
  {
    PerformInv(cfg, c, call);
    match call {
      case CallDispatch(revents, read, take, acts, write) => DispatchRank(cfg, c, revents, read, take, acts, write);
      case _ =>
    }
  }

  lemma {:induction false} RunMonotone(cfg: Config, c: Conn, calls: seq<Call>)
    requires Inv(cfg, c) && Possible(cfg, c, calls)
    ensures Rank(c.state) <= Rank(PerformAll(cfg, c, calls).state)
    ensures PerformAll(cfg, c, calls).state != Disconnecting
    decreases |calls|
  {
    if calls != [] {
      StateMonotone(cfg, c, calls[0]);
      PerformInv(cfg, c, calls[0]);
      RunMonotone(cfg, Perform(cfg, c, calls[0]), calls[1..]);
    }
  }

  lemma {:induction false} PerformAppend(cfg: Config, c: Conn, calls: seq<Call>, more: seq<Call>)
    requires Sound(c) && Possible(cfg, c, calls + more)
    ensures Possible(cfg, c, calls) && Possible(cfg, PerformAll(cfg, c, calls), more)
    ensures PerformAll(cfg, c, calls + more) == PerformAll(cfg, PerformAll(cfg, c, calls), more)
    decreases |calls|
  {
    if calls == [] {
      assert calls + more == more;
    } else {
      assert (calls + more)[0] == calls[0] && (calls + more)[1..] == calls[1..] + more;
      PerformAppend(cfg, Perform(cfg, c, calls[0]), calls[1..], more);
    }
  }

  /** From the state at any moment of any run on, the state never goes back, and kDisconnecting is never entered. */
  lemma StateOnward(cfg: Config, calls: seq<Call>, more: seq<Call>)
    requires Possible(cfg, Created(), calls + more)
    ensures Rank(PerformAll(cfg, Created(), calls).state) <= Rank(PerformAll(cfg, Created(), calls + more).state)
    ensures PerformAll(cfg, Created(), calls + more).state != Disconnecting
  {
    PerformAppend(cfg, Created(), calls, more);
    CreatedInv(cfg);
    PerformAllInv(cfg, Created(), calls);
    RunMonotone(cfg, PerformAll(cfg, Created(), calls), more);
  }

  lemma {:induction false} PrefixPhase(trace: seq<Event>, n: nat)
    requires n <= |trace| && PhaseOf(trace) != Bad
    ensures PhaseOf(trace[..n]) != Bad
  {
    assert trace[..n] + trace[n..] == trace;
    if PhaseOf(trace[..n]) == Bad {
      BadStays(trace[..n], trace[n..]);
    }
  }

  /** The event at position `n` was in order where it came. */
  lemma InOrder(t: seq<Event>, n: nat)
    requires PhaseOf(t) != Bad && n < |t|
    ensures PhaseOf(t[..n + 1]) == After(PhaseOf(t[..n]), t[n]) != Bad
  {
    PrefixPhase(t, n + 1);
    assert t[..n + 1] == t[..n] + [t[n]];
    PhaseLast(t[..n], t[n]);
  }

  function Order(p: Phase): nat {
    match p
    case Unborn => 0
    case Armed => 1
    case Live => 2
    case Muted => 3
    case Downed => 4
    case Dead => 5
    case Gone => 6
    case Bad => 7
  }

  /** The phases of a trace come in order. */
  lemma {:induction false} LaterPhase(trace: seq<Event>, m: nat, n: nat)
    requires m <= n <= |trace| && PhaseOf(trace) != Bad
    ensures Order(PhaseOf(trace[..m])) <= Order(PhaseOf(trace[..n])) <= 6
    decreases n
  {
    PrefixPhase(trace, n);
    if m < n {
      LaterPhase(trace, m, n - 1);
      InOrder(trace, n - 1);
    }
  }

  /** Two events of an orderly trace: what may follow what. */
  lemma OrderlyTrace(t: seq<Event>, i: nat, j: nat)
    requires PhaseOf(t) != Bad && i < j < |t|
    ensures t[i] == Down ==> t[j] == CloseCb || t[j] == Removed
    ensures t[i] == CloseCb ==> t[j] == Removed
    ensures t[i] != Removed
    ensures t[i] == Up ==> t[j] != Up
  {
    InOrder(t, i);
    InOrder(t, j);
    LaterPhase(t, i + 1, j);
  }

  /** What the owner sees of a trace: all but the mask changes. */
  function Callbacks(t: seq<Event>): seq<Event> {
    if t == [] then []
    else
      var before, last := Callbacks(t[..|t| - 1]), t[|t| - 1];
      if last.Update? then before else before + [last]
  }

  function Messages(n: nat): (r: seq<Event>)
    ensures |r| == n && forall i :: 0 <= i < n ==> r[i] == Message
  {
    if n == 0 then [] else Messages(n - 1) + [Message]
  }

  /** A whole life with `n` messages. */
  function Life(n: nat): seq<Event> {
    [Up] + Messages(n) + [Down, CloseCb, Removed]
  }

  /** How much of it is over in phase `p`. */
  function LifeUntil(p: Phase, n: nat): (r: seq<Event>)
    requires p != Bad
    ensures r <= Life(n)
  {
    match p
    case Unborn => []
    case Armed => []
    case Live => [Up] + Messages(n)
    case Muted => [Up] + Messages(n)
    case Downed => [Up] + Messages(n) + [Down]
    case Dead => [Up] + Messages(n) + [Down, CloseCb]
    case Gone => Life(n)
  }

  /** An orderly trace has exactly the callbacks its phase says. */
  lemma {:induction false} TraceShape(t: seq<Event>) returns (n: nat)
    requires PhaseOf(t) != Bad
    ensures Callbacks(t) == LifeUntil(PhaseOf(t), n)
  {
    n := 0;
    if t != [] {
      var front, last := t[..|t| - 1], t[|t| - 1];
      PrefixPhase(t, |t| - 1);
      n := TraceShape(front);
      if last == Up {
        n := 0;
        assert [Up] + Messages(0) == [Up];
      } else if last == Message {
        n := n + 1;
        assert [Up] + Messages(n) == [Up] + Messages(n - 1) + [Message];
      }
    }
  }

  /**
   * The callback trace of every run is a prefix of one Up, any number of messages, Down, the close callback and the
   * removal.
   */
  lemma LifecycleTrace(cfg: Config, calls: seq<Call>)
    requires Possible(cfg, Created(), calls)
    ensures exists n :: Callbacks(PerformAll(cfg, Created(), calls).trace) <= Life(n)
  {
    CreatedInv(cfg);
    PerformAllInv(cfg, Created(), calls);
    var n := TraceShape(PerformAll(cfg, Created(), calls).trace);
    assert Callbacks(PerformAll(cfg, Created(), calls).trace) <= Life(n);
  }

  /** In every run: after Down no message, no Up and no mask change, after the removal nothing at all. */
  lemma NothingAfterDown(cfg: Config, calls: seq<Call>, i: nat, j: nat)
    requires Possible(cfg, Created(), calls)
    requires i < j < |PerformAll(cfg, Created(), calls).trace|
    ensures var t := PerformAll(cfg, Created(), calls).trace;
      && (t[i] == Down ==> t[j] == CloseCb || t[j] == Removed)
      && (t[i] == CloseCb ==> t[j] == Removed)
      && t[i] != Removed
      && (t[i] == Up ==> t[j] != Up)
  {
    CreatedInv(cfg);
    PerformAllInv(cfg, Created(), calls);
    OrderlyTrace(PerformAll(cfg, Created(), calls).trace, i, j);
  }

  lemma UpBefore(t: seq<Event>, j: nat)
    requires PhaseOf(t) != Bad && j < |t|
    requires t[j] == Message || t[j] == Down || t[j] == CloseCb || t[j] == Removed
    ensures Up in t[..j]
  {
    InOrder(t, j);
    LiveHasUp(t[..j]);
  }

  /** In every run, at every position, the first included: nothing but mask changes comes before Up. */
  lemma UpComesFirst(cfg: Config, calls: seq<Call>, j: nat)
    requires Possible(cfg, Created(), calls) && j < |PerformAll(cfg, Created(), calls).trace|
    ensures var t := PerformAll(cfg, Created(), calls).trace;
      t[j] == Message || t[j] == Down || t[j] == CloseCb || t[j] == Removed ==> Up in t[..j]
  {
    CreatedInv(cfg);
    PerformAllInv(cfg, Created(), calls);
    var t := PerformAll(cfg, Created(), calls).trace;
    if t[j] == Message || t[j] == Down || t[j] == CloseCb || t[j] == Removed {
      UpBefore(t, j);
    }
  }

  lemma {:induction false} LiveHasUp(trace: seq<Event>)
    requires 2 <= Order(PhaseOf(trace)) <= 6
    ensures Up in trace
  {
    var front, last := trace[..|trace| - 1], trace[|trace| - 1];
    assert trace == front + [last];
    if last != Up {
      LiveHasUp(front);
    }
  }

  /** A dispatch that closes the connection, by hang-up or end of file, writes nothing even to a writable socket. */
  lemma CloseThenNoWrite(cfg: Config, c: Conn, revents: Mask, read: ReadResult, take: bool, acts: seq<Act>,
                         write: WriteResult)
    requires Sound(c) && !c.overrun && !HangupWithPri(revents)
    requires HangsUp(revents) || (revents & (EPOLLIN | EPOLLPRI) != 0 && read == ReadOk([]))
    ensures var r := Dispatch(cfg, c, revents, read, take, acts, write);
      r == HandleClose(c) && r.wire == c.wire && r.events == NONE_EVENT
  {
    if HangsUp(revents) {
      assert revents & (EPOLLIN | EPOLLPRI) == 0;
    }
  }

  lemma CloseTwice(c: Conn)
    requires !c.overrun && PhaseOf(c.trace) == Dead
    ensures PhaseOf(HandleClose(c).trace) == Bad
  {
    CloseTrace(c.trace);
    assert HandleClose(c).trace == c.trace + [Update(NONE_EVENT)] + [Down] + [CloseCb];
  }

  /** Reading after the close: a second close or a message out of order, unless the read fails. */
  lemma ReadAfterClose(cfg: Config, c: Conn, read: ReadResult, take: bool, acts: seq<Act>)
    requires Sound(c) && !c.overrun && Quiet(c) && PhaseOf(c.trace) == Dead
    ensures PhaseOf(HandleRead(cfg, c, read, take, acts).trace) ==
      if read.ReadError? || (read.data != [] && c.input.SpillOverruns(|read.data|)) then Dead else Bad
  {
    if read.ReadOk? && read.data == [] {
      CloseTwice(c);
    } else if read.ReadOk? && !c.input.SpillOverruns(|read.data|) {
      PhaseLast(c.trace, Message);
      QuietRead(cfg, c, read.data, take, acts);
    }
  }

  lemma HangupThenRead(cfg: Config, c: Conn, revents: Mask, read: ReadResult, take: bool, acts: seq<Act>,
                       write: WriteResult)
    requires Sound(c) && !c.overrun && HangupWithPri(revents)
    ensures Dispatch(cfg, c, revents, read, take, acts, write) == HandleRead(cfg, HandleClose(c), read, take, acts)
  {
    assert revents & (EPOLLIN | EPOLLPRI) != 0;
    assert NONE_EVENT & WRITE_EVENT == 0;
    ReadKeepsQuiet(cfg, HandleClose(c), read, take, acts);
  }

  lemma ClosedIsDead(cfg: Config, c: Conn)
    requires Inv(cfg, c) && c.events != NONE_EVENT && !c.overrun
    ensures var r := HandleClose(c);
      Sound(r) && !r.overrun && Quiet(r) && PhaseOf(r.trace) == Dead && r.input == c.input
  {
    HandleCloseInv(cfg, c);
  }

  /**
   * A hang-up that carries EPOLLPRI without EPOLLIN closes and then reads. From a live connection the trace stays in
   * order exactly when the dispatch is not of that kind, or its read fails, or the read leaves the vector.
   */
  lemma HangupWithPriExact(cfg: Config, c: Conn, revents: Mask, read: ReadResult, take: bool, acts: seq<Act>,
                           write: WriteResult)
    requires Inv(cfg, c) && c.events != NONE_EVENT && !c.overrun
    ensures PhaseOf(Dispatch(cfg, c, revents, read, take, acts, write).trace) != Bad
       <==> !HangupWithPri(revents) || read.ReadError? || (read.data != [] && c.input.SpillOverruns(|read.data|))
  {
    if !HangupWithPri(revents) {
      DispatchInv(cfg, c, revents, read, take, acts, write);
    } else {
      ClosedIsDead(cfg, c);
      HangupThenRead(cfg, c, revents, read, take, acts, write);
      ReadAfterClose(cfg, HandleClose(c), read, take, acts);
    }
  }

  // ---------------------------------------------------------------- the poller follows

  /** The calls a connection makes on its channel `id`, as the poller sees them. */
  function Replay<T>(p: Poller<T>, id: T, trace: seq<Event>): (r: Poller<T>)
    requires id in p.chans
    ensures id in r.chans
  {
    if trace == [] then p
    else
      var q := Replay(p, id, trace[..|trace| - 1]);
      match trace[|trace| - 1]
      case Update(m) => UpdateChannel(WithEvents(q, id, m), id)
      case Removed => RemoveChannel(q, id)
      case _ => q
  }

  function IndexFor(p: Phase): int {
    match p
    case Armed => ADDED
    case Live => ADDED
    case Muted => DELETED
    case Downed => DELETED
    case Dead => DELETED
    case _ => NEW
  }

  /** The connection's channel and the poller it is unknown to. */
  ghost predicate Unknown<T>(p: Poller<T>, id: T) {
    id in p.chans && p.chans[id].events == NONE_EVENT && p.chans[id].index == NEW && NobodyElse(p, id) && Agrees(p)
  }

  /** What the poller makes of the trace of channel `id`. */
  ghost predicate Follows<T>(p: Poller<T>, r: Poller<T>, id: T, trace: seq<Event>)
    requires id in p.chans
  {
    && Agrees(r) && r.refused == p.refused
    && r.chans == p.chans[id := Chan(p.chans[id].fd, LastMask(trace), IndexFor(PhaseOf(trace)))]
  }

  lemma FollowsUpdate<T>(p: Poller<T>, q: Poller<T>, id: T, front: seq<Event>, m: Mask)
    requires Unknown(p, id) && id in q.chans && Follows(p, q, id, front) && PhaseOf(front + [Update(m)]) != Bad
    ensures Follows(p, UpdateChannel(WithEvents(q, id, m), id), id, front + [Update(m)])
  {
    assert NobodyElse(q, id);
    NobodyElseOwns(q, id);
    UpdateOn(q, id, m);
    OthersAgree(q, UpdateChannel(WithEvents(q, id, m), id), id);
    PhaseLast(front, Update(m));
  }

  lemma FollowsRemoval<T>(p: Poller<T>, q: Poller<T>, id: T, front: seq<Event>)
    requires Unknown(p, id) && id in q.chans && Follows(p, q, id, front) && PhaseOf(front + [Removed]) != Bad
    ensures Follows(p, RemoveChannel(q, id), id, front + [Removed])
  {
    assert NobodyElse(q, id);
    NobodyElseOwns(q, id);
    RemoveOn(q, id);
    OthersAgree(q, RemoveChannel(q, id), id);
    PhaseLast(front, Removed);
    assert (front + [Removed])[..|front|] == front;
  }

  lemma FollowsCallback<T>(p: Poller<T>, q: Poller<T>, id: T, front: seq<Event>, e: Event)
    requires Unknown(p, id) && Follows(p, q, id, front) && PhaseOf(front + [e]) != Bad
    requires !e.Update? && e != Removed
    ensures Follows(p, q, id, front + [e])
  {
    PhaseLast(front, e);
    assert (front + [e])[..|front|] == front;
  }

  lemma {:induction false} ReplayFollows<T>(p: Poller<T>, id: T, trace: seq<Event>)
    requires Unknown(p, id) && PhaseOf(trace) != Bad
    ensures Follows(p, Replay(p, id, trace), id, trace)
  {
    if trace == [] {
      assert p.chans == p.chans[id := p.chans[id]];
    } else {
      var front, last := trace[..|trace| - 1], trace[|trace| - 1];
      assert trace == front + [last];
      PrefixPhase(trace, |trace| - 1);
      ReplayFollows(p, id, front);
      match last {
        case Update(m) => FollowsUpdate(p, Replay(p, id, front), id, front, m);
        case Removed => FollowsRemoval(p, Replay(p, id, front), id, front);
        case _ => FollowsCallback(p, Replay(p, id, front), id, front, last);
      }
    }
  }

  /**
   * The poller follows every orderly connection whose fd nobody else still uses: no call is refused, the kernel
   * watches the connection with its current mask exactly while it is live, and the poller knows the channel until
   * the removal.
   */
  lemma PollerFollows<T>(p: Poller<T>, id: T, trace: seq<Event>)
    requires Unknown(p, id) && PhaseOf(trace) != Bad
    ensures var r := Replay(p, id, trace);
      Agrees(r) && r.refused == p.refused && r.chans == p.chans[id := r.chans[id]]
    ensures var r, fd := Replay(p, id, trace), p.chans[id].fd;
      && (fd in r.interest <==> PhaseOf(trace) in {Armed, Live})
      && (fd in r.interest ==> r.interest[fd] == (id, LastMask(trace)))
      && (HasChannel(r, id) <==> PhaseOf(trace) in {Armed, Live, Muted, Downed, Dead})
  {
    ReplayFollows(p, id, trace);
    var r := Replay(p, id, trace);
    assert NobodyElse(r, id);
    NobodyElseOwns(r, id);
    assert AgreesOn(r, id);
  }

  /** So it does in every run: the kernel watches the connection with the mask it has, until the close and no longer. */
  lemma PollerFollowsRun<T>(p: Poller<T>, id: T, cfg: Config, calls: seq<Call>)
    requires Unknown(p, id) && Possible(cfg, Created(), calls)
    ensures var c, fd := PerformAll(cfg, Created(), calls), p.chans[id].fd;
      var r := Replay(p, id, c.trace);
      && Agrees(r) && r.refused == p.refused
      && (fd in r.interest <==> c.events != NONE_EVENT)
      && (fd in r.interest ==> r.interest[fd] == (id, c.events))
      && (HasChannel(r, id) <==> c.state != Connecting && Removed !in c.trace)
  {
    CreatedInv(cfg);
    PerformAllInv(cfg, Created(), calls);
    PollerFollows(p, id, PerformAll(cfg, Created(), calls).trace);
  }
}
