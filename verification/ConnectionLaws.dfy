/** What each handler of a connection does, stated by its effects: on the socket, the buffers and the callbacks. */
module ConnectionLaws {
  import opened Bytes
  import opened BufferSpec
  import opened PollerSpec
  import opened ConnectionSpec
  import opened ConnectionProofs
  import opened ConnectionTheorems

  // ---------------------------------------------------------------- callbacks

  lemma CallbacksLast(t: seq<Event>, e: Event)
    ensures Callbacks(t + [e]) == if e.Update? then Callbacks(t) else Callbacks(t) + [e]
  {
    assert (t + [e])[..|t|] == t;
  }

  /** The connection is up and reads; the owner was told so. */
  lemma EstablishedExact(cfg: Config)
    ensures var r := Perform(cfg, Created(), CallEstablished);
      && r.state == Connected && r.events == READ_EVENT && Callbacks(r.trace) == [Up]
      && r == Created().(state := r.state, events := r.events, trace := r.trace)
  {
    CallbacksLast([], Update(READ_EVENT));
    CallbacksLast([Update(READ_EVENT)], Up);
    assert [] + [Update(READ_EVENT)] == [Update(READ_EVENT)] && [] + [Up] == [Up];
    assert NONE_EVENT | READ_EVENT == READ_EVENT;
  }

  /** A close of a live connection: nothing watched, the owner told, the server told after it; nothing else. */
  lemma CloseExact(cfg: Config, c: Conn)
    requires Inv(cfg, c) && !c.overrun && c.events != NONE_EVENT
    ensures var r := HandleClose(c);
      && r.state == Disconnected && r.events == NONE_EVENT && Callbacks(r.trace) == Callbacks(c.trace) + [Down, CloseCb]
      && r == c.(state := r.state, events := r.events, trace := r.trace)
  {
    var muted := c.trace + [Update(NONE_EVENT)];
    CallbacksLast(c.trace, Update(NONE_EVENT));
    CallbacksLast(muted, Down);
    CallbacksLast(muted + [Down], CloseCb);
    assert Callbacks(c.trace) + [Down] + [CloseCb] == Callbacks(c.trace) + [Down, CloseCb];
    assert HandleClose(c).trace == muted + [Down] + [CloseCb];
  }

  // ---------------------------------------------------------------- destruction

  /** After any run the destruction removes the channel. */
  lemma DestroyedRemoves(cfg: Config, calls: seq<Call>)
    requires Possible(cfg, Created(), calls + [CallDestroyed])
    requires !PerformAll(cfg, Created(), calls + [CallDestroyed]).overrun
    ensures var c, r := PerformAll(cfg, Created(), calls), PerformAll(cfg, Created(), calls + [CallDestroyed]);
      Callbacks(r.trace) == Callbacks(c.trace) + [Removed] && r == c.(trace := r.trace)
    ensures Removed in PerformAll(cfg, Created(), calls + [CallDestroyed]).trace
  {
    PerformAppend(cfg, Created(), calls, [CallDestroyed]);
    var c := PerformAll(cfg, Created(), calls);
    assert [CallDestroyed] == [CallDestroyed] + [];
    FirstCall(cfg, c, CallDestroyed, []);
    CallbacksLast(c.trace, Removed);
    assert (c.trace + [Removed])[|c.trace|] == Removed;
  }

  /** A connection destroyed while it is connected goes down first, without the close callback. */
  lemma DestroyedWhileUp(cfg: Config, c: Conn)
    requires Inv(cfg, c) && !c.overrun && c.state == Connected
    ensures var r := Destroyed(c);
      && r.state == Disconnected && r.events == NONE_EVENT && Callbacks(r.trace) == Callbacks(c.trace) + [Down, Removed]
      && r == c.(state := r.state, events := r.events, trace := r.trace)
  {
    var muted := c.trace + [Update(NONE_EVENT)];
    CallbacksLast(c.trace, Update(NONE_EVENT));
    CallbacksLast(muted, Down);
    CallbacksLast(muted + [Down], Removed);
    assert Callbacks(c.trace) + [Down] + [Removed] == Callbacks(c.trace) + [Down, Removed];
    assert Destroyed(c).trace == muted + [Down] + [Removed];
  }

  /** Neither poller nor kernel knows it any more. */
  lemma DestroyedForgotten<T>(p: Poller<T>, id: T, cfg: Config, calls: seq<Call>)
    requires Unknown(p, id) && Possible(cfg, Created(), calls + [CallDestroyed])
    requires !PerformAll(cfg, Created(), calls + [CallDestroyed]).overrun
    ensures var r, fd := Replay(p, id, PerformAll(cfg, Created(), calls + [CallDestroyed]).trace), p.chans[id].fd;
      && !HasChannel(r, id) && r.chans[id].index == NEW && fd !in r.channels && fd !in r.interest
  {
    var all := calls + [CallDestroyed];
    var c := PerformAll(cfg, Created(), all);
    CreatedInv(cfg);
    PerformAllInv(cfg, Created(), all);
    DestroyedRemoves(cfg, calls);
    PollerFollows(p, id, c.trace);
    ReplayFollows(p, id, c.trace);
    var r := Replay(p, id, c.trace);
    assert NobodyElse(r, id);
    NobodyElseOwns(r, id);
  }

  // ---------------------------------------------------------------- a dispatch writes

  /** A dispatch for writing alone is the write-ready handler. */
  lemma DispatchOfWrite(cfg: Config, c: Conn, revents: Mask, read: ReadResult, take: bool, acts: seq<Act>,
                        write: WriteResult, sent: bytes)
    requires Inv(cfg, c) && !c.overrun && c.events != NONE_EVENT && SocketTook(c.output.Content(), write, sent)
    requires revents & EPOLLOUT != 0 && revents & EPOLLHUP == 0
    requires revents & EPOLLIN == 0 && revents & EPOLLPRI == 0
    ensures var r := Dispatch(cfg, c, revents, read, take, acts, write);
      r.wire == c.wire + sent && r.output.Content() == c.output.Content()[|sent|..] && r.input == c.input
  {
    assert revents & (EPOLLIN | EPOLLPRI) == 0;
    HandleWriteExact(cfg, c, write, sent);
    WriteLeavesInput(cfg, c, write);
  }

  lemma WriteLeavesInput(cfg: Config, c: Conn, write: WriteResult)
    requires Sound(c)
    ensures var r := HandleWrite(cfg, c, write);
      r.input == c.input && r.consumed == c.consumed && r.delivered == c.delivered && r.accepted == c.accepted
  {
  }

  /** A dispatch for reading and writing: what the read left buffered is written, unless it closed or overran. */
  lemma DispatchReadsThenWrites(cfg: Config, c: Conn, revents: Mask, read: ReadResult, take: bool, acts: seq<Act>,
                                write: WriteResult, sent: bytes)
    requires Inv(cfg, c) && c.events != NONE_EVENT
    requires revents & EPOLLOUT != 0 && revents & EPOLLIN != 0
    requires var m := HandleRead(cfg, c, read, take, acts);
      !m.overrun && m.events != NONE_EVENT && SocketTook(m.output.Content(), write, sent)
    ensures var m, r := HandleRead(cfg, c, read, take, acts), Dispatch(cfg, c, revents, read, take, acts, write);
      && r.wire == m.wire + sent && r.output.Content() == m.output.Content()[|sent|..]
      && r.input == m.input && r.consumed == m.consumed && r.delivered == m.delivered
  {
    assert revents & (EPOLLIN | EPOLLPRI) != 0;
    var m := HandleRead(cfg, c, read, take, acts);
    HandleReadInv(cfg, c, read, take, acts);
    HandleWriteExact(cfg, m, write, sent);
    WriteLeavesInput(cfg, m, write);
  }

  // ---------------------------------------------------------------- a dispatch reads

  /** A dispatch for reading alone is the read handler; a hang-up beside EPOLLIN makes no difference. */
  lemma DispatchOfRead(cfg: Config, c: Conn, revents: Mask, read: ReadResult, take: bool, acts: seq<Act>,
                       write: WriteResult)
    requires Sound(c) && revents & EPOLLOUT == 0
    requires revents & EPOLLIN != 0 || (revents & EPOLLPRI != 0 && revents & EPOLLHUP == 0)
    ensures Dispatch(cfg, c, revents, read, take, acts, write) == HandleRead(cfg, c, read, take, acts)
  {
    assert revents & (EPOLLIN | EPOLLPRI) != 0;
  }

  /** A hang-up without anything to read closes, and a dispatch for nothing changes nothing. */
  lemma DispatchOfHangup(cfg: Config, c: Conn, revents: Mask, read: ReadResult, take: bool, acts: seq<Act>,
                         write: WriteResult)
    requires Sound(c) && revents & EPOLLIN == 0 && revents & EPOLLPRI == 0 && revents & EPOLLOUT == 0
    ensures Dispatch(cfg, c, revents, read, take, acts, write) ==
            if revents & EPOLLHUP != 0 then HandleClose(c) else c
  {
    assert revents & (EPOLLIN | EPOLLPRI) == 0;
  }

  /** An act leaves the input alone and makes no callback. */
  ghost predicate OutputOnly(c: Conn, r: Conn) {
    && r.input == c.input && r.consumed == c.consumed && r.delivered == c.delivered
    && Callbacks(r.trace) == Callbacks(c.trace)
  }

  lemma StoreIsOutput(c: Conn, rest: bytes)
    requires Sound(c)
    ensures OutputOnly(c, StoreRest(c, rest))
  {
    CallbacksLast(c.trace, Update(NewMask(EnableWriting, c.events)));
  }

  lemma ActIsOutput(cfg: Config, c: Conn, act: Act)
    requires Sound(c)
    ensures OutputOnly(c, RunAct(cfg, c, act))
  {
    if act.ActSend? && c.state == Connected && !c.overrun && !Drops(c, act.result) {
      var n := if Direct(c) then Count(act.result, |act.msg|) else 0;
      var c1 := if Direct(c) then WriteNow(cfg, c, act.msg[..n], act.result.Wrote? && n == |act.msg|) else c;
      if n != |act.msg| {
        StoreIsOutput(Noted(cfg, c1, act.msg[n..]), act.msg[n..]);
      }
    }
  }

  lemma {:induction false} ActsAreOutput(cfg: Config, c: Conn, acts: seq<Act>)
    requires Sound(c)
    ensures OutputOnly(c, RunActs(cfg, c, acts))
    decreases |acts|
  {
    if acts != [] {
      ActIsOutput(cfg, c, acts[0]);
      ActsAreOutput(cfg, RunAct(cfg, c, acts[0]), acts[1..]);
    }
  }

  /**
   * A read that delivers bytes: they are received, the owner is called once, and takes everything readable or
   * nothing.
   */
  lemma ReadExact(cfg: Config, c: Conn, data: bytes, take: bool, acts: seq<Act>)
    requires Inv(cfg, c) && !c.overrun && c.events != NONE_EVENT && data != [] && !c.input.SpillOverruns(|data|)
    ensures var r := HandleRead(cfg, c, ReadOk(data), take, acts);
      && r.delivered == c.delivered + data && Callbacks(r.trace) == Callbacks(c.trace) + [Message]
      && r.consumed == (if take then r.delivered else c.consumed)
      && r.input.Content() == if take then [] else c.input.Content() + data
  {
    var m := Received(c, data);
    ReceivedInv(cfg, c, data);
    CallbacksLast(c.trace, Message);
    if take {
      AllAsString(m.input);
    }
    ActsAreOutput(cfg, Take(m, take), acts);
  }

  /** A failed read changes nothing; end of file closes. */
  lemma ReadEnds(cfg: Config, c: Conn, take: bool, acts: seq<Act>)
    requires Sound(c) && !c.overrun
    ensures HandleRead(cfg, c, ReadError, take, acts) == c
    ensures HandleRead(cfg, c, ReadOk([]), take, acts) == HandleClose(c)
  {
  }

  // ---------------------------------------------------------------- what the owner asks for

  /** On the loop thread a send of a connected connection is SendInLoop at once, and nothing when not connected. */
  lemma OwnSendExact(cfg: Config, c: Conn, msg: bytes, result: WriteResult, sent: bytes)
    requires Inv(cfg, c) && !c.overrun && SocketTook(msg, result, sent)
    ensures var r, direct := RunAct(cfg, c, ActSend(msg, result)), c.output.Content() == [];
      if c.state != Connected || (direct && result.PeerGone?) then r == c
      else r.accepted == c.accepted + msg && r.wire == c.wire + if direct then sent else []
  {
    if c.state == Connected {
      SendAcceptsWhole(cfg, c, msg, result, sent);
    }
  }

  /** A shutdown disconnects at once; the socket is shut then or, from another thread, by the queued functor. */
  lemma ShutdownRequests(cfg: Config, c: Conn)
    requires Inv(cfg, c) && !c.overrun && c.state == Connected
    ensures var r := Perform(cfg, c, CallShutdown);
      && r.state == Disconnected && r.shutdowns == c.shutdowns + (if c.output.Content() == [] then 1 else 0)
      && RunAct(cfg, c, ActShutdown) == r
    ensures var q := Perform(cfg, c, CallShutdownElsewhere);
      && q.state == Disconnected && q.asked && q.shutdowns == c.shutdowns
      && Perform(cfg, q, CallShutdownInLoop).shutdowns == c.shutdowns + if c.output.Content() == [] then 1 else 0
  {
    assert IsWriting(c) <==> c.output.Content() != [];
  }

  /** The callback's acts run in order, every one of them. */
  lemma {:induction false} ActsInOrder(cfg: Config, c: Conn, acts: seq<Act>, last: Act)
    requires Sound(c)
    ensures RunActs(cfg, c, acts + [last]) == RunAct(cfg, RunActs(cfg, c, acts), last)
    decreases |acts|
  {
    if acts == [] {
      assert [] + [last] == [last] && [last][1..] == [];
      assert RunActs(cfg, RunAct(cfg, c, last), []) == RunAct(cfg, c, last);
    } else {
      assert (acts + [last])[0] == acts[0] && (acts + [last])[1..] == acts[1..] + [last];
      ActsInOrder(cfg, RunAct(cfg, c, acts[0]), acts[1..], last);
    }
  }

  /** Messages sent by the callback of a connection with output waiting are all buffered, in order. */
  lemma TwoSendsInOrder(cfg: Config, c: Conn, a: bytes, b: bytes, ra: WriteResult, rb: WriteResult)
    requires Inv(cfg, c) && !c.overrun && c.state == Connected && c.output.Content() != []
    requires !RunActs(cfg, c, [ActSend(a, ra)] + [ActSend(b, rb)]).overrun
    ensures var r := RunActs(cfg, c, [ActSend(a, ra)] + [ActSend(b, rb)]);
      r.output.Content() == c.output.Content() + a + b && r.wire == c.wire
  {
    ActsInOrder(cfg, c, [], ActSend(a, ra));
    assert [] + [ActSend(a, ra)] == [ActSend(a, ra)];
    ActsInOrder(cfg, c, [ActSend(a, ra)], ActSend(b, rb));
    var m := SendInLoop(cfg, c, a, ra);
    assert RunActs(cfg, c, [ActSend(a, ra)]) == m;
    SendInLoopInv(cfg, c, a, ra);
    BufferedSend(cfg, c, a, ra);
    assert m.state == Connected;
    if !m.overrun {
      assert m.output.Content() != [];
      BufferedSend(cfg, m, b, rb);
    }
  }
}
