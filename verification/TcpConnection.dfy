/**
 * TcpConnection (tcp_connection.cpp), updated in place, with its two buffers.
 *
 * The connection keeps the mask of its channel and the calls it makes to poller and owner (`trace`), the functors it
 * queues (`tasks`), and what the socket, the senders and the message callback have seen of it. What a system call
 * reports is a parameter of the handler that makes it.
 */
module TcpConnections {
  import opened Bytes
  import opened BufferSpec
  import opened Buffers
  import opened PollerSpec
  import opened ConnectionSpec

  class TcpConnection {
    const config: Config
    const output: Buffer
    const input: Buffer
    var state: StateE
    var events: Mask           // the channel's mask; `trace` has the calls to the poller
    var tasks: seq<Task>
    var trace: seq<Event>
    var shutdowns: nat
    var asked: bool
    var overrun: bool
    var wire: bytes
    var accepted: bytes
    var delivered: bytes
    var consumed: bytes
    var levels: seq<nat>

    ghost function View(): Conn
      reads this, output, output.buf, input, input.buf
    {
      Conn(state, events, output.View(), input.View(), wire, accepted, delivered, consumed,
           tasks, levels, trace, shutdowns, asked, overrun)
    }

    ghost predicate Valid()
      reads this, output, output.buf, input, input.buf
    {
      output.Valid() && input.Valid() && output != input && output.buf != input.buf
    }

    /** The vectors are the old ones or newly allocated. */
    twostate predicate SameBuffers()
      reads this, output, input
    {
      && (output.buf == old(output.buf) || fresh(output.buf))
      && (input.buf == old(input.buf) || fresh(input.buf))
    }

    constructor (config: Config)
      ensures Valid() && fresh(output) && fresh(output.buf) && fresh(input) && fresh(input.buf)
      ensures View() == Created() && this.config == config
    {
      this.config := config;
      output := new Buffer(INITIAL_SIZE);
      input := new Buffer(INITIAL_SIZE);
      state, events, tasks, trace := Connecting, NONE_EVENT, [], [];
      shutdowns, asked, overrun := 0, false, false;
      wire, accepted, delivered, consumed, levels := [], [], [], [], [0];
    }

    predicate IsWriting()
      reads this
    {
      events & WRITE_EVENT != 0
    }

    /** The channel's mask changes and its Update() goes to the poller. */
    method SetEvents(mask: Mask)
      requires Valid()
      modifies this`events, this`trace
      ensures Valid() && View() == ConnectionSpec.SetEvents(old(View()), mask)
    {
      events := mask;
      trace := trace + [Update(mask)];
    }

    method QueueComplete()
      requires Valid()
      modifies this`tasks
      ensures Valid() && View() == ConnectionSpec.QueueComplete(config, old(View()))
    {
      if config.hasWriteComplete {
        tasks := tasks + [WriteComplete(|accepted|)];
      }
    }

    method WriteNow(data: bytes, complete: bool)
      requires Valid()
      modifies this`wire, this`accepted, this`tasks
      ensures Valid() && View() == ConnectionSpec.WriteNow(config, old(View()), data, complete)
    {
      wire := wire + data;
      accepted := accepted + data;
      if complete {
        QueueComplete();
      }
    }

    method SendInLoop(msg: bytes, result: WriteResult)
      requires Valid()
      modifies this, output, output.buf
      ensures Valid() && SameBuffers()
      ensures View() == ConnectionSpec.SendInLoop(config, old(View()), msg, result)
    {
      if overrun || state == Disconnected {
        return;
      }
      var nwrote := 0;
      if !IsWriting() && output.writerIndex - output.readerIndex == 0 {
        if result.PeerGone? {
          return;
        }
        nwrote := Count(result, |msg|);
        WriteNow(msg[..nwrote], result.Wrote? && nwrote == |msg|);
      }
      if nwrote != |msg| {
        BufferRest(msg[nwrote..]);
      }
    }

    method NoteLevel(oldLen: nat, newLen: nat)
      requires Valid()
      modifies this`tasks, this`levels
      ensures Valid() && View() == ConnectionSpec.NoteLevel(config, old(View()), oldLen, newLen)
    {
      if newLen >= config.highWaterMark && oldLen < config.highWaterMark {
        tasks := tasks + [HighWater(newLen)];
      }
      levels := levels + [newLen];
    }

    method Watch()
      requires Valid()
      modifies this`events, this`trace
      ensures Valid() && View() == ConnectionSpec.Watch(old(View()))
    {
      if !IsWriting() {
        SetEvents(NewMask(EnableWriting, events));
      }
    }

    method BufferRest(rest: bytes)
      requires Valid()
      modifies this, output, output.buf
      ensures Valid() && SameBuffers()
      ensures View() == ConnectionSpec.BufferRest(config, old(View()), rest)
    {
      NoteRest(rest);
      StoreRest(rest);
    }

    method NoteRest(rest: bytes)
      requires Valid()
      modifies this`accepted, this`tasks, this`levels
      ensures Valid() && View() == Noted(config, old(View()), rest)
    {
      var oldLen := output.writerIndex - output.readerIndex;
      accepted := accepted + rest;
      NoteLevel(oldLen, oldLen + |rest|);
    }

    method StoreRest(rest: bytes)
      requires Valid()
      modifies this`events, this`trace, this`overrun, output, output.buf
      ensures Valid() && SameBuffers()
      ensures View() == ConnectionSpec.StoreRest(old(View()), rest)
    {
      var ok := AppendOut(rest);
      if ok {
        Watch();
      } else {
        overrun := true;
      }
    }

    method AppendOut(rest: bytes) returns (ok: bool)
      requires Valid()
      modifies output, output.buf
      ensures Valid() && SameBuffers()
      ensures ok <==> !old(output.View()).Overruns(|rest|)
      ensures ok ==> View() == old(View()).(output := BufferSpec.Append(old(output.View()), rest))
      ensures !ok ==> View() == old(View()).(output := Ensure(old(output.View()), |rest|, 0))
    {
      ok := output.Append(rest);
    }

    /** `Send`: on the loop thread; `result` is what the direct write would report. */
    method Send(msg: bytes, result: WriteResult)
      requires Valid()
      modifies this, output, output.buf
      ensures Valid() && SameBuffers()
      ensures View() == RunAct(config, old(View()), ActSend(msg, result))
    {
      if state == Connected {
        SendInLoop(msg, result);
      }
    }

    method ShutdownInLoop()
      requires Valid()
      modifies this`shutdowns
      ensures Valid() && View() == ConnectionSpec.ShutdownInLoop(old(View()))
    {
      if !overrun && !IsWriting() {
        shutdowns := shutdowns + 1;
      }
    }

    /** `Shutdown` on the loop thread. */
    method Shutdown()
      requires Valid()
      modifies this`state, this`shutdowns
      ensures Valid() && View() == ConnectionSpec.Shutdown(old(View()))
    {
      if !overrun && state == Connected {
        state := Disconnected;
        ShutdownInLoop();
      }
    }

    method HandleWrite(result: WriteResult)
      requires Valid()
      modifies this, output, output.buf
      ensures Valid() && SameBuffers()
      ensures View() == ConnectionSpec.HandleWrite(config, old(View()), result)
    {
      if !overrun && IsWriting() {
        var readable := output.writerIndex - output.readerIndex;
        var n := Count(result, readable);
        if n > 0 {
          Drained(n);
          if output.writerIndex - output.readerIndex == 0 {
            Emptied();
          }
        }
      }
    }

    method Drained(n: nat)
      requires Valid() && n <= output.View().Readable()
      modifies this`wire, this`levels, output`readerIndex, output`writerIndex
      ensures Valid() && View() == ConnectionSpec.Drained(old(View()), n)
    {
      levels := levels + [output.writerIndex - output.readerIndex - n];
      wire := wire + output.buf[output.readerIndex..output.writerIndex][..n];
      output.Retrive(n);
    }

    method Emptied()
      requires Valid() && !overrun
      modifies this`events, this`trace, this`tasks, this`shutdowns
      ensures Valid() && View() == ConnectionSpec.Emptied(config, old(View()))
    {
      SetEvents(NewMask(DisableWriting, events));
      QueueComplete();
      if state == Disconnecting {
        ShutdownInLoop();
      }
    }

    method ConnectionEstablished()
      requires Valid()
      modifies this`state, this`events, this`trace
      ensures Valid() && View() == Established(old(View()))
    {
      state := Connected;
      SetEvents(NewMask(EnableReading, events));
      trace := trace + [Up];
    }

    method GoDown()
      requires Valid()
      modifies this`state, this`events, this`trace
      ensures Valid() && View() == ConnectionSpec.GoDown(old(View()))
    {
      state := Disconnected;
      SetEvents(NewMask(DisableAll, events));
      trace := trace + [Down];
    }

    method HandleClose()
      requires Valid()
      modifies this`state, this`events, this`trace
      ensures Valid() && View() == ConnectionSpec.HandleClose(old(View()))
    {
      if !overrun {
        GoDown();
        trace := trace + [CloseCb];
      }
    }

    method ConnectDestroyed()
      requires Valid()
      modifies this`state, this`events, this`trace
      ensures Valid() && View() == Destroyed(old(View()))
    {
      if !overrun {
        if state == Connected {
          GoDown();
        }
        trace := trace + [Removed];
      }
    }

    /** What the message callback does to its own connection, one act after the other. */
    method Callback(take: bool, acts: seq<Act>)
      requires Valid()
      modifies this, output, output.buf, input, input.buf
      ensures Valid() && SameBuffers()
      ensures View() == RunActs(config, Take(old(View()), take), acts)
    {
      if take {
        var s := input.RetriveAllAsString();
        consumed := consumed + s.GetOr([]);
      }
      ghost var start := View();
      assert start == Take(old(View()), take);
      for i := 0 to |acts|
        invariant Valid() && SameBuffers()
        invariant RunActs(config, View(), acts[i..]) == RunActs(config, start, acts)
      {
        assert acts[i..][0] == acts[i] && acts[i..][1..] == acts[i + 1..];
        match acts[i] {
          case ActSend(msg, result) => Send(msg, result);
          case ActShutdown => Shutdown();
        }
      }
    }

    method HandleRead(result: ReadResult, take: bool, acts: seq<Act>)
      requires Valid()
      requires result.ReadOk? ==>
        |result.data| <= input.View().Writable() + if input.View().Writable() < EXTRA_SIZE then EXTRA_SIZE else 0
      modifies this, output, output.buf, input, input.buf
      ensures Valid() && SameBuffers()
      ensures View() == ConnectionSpec.HandleRead(config, old(View()), result, take, acts)
    {
      if overrun {
        return;
      }
      if result == ReadOk([]) {
        HandleClose();
        return;
      }
      var n := ReadInput(result);
      if !overrun && n > 0 {
        Callback(take, acts);
      }
    }

    method ReadInput(result: ReadResult) returns (n: int)
      requires Valid() && !overrun && result != ReadOk([])
      requires result.ReadOk? ==>
        |result.data| <= input.View().Writable() + if input.View().Writable() < EXTRA_SIZE then EXTRA_SIZE else 0
      modifies this`delivered, this`trace, this`overrun, input, input.buf
      ensures Valid() && SameBuffers()
      ensures n > 0 <==> result.ReadOk?
      ensures result.ReadError? ==> View() == old(View())
      ensures result.ReadOk? ==>
        if old(input.View()).SpillOverruns(|result.data|)
        then View() == SpilledOver(old(View()), result.data)
        else View() == Received(old(View()), result.data)
    {
      var ok;
      n, ok := input.ReadFd(result);
      if n > 0 {
        delivered := delivered + result.data;
      }
      if !ok {
        overrun := true;
      } else if n > 0 {
        trace := trace + [Message];
      }
    }

    /** Channel::HandleEventWithGuard on `revents`. */
    method HandleEvent(revents: Mask, read: ReadResult, take: bool, acts: seq<Act>, write: WriteResult)
      requires Valid()
      requires read.ReadOk? ==>
        |read.data| <= input.View().Writable() + if input.View().Writable() < EXTRA_SIZE then EXTRA_SIZE else 0
      modifies this, output, output.buf, input, input.buf
      ensures Valid() && SameBuffers()
      ensures View() == Dispatch(config, old(View()), revents, read, take, acts, write)
    {
      if revents & EPOLLHUP != 0 && revents & EPOLLIN == 0 {
        HandleClose();
      }
      if revents & (EPOLLIN | EPOLLPRI) != 0 {
        HandleRead(read, take, acts);
      }
      if revents & EPOLLOUT != 0 {
        HandleWrite(write);
      }
    }
  }
}
