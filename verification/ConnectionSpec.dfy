/** TcpConnection as values: what each handler does to the state, the event mask, the buffers and the socket. */
module ConnectionSpec {
  import opened Bytes
  import opened BufferSpec
  import opened PollerSpec

  /** `Disconnecting` is declared by the source and never entered. */
  datatype StateE = Connecting | Connected | Disconnecting | Disconnected

  /** What the connection tells its poller and its owner, in order. */
  datatype Event = Update(mask: Mask) | Up | Message | Down | CloseCb | Removed

  /**
   * Functors the connection queues on its loop. `WriteComplete(n)`: the write-complete callback, n bytes having been
   * accepted by then. `HighWater(n)`: the high-water callback with the buffered length.
   */
  datatype Task = WriteComplete(accepted: nat) | HighWater(length: nat)

  datatype Config = Config(hasWriteComplete: bool, highWaterMark: nat)

  /**
   * `wire`: written to the socket. `accepted`: messages SendInLoop did not drop. `delivered`: bytes readv returned.
   * `consumed`: bytes the message callback took. `levels`: the buffered lengths so far. `shutdowns`: shutdown
   * calls on the socket. `asked`: a ShutdownInLoop is queued. `overrun`: a copy was about to leave a vector;
   * nothing is said of what follows.
   */
  datatype Conn = Conn(
    state: StateE, events: Mask, output: Buf, input: Buf,
    wire: bytes, accepted: bytes, delivered: bytes, consumed: bytes,
    tasks: seq<Task>, levels: seq<nat>, trace: seq<Event>,
    shutdowns: nat, asked: bool, overrun: bool)

  /** `write`: how much was written, or the error that matters. A count above the length asked for cannot happen. */
  datatype WriteResult = Wrote(n: nat) | WouldBlock | PeerGone | OtherError

  /** What the message callback does to its own connection. */
  datatype Act = ActSend(msg: bytes, result: WriteResult) | ActShutdown

  const EPOLLIN: Mask := 1
  const EPOLLPRI: Mask := 2
  const EPOLLOUT: Mask := 4
  const EPOLLHUP: Mask := 16

  function Created(): Conn {
    var b := Fresh(INITIAL_SIZE);
    Conn(Connecting, NONE_EVENT, b, b, [], [], [], [], [], [0], [], 0, false, false)
  }

  ghost predicate Sound(c: Conn) {
    c.output.Valid() && c.input.Valid()
  }

  predicate IsWriting(c: Conn) {
    c.events & WRITE_EVENT != 0
  }

  function SetEvents(c: Conn, m: Mask): Conn {
    c.(events := m, trace := c.trace + [Update(m)])
  }

  function Count(result: WriteResult, len: nat): (n: nat)
    ensures n <= len
  {
    if !result.Wrote? then 0 else if result.n <= len then result.n else len
  }

  // ---------------------------------------------------------------- output

  /** Nothing buffered and not waiting for the socket: SendInLoop writes at once. */
  predicate Direct(c: Conn)
    requires Sound(c)
  {
    !IsWriting(c) && c.output.Readable() == 0
  }

  /** The message is dropped: disconnected, or the peer turned out to be gone. */
  predicate Drops(c: Conn, result: WriteResult)
    requires Sound(c)
  {
    c.state == Disconnected || (Direct(c) && result.PeerGone?)
  }

  /** The write-complete callback is queued, if there is one. */
  function QueueComplete(cfg: Config, c: Conn): Conn {
    if cfg.hasWriteComplete then c.(tasks := c.tasks + [WriteComplete(|c.accepted|)]) else c
  }

  /** The direct write put `data` on the wire; `complete` if that was the whole message. */
  function WriteNow(cfg: Config, c: Conn, data: bytes, complete: bool): Conn {
    var c1 := c.(wire := c.wire + data, accepted := c.accepted + data);
    if complete then QueueComplete(cfg, c1) else c1
  }

  function NoteLevel(cfg: Config, c: Conn, oldLen: nat, newLen: nat): Conn {
    var crosses := newLen >= cfg.highWaterMark && oldLen < cfg.highWaterMark;
    c.(levels := c.levels + [newLen], tasks := if crosses then c.tasks + [HighWater(newLen)] else c.tasks)
  }

  /** The rest of a message is accepted, and the buffered length it makes noted. */
  function Noted(cfg: Config, c: Conn, rest: bytes): (r: Conn)
    requires Sound(c)
    ensures Sound(r) && r.state == c.state && r.wire == c.wire && r.accepted == c.accepted + rest
  {
    NoteLevel(cfg, c.(accepted := c.accepted + rest), c.output.Readable(), c.output.Readable() + |rest|)
  }

  /** What the direct write left over is accepted and buffered, and the socket watched. */
  function BufferRest(cfg: Config, c: Conn, rest: bytes): (r: Conn)
    requires Sound(c)
    ensures Sound(r) && r.state == c.state && r.wire == c.wire && r.accepted == c.accepted + rest
  {
    StoreRest(Noted(cfg, c, rest), rest)
  }

  function StoreRest(c: Conn, rest: bytes): (r: Conn)
    requires Sound(c)
    ensures Sound(r) && r.state == c.state && r.wire == c.wire && r.accepted == c.accepted
  {
    if c.output.Overruns(|rest|) then c.(output := Ensure(c.output, |rest|, 0), overrun := true)
    else Watch(c.(output := Append(c.output, rest)))
  }

  function Watch(c: Conn): Conn {
    if IsWriting(c) then c else SetEvents(c, NewMask(EnableWriting, c.events))
  }

  function SendInLoop(cfg: Config, c: Conn, msg: bytes, result: WriteResult): (r: Conn)
    requires Sound(c)
    ensures Sound(r) && r.state == c.state
  {
    if c.overrun || Drops(c, result) then c
    else
      var n := if Direct(c) then Count(result, |msg|) else 0;
      var c1 := if Direct(c) then WriteNow(cfg, c, msg[..n], result.Wrote? && n == |msg|) else c;
      if n == |msg| then c1 else BufferRest(cfg, c1, msg[n..])
  }

  function ShutdownInLoop(c: Conn): (r: Conn)
    ensures Sound(c) ==> Sound(r)
  {
    if c.overrun || IsWriting(c) then c else c.(shutdowns := c.shutdowns + 1)
  }

  /** `n` buffered bytes went out. */
  function Drained(c: Conn, n: nat): (r: Conn)
    requires Sound(c) && n <= c.output.Readable()
    ensures Sound(r)
  {
    c.(wire := c.wire + c.output.Content()[..n], output := Retrive(c.output, n),
       levels := c.levels + [c.output.Readable() - n])
  }

  /** The buffer ran empty. */
  function Emptied(cfg: Config, c: Conn): (r: Conn)
    ensures Sound(c) ==> Sound(r)
  {
    var c2 := QueueComplete(cfg, SetEvents(c, NewMask(DisableWriting, c.events)));
    if c2.state == Disconnecting then ShutdownInLoop(c2) else c2
  }

  function HandleWrite(cfg: Config, c: Conn, result: WriteResult): (r: Conn)
    requires Sound(c)
    ensures Sound(r)
  {
    var n := Count(result, c.output.Readable());
    if c.overrun || !IsWriting(c) || n == 0 then c
    else if n < c.output.Readable() then Drained(c, n)
    else Emptied(cfg, Drained(c, n))
  }

  /** `Shutdown` on the loop thread. */
  function Shutdown(c: Conn): (r: Conn)
    ensures Sound(c) ==> Sound(r)
  {
    if c.overrun || c.state != Connected then c else ShutdownInLoop(c.(state := Disconnected))
  }

  /** `Shutdown` on another thread. */
  function ShutdownElsewhere(c: Conn): (r: Conn)
    ensures Sound(c) ==> Sound(r)
  {
    if c.overrun || c.state != Connected then c else c.(state := Disconnected, asked := true)
  }

  /** The queued ShutdownInLoop runs. */
  function ShutdownRuns(c: Conn): (r: Conn)
    ensures Sound(c) ==> Sound(r)
  {
    ShutdownInLoop(c.(asked := false))
  }

  // ---------------------------------------------------------------- life cycle

  function Established(c: Conn): (r: Conn)
    ensures Sound(c) ==> Sound(r)
  {
    var c1 := SetEvents(c.(state := Connected), NewMask(EnableReading, c.events));
    c1.(trace := c1.trace + [Up])
  }

  /** Disconnected, nothing watched, and the down callback. */
  function GoDown(c: Conn): (r: Conn)
    ensures Sound(c) ==> Sound(r)
  {
    var c1 := SetEvents(c.(state := Disconnected), NewMask(DisableAll, c.events));
    c1.(trace := c1.trace + [Down])
  }

  /** The close callback follows the down callback. */
  function HandleClose(c: Conn): (r: Conn)
    ensures Sound(c) ==> Sound(r)
  {
    if c.overrun then c else GoDown(c).(trace := GoDown(c).trace + [CloseCb])
  }

  function Destroyed(c: Conn): (r: Conn)
    ensures Sound(c) ==> Sound(r)
  {
    if c.overrun then c
    else
      var c1 := if c.state == Connected then GoDown(c) else c;
      c1.(trace := c1.trace + [Removed])
  }

  // ---------------------------------------------------------------- input

  function RunAct(cfg: Config, c: Conn, act: Act): (r: Conn)
    requires Sound(c)
    ensures Sound(r)
  {
    match act
    case ActSend(msg, result) => if c.state == Connected then SendInLoop(cfg, c, msg, result) else c
    case ActShutdown => Shutdown(c)
  }

  function RunActs(cfg: Config, c: Conn, acts: seq<Act>): (r: Conn)
    requires Sound(c)
    ensures Sound(r)
    decreases |acts|
  {
    if acts == [] then c else RunActs(cfg, RunAct(cfg, c, acts[0]), acts[1..])
  }

  /** The callback takes everything readable, or leaves the buffer as it is. */
  function Take(c: Conn, take: bool): (r: Conn)
    requires Sound(c)
    ensures Sound(r)
  {
    if !take then c
    else c.(consumed := c.consumed + AsString(c.input, c.input.Readable()).GetOr([]),
            input := Retrive(c.input, c.input.Readable()))
  }

  function Received(c: Conn, data: bytes): (r: Conn)
    requires Sound(c) && !c.input.SpillOverruns(|data|)
    ensures Sound(r)
  {
    c.(input := ReadFd(c.input, data), delivered := c.delivered + data, trace := c.trace + [Message])
  }

  /** What the vector had no room for is about to leave it. */
  function SpilledOver(c: Conn, data: bytes): (r: Conn)
    requires Sound(c) && c.input.SpillOverruns(|data|)
    ensures Sound(r)
  {
    c.(input := Spilled(c.input, data), delivered := c.delivered + data, overrun := true)
  }

  function HandleRead(cfg: Config, c: Conn, result: ReadResult, take: bool, acts: seq<Act>): (r: Conn)
    requires Sound(c)
    ensures Sound(r)
  {
    if c.overrun || result.ReadError? then c
    else if result.data == [] then HandleClose(c)
    else if c.input.SpillOverruns(|result.data|) then SpilledOver(c, result.data)
    else RunActs(cfg, Take(Received(c, result.data), take), acts)
  }

  /** HandleEventWithGuard. */
  function Dispatch(cfg: Config, c: Conn, revents: Mask, read: ReadResult, take: bool, acts: seq<Act>,
                    write: WriteResult): (r: Conn)
    requires Sound(c)
    ensures Sound(r)
  {
    var c1 := if HangsUp(revents) then HandleClose(c) else c;
    var c2 := if revents & (EPOLLIN | EPOLLPRI) != 0 then HandleRead(cfg, c1, read, take, acts) else c1;
    if revents & EPOLLOUT != 0 then HandleWrite(cfg, c2, write) else c2
  }

  predicate HangsUp(revents: Mask) {
    revents & EPOLLHUP != 0 && revents & EPOLLIN == 0
  }

  /** A hang-up without EPOLLIN that carries EPOLLPRI: close and read in one dispatch. */
  predicate HangupWithPri(revents: Mask) {
    HangsUp(revents) && revents & EPOLLPRI != 0
  }

  // ---------------------------------------------------------------- runs

  datatype Call =
    | CallEstablished
    | CallSend(msg: bytes, result: WriteResult)     // SendInLoop, direct or as a queued functor
    | CallShutdown                                  // on the loop thread
    | CallShutdownElsewhere                         // on another thread: the state now, ShutdownInLoop queued
    | CallShutdownInLoop
    | CallDispatch(revents: Mask, read: ReadResult, take: bool, acts: seq<Act>, write: WriteResult)
    | CallDestroyed

  /**
   * What the loop and the server guarantee: the poller reports only channels it watches, sends are queued for
   * connections that have been up, ConnectDestroyed follows the close.
   */
  ghost predicate Enabled(c: Conn, call: Call) {
    match call
    case CallEstablished => c.state == Connecting
    case CallSend(_, _) => c.state != Connecting
    case CallShutdownInLoop => c.asked
    case CallDispatch(revents, _, _, _, _) => c.events != NONE_EVENT && !HangupWithPri(revents)
    case CallDestroyed => c.state == Disconnected && c.events == NONE_EVENT && Removed !in c.trace
    case _ => true
  }

  function Perform(cfg: Config, c: Conn, call: Call): (r: Conn)
    requires Sound(c)
    ensures Sound(r)
  {
    match call
    case CallEstablished => Established(c)
    case CallSend(msg, result) => SendInLoop(cfg, c, msg, result)
    case CallShutdown => Shutdown(c)
    case CallShutdownElsewhere => ShutdownElsewhere(c)
    case CallShutdownInLoop => ShutdownRuns(c)
    case CallDispatch(revents, read, take, acts, write) => Dispatch(cfg, c, revents, read, take, acts, write)
    case CallDestroyed => Destroyed(c)
  }

  ghost predicate Possible(cfg: Config, c: Conn, calls: seq<Call>)
    requires Sound(c)
    decreases |calls|
  {
    calls == [] || (Enabled(c, calls[0]) && Possible(cfg, Perform(cfg, c, calls[0]), calls[1..]))
  }

  function PerformAll(cfg: Config, c: Conn, calls: seq<Call>): (r: Conn)
    requires Sound(c)
    ensures Sound(r)
    decreases |calls|
  {
    if calls == [] then c else PerformAll(cfg, Perform(cfg, c, calls[0]), calls[1..])
  }
}
