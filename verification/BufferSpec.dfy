/** The two-index byte buffer as values: what each operation does to the vector and the indices. */
module BufferSpec {
  import opened Bytes

  const CHEAP_PREPEND: nat := 8
  const INITIAL_SIZE: nat := 1024
  const EXTRA_SIZE: nat := 65536

  /** The vector and the two indices of a buffer at one moment. */
  datatype Buf = Buf(mem: bytes, reader: nat, writer: nat) {
    ghost predicate Valid() {
      CHEAP_PREPEND <= reader <= writer <= |mem|
    }

    function Readable(): nat
      requires Valid()
    {
      writer - reader
    }

    function Writable(): nat
      requires Valid()
    {
      |mem| - writer
    }

    function Content(): bytes
      requires Valid()
    {
      mem[reader..writer]
    }

    /** Room that compaction can give, counted the way the source counts it. */
    function Slack(): nat
      requires Valid()
    {
      reader + Writable()
    }

    /** `Append(len)` copies past the end of the vector: the 8-wide window. */
    predicate Overruns(len: nat)
      requires Valid()
    {
      Slack() - CHEAP_PREPEND < len <= Slack()
    }

    /** `readv` got more than the vector could hold, and appending the rest overruns. */
    predicate SpillOverruns(n: nat)
      requires Valid()
    {
      n > Writable() && reader - CHEAP_PREPEND < n - Writable() <= reader
    }
  }

  /** What a read from the socket reported. */
  datatype ReadResult = ReadError | ReadOk(data: bytes)

  function Fresh(initialSize: nat): (b: Buf)
    ensures b.Valid() && b.Content() == []
  {
    Buf(Resize([], CHEAP_PREPEND + initialSize), CHEAP_PREPEND, CHEAP_PREPEND)
  }

  /** vector::resize: truncates, or pads with zero bytes. */
  function Resize(mem: bytes, n: nat): (r: bytes)
    ensures |r| == n
    ensures forall i :: 0 <= i < n ==> r[i] == if i < |mem| then mem[i] else 0
  {
    seq(n, i requires 0 <= i => if i < |mem| then mem[i] else 0)
  }

  /** Writes `data` over the bytes from `at` on. */
  function Overlay(mem: bytes, at: nat, data: bytes): (r: bytes)
    requires at + |data| <= |mem|
    ensures |r| == |mem|
    ensures forall k :: 0 <= k < |mem| ==> r[k] == if at <= k < at + |data| then data[k - at] else mem[k]
  {
    mem[..at] + data + mem[at + |data|..]
  }

  /**
   * EnsureWriteableBytes with `extra` added to the requested length in its test.
   * The source adds 0; counting the reserved bytes would add CHEAP_PREPEND.
   */
  function Ensure(b: Buf, len: nat, extra: nat): (r: Buf)
    requires b.Valid()
    ensures r.Valid()
    ensures r.Content() == b.Content()
  {
    if b.Slack() < len + extra then
      Buf(Resize(b.mem, b.writer + len), b.reader, b.writer)
    else
      Buf(Overlay(b.mem, CHEAP_PREPEND, b.Content()), CHEAP_PREPEND, CHEAP_PREPEND + b.Readable())
  }

  function Append(b: Buf, data: bytes): (r: Buf)
    requires b.Valid() && !b.Overruns(|data|)
    ensures r.Valid()
    ensures r.Content() == b.Content() + data
  {
    var e := Ensure(b, |data|, 0);
    EnsureRoom(b, |data|);
    var r := Buf(Overlay(e.mem, e.writer, data), e.reader, e.writer + |data|);
    assert r.Content() == e.Content() + data;
    r
  }

  function Retrive(b: Buf, len: nat): (r: Buf)
    requires b.Valid()
    ensures r.Valid() && r.mem == b.mem
    ensures r.Content() == b.Content()[if len < b.Readable() then len else b.Readable()..]
  {
    if len < b.Readable() then b.(reader := b.reader + len)
    else Buf(b.mem, CHEAP_PREPEND, CHEAP_PREPEND)
  }

  /** What `RetriveAsString(len)` returns; None when it would read past the vector. */
  function AsString(b: Buf, len: nat): Option<bytes>
    requires b.Valid()
  {
    var r := Retrive(b, len);
    if r.reader + len <= |b.mem| then Some(b.mem[r.reader..r.reader + len]) else None
  }

  /** The buffer after `readv` delivered `data`. */
  function ReadFd(b: Buf, data: bytes): (r: Buf)
    requires b.Valid() && !b.SpillOverruns(|data|)
    ensures r.Valid()
    ensures r.Content() == b.Content() + data
    ensures b.reader == CHEAP_PREPEND ==> r.reader == CHEAP_PREPEND
  {
    if |data| <= b.Writable() then
      var r := Buf(Overlay(b.mem, b.writer, data), b.reader, b.writer + |data|);
      assert r.Content() == b.Content() + data;
      r
    else
      var full := FillVector(b, data);
      assert data == data[..b.Writable()] + data[b.Writable()..];
      Append(full, data[b.Writable()..])
  }

  /** The buffer when appending the rest would leave the vector: the moment before that copy. */
  function Spilled(b: Buf, data: bytes): (r: Buf)
    requires b.Valid() && b.SpillOverruns(|data|)
    ensures r.Valid() && r.reader == CHEAP_PREPEND
    ensures r.Content() == b.Content() + data[..b.Writable()]
  {
    Ensure(FillVector(b, data), |data| - b.Writable(), 0)
  }

  /** `readv` filled the whole vector from the front of `data`. */
  function FillVector(b: Buf, data: bytes): (r: Buf)
    requires b.Valid() && |data| > b.Writable()
    ensures r.Valid() && r.reader == b.reader && r.writer == |r.mem| == |b.mem|
    ensures r.Content() == b.Content() + data[..b.Writable()]
  {
    var mem := b.mem[..b.writer] + data[..b.Writable()];
    assert mem[b.reader..] == b.Content() + data[..b.Writable()];
    Buf(mem, b.reader, |mem|)
  }

  // ---------------------------------------------------------------- room

  /** As written, the test leaves room for `len` bytes exactly outside the 8-wide window. */
  lemma EnsureRoom(b: Buf, len: nat)
    requires b.Valid()
    ensures len <= Ensure(b, len, 0).Writable() <==> !b.Overruns(len)
  {
  }

  /** With the reserved bytes counted the room is there for every length. */
  lemma CorrectedEnsureRoom(b: Buf, len: nat)
    requires b.Valid()
    ensures len <= Ensure(b, len, CHEAP_PREPEND).Writable()
    ensures Ensure(b, len, CHEAP_PREPEND).Content() == b.Content()
  {
  }

  /** The smallest failing call: a fresh buffer asked to take 1025 bytes. */
  lemma FreshBufferOverruns()
    ensures Fresh(INITIAL_SIZE).Overruns(INITIAL_SIZE + 1)
    ensures Ensure(Fresh(INITIAL_SIZE), INITIAL_SIZE + 1, 0).Writable() == INITIAL_SIZE
  {
  }

  /** A buffer whose read index never moved overruns on a spill of 1 to 8 bytes, and on no other. */
  lemma SpillWindow(b: Buf, n: nat)
    requires b.Valid() && b.reader == CHEAP_PREPEND
    ensures b.SpillOverruns(n) <==> 1 <= n - b.Writable() <= CHEAP_PREPEND
  {
  }

  // ---------------------------------------------------------------- RetriveAsString

  /** A vector of zeros with a single 1 at `at`. */
  function Marked(size: nat, at: nat): (m: bytes)
    ensures |m| == size
    ensures forall i :: 0 <= i < size ==> m[i] == if i == at then 1 else 0
  {
    seq(size, i requires 0 <= i => if i == at then 1 else 0)
  }

  /**
   * RetriveAsString moves the read index before it reads. It returns the first `len` readable bytes
   * whatever they are exactly when nothing is asked for, or everything is and the index was at the start.
   */
  lemma AsStringExact(size: nat, reader: nat, writer: nat, len: nat)
    requires CHEAP_PREPEND <= reader <= writer <= size && len <= writer - reader
    ensures (forall m: bytes | |m| == size :: AsString(Buf(m, reader, writer), len) == Some(m[reader..reader + len]))
       <==> len == 0 || (len == writer - reader && reader == CHEAP_PREPEND)
  {
    if len != 0 && !(len == writer - reader && reader == CHEAP_PREPEND) {
      var m := Marked(size, reader);
      var at := Retrive(Buf(m, reader, writer), len).reader;
      assert at != reader && m[reader..reader + len][0] == 1;
      if at + len <= size {
        assert m[at..at + len][0] == m[at] == 0;
      }
    }
  }

  /** The way the chat server calls it: everything at once, index at the start. */
  lemma AllAsString(b: Buf)
    requires b.Valid() && b.reader == CHEAP_PREPEND
    ensures AsString(b, b.Readable()) == Some(b.Content())
    ensures Retrive(b, b.Readable()).Content() == []
  {
  }

  // ---------------------------------------------------------------- runs

  datatype Op = OpAppend(data: bytes) | OpRetrive(len: nat) | OpRetriveAll

  function Step(b: Buf, op: Op): (r: Buf)
    requires b.Valid() && (op.OpAppend? ==> !b.Overruns(|op.data|))
    ensures r.Valid()
  {
    match op
    case OpAppend(d) => Append(b, d)
    case OpRetrive(n) => Retrive(b, n)
    case OpRetriveAll => Retrive(b, b.Readable())
  }

  /** No append of the run falls in the window. */
  ghost predicate Fits(b: Buf, ops: seq<Op>)
    requires b.Valid()
    decreases |ops|
  {
    ops == [] || ((ops[0].OpAppend? ==> !b.Overruns(|ops[0].data|)) && Fits(Step(b, ops[0]), ops[1..]))
  }

  function Run(b: Buf, ops: seq<Op>): (r: Buf)
    requires b.Valid() && Fits(b, ops)
    ensures r.Valid()
    decreases |ops|
  {
    if ops == [] then b else Run(Step(b, ops[0]), ops[1..])
  }

  /** The plain byte queue. */
  function Queue(q: bytes, ops: seq<Op>): bytes
    decreases |ops|
  {
    if ops == [] then q
    else match ops[0]
      case OpAppend(d) => Queue(q + d, ops[1..])
      case OpRetrive(n) => Queue(q[if n < |q| then n else |q|..], ops[1..])
      case OpRetriveAll => Queue([], ops[1..])
  }

  /** The buffer refines the queue over every run that stays out of the window. */
  lemma {:induction false} RefinesQueue(b: Buf, ops: seq<Op>)
    requires b.Valid() && Fits(b, ops)
    ensures Run(b, ops).Content() == Queue(b.Content(), ops)
    decreases |ops|
  {
    if ops != [] {
      RefinesQueue(Step(b, ops[0]), ops[1..]);
    }
  }
}
