/**
 * The buffer of m_buffer.h and m_buffer.cpp, updated in place.
 *
 * The vector is an array: growth allocates a new one, compaction moves the bytes within it. An append that would leave
 * the vector stops before it does and says so.
 */
module Buffers {
  import opened Bytes
  import opened BufferSpec

  class Buffer {
    var buf: array<byte>
    var readerIndex: nat
    var writerIndex: nat

    ghost predicate Valid()
      reads this, buf
    {
      View().Valid()
    }

    ghost function View(): Buf
      reads this, buf
    {
      Buf(buf[..], readerIndex, writerIndex)
    }

    constructor (initialSize: nat)
      ensures Valid() && fresh(buf)
      ensures View() == Fresh(initialSize)
    {
      buf := new byte[CHEAP_PREPEND + initialSize](_ => 0);
      readerIndex := CHEAP_PREPEND;
      writerIndex := CHEAP_PREPEND;
      new;
      assert buf[..] == Resize([], CHEAP_PREPEND + initialSize);
    }

    method Retrive(len: nat)
      requires Valid()
      modifies this`readerIndex, this`writerIndex
      ensures View() == BufferSpec.Retrive(old(View()), len)
    {
      if len < writerIndex - readerIndex {
        readerIndex := readerIndex + len;
      } else {
        RetriveAll();
      }
    }

    method RetriveAll()
      requires Valid()
      modifies this`readerIndex, this`writerIndex
      ensures View() == Buf(old(buf[..]), CHEAP_PREPEND, CHEAP_PREPEND)
    {
      readerIndex, writerIndex := CHEAP_PREPEND, CHEAP_PREPEND;
    }

    method RetriveAsString(len: nat) returns (s: Option<bytes>)
      requires Valid()
      modifies this`readerIndex, this`writerIndex
      ensures View() == BufferSpec.Retrive(old(View()), len)
      ensures s == AsString(old(View()), len)
    {
      Retrive(len);
      if readerIndex + len <= buf.Length {
        s := Some(buf[readerIndex..readerIndex + len]);
      } else {
        s := None;
      }
    }

    method RetriveAllAsString() returns (s: Option<bytes>)
      requires Valid()
      modifies this`readerIndex, this`writerIndex
      ensures View() == Buf(old(buf[..]), CHEAP_PREPEND, CHEAP_PREPEND)
      ensures s == AsString(old(View()), old(View().Readable()))
      ensures old(readerIndex) == CHEAP_PREPEND ==> s == Some(old(View().Content()))
    {
      ghost var before := View();
      s := RetriveAsString(writerIndex - readerIndex);
      if before.reader == CHEAP_PREPEND {
        AllAsString(before);
      }
    }

    method EnsureWriteableBytes(len: nat)
      requires Valid()
      modifies this, buf
      ensures buf == old(buf) || fresh(buf)
      ensures View() == Ensure(old(View()), len, 0)
    {
      if readerIndex + (buf.Length - writerIndex) < len {
        GrowTo(writerIndex + len);
      } else {
        Compact();
      }
    }

    method GrowTo(n: nat)
      requires Valid() && buf.Length <= n
      modifies this`buf
      ensures fresh(buf)
      ensures View() == old(View()).(mem := Resize(old(buf[..]), n))
    {
      var bigger := new byte[n](i requires 0 <= i reads this, buf =>
        if i < buf.Length then buf[i] else 0);
      assert bigger[..] == Resize(buf[..], n);
      buf := bigger;
    }

    /** The forward copy of the readable bytes down to the reserved prefix, overlapping or not. */
    method Compact()
      requires Valid()
      modifies this`readerIndex, this`writerIndex, buf
      ensures View() == Buf(Overlay(old(buf[..]), CHEAP_PREPEND, old(View().Content())),
                            CHEAP_PREPEND, CHEAP_PREPEND + old(View().Readable()))
    {
      var readable := writerIndex - readerIndex;
      ghost var was := buf[..];
      for i := 0 to readable
        modifies buf
        invariant forall k :: 0 <= k < buf.Length ==>
          buf[k] == if CHEAP_PREPEND <= k < CHEAP_PREPEND + i
                    then was[readerIndex..writerIndex][k - CHEAP_PREPEND] else was[k]
      {
        buf[CHEAP_PREPEND + i] := buf[readerIndex + i];
      }
      assert buf[..] == Overlay(was, CHEAP_PREPEND, was[readerIndex..writerIndex]);
      readerIndex := CHEAP_PREPEND;
      writerIndex := readerIndex + readable;
    }

    /** `ok` is false when the copy would leave the vector; the model stops before that copy. */
    method Append(data: bytes) returns (ok: bool)
      requires Valid()
      modifies this, buf
      ensures buf == old(buf) || fresh(buf)
      ensures ok <==> !old(View()).Overruns(|data|)
      ensures ok ==> View() == BufferSpec.Append(old(View()), data)
      ensures !ok ==> View() == Ensure(old(View()), |data|, 0)
    {
      EnsureRoom(View(), |data|);
      EnsureWriteableBytes(|data|);
      ok := |data| <= buf.Length - writerIndex;
      if ok {
        CopyIn(data);
      }
    }

    /** `std::copy` to BeginWrite(), and the index moved past it. */
    method CopyIn(data: bytes)
      requires Valid() && |data| <= buf.Length - writerIndex
      modifies this`writerIndex, buf
      ensures View() == Buf(Overlay(old(buf[..]), old(writerIndex), data), old(readerIndex), old(writerIndex) + |data|)
    {
      ghost var was := buf[..];
      for i := 0 to |data|
        modifies buf
        invariant forall k :: 0 <= k < buf.Length ==>
          buf[k] == if writerIndex <= k < writerIndex + i then data[k - writerIndex] else was[k]
      {
        buf[writerIndex + i] := data[i];
      }
      assert buf[..] == Overlay(was, writerIndex, data);
      writerIndex := writerIndex + |data|;
    }

    /** `result` is what readv reported; it cannot deliver more than the two vectors hold. */
    method ReadFd(result: ReadResult) returns (n: int, ok: bool)
      requires Valid()
      requires result.ReadOk? ==>
        |result.data| <= View().Writable() + if View().Writable() < EXTRA_SIZE then EXTRA_SIZE else 0
      modifies this, buf
      ensures buf == old(buf) || fresh(buf)
      ensures Valid()
      ensures result.ReadError? ==> n == -1 && ok && View() == old(View())
      ensures result.ReadOk? ==> n == |result.data| && (ok <==> !old(View()).SpillOverruns(|result.data|))
      ensures result.ReadOk? && ok ==> View() == BufferSpec.ReadFd(old(View()), result.data)
      ensures result.ReadOk? && !ok ==> View() == Spilled(old(View()), result.data)
    {
      if result.ReadError? {
        return -1, true;
      }
      var data := result.data;
      n := |data|;
      var writable := buf.Length - writerIndex;
      if n <= writable {
        CopyIn(data);
        ok := true;
      } else {
        ghost var before := View();
        CopyIn(data[..writable]);
        assert View().mem == FillVector(before, data).mem;
        ok := Append(data[writable..]);
      }
    }
  }
}
