/** The receive and send buffer (minimuduo/net/Buffer.cpp): a byte queue inside a growing array, with
    a reader and a writer index. */
module Buffer {
  import opened Text

  const CHEAP_PREPEND: nat := 8           // kCheapPrepend
  const EXTRA_BUFFER: nat := 65536        // the stack buffer of readFd

  class Buffer {
    var buffer: array<char>
    var readerIndex: nat
    var writerIndex: nat

    ghost predicate Valid()
      reads this
    {
      CHEAP_PREPEND <= readerIndex <= writerIndex <= buffer.Length
    }

    /** The readable bytes. */
    ghost function Contents(): Bytes
      requires Valid()
      reads this, buffer
    {
      buffer[readerIndex..writerIndex]
    }

    constructor (initialSize: nat)
      ensures Valid() && fresh(buffer) && Contents() == [] && WritableBytes() == initialSize
    {
      buffer := new char[CHEAP_PREPEND + initialSize];
      readerIndex, writerIndex := CHEAP_PREPEND, CHEAP_PREPEND;
    }

    function ReadableBytes(): nat
      requires Valid()
      reads this
    {
      writerIndex - readerIndex
    }

    function WritableBytes(): nat
      requires Valid()
      reads this
    {
      buffer.Length - writerIndex
    }

    /** `retrieve`; its caller stays within the readable bytes. */
    method Retrieve(length: nat)
      requires Valid() && length <= ReadableBytes()
      modifies this`readerIndex, this`writerIndex
      ensures Valid() && Contents() == old(Contents())[length..]
    {
      if length < writerIndex - readerIndex {
        readerIndex := readerIndex + length;
      } else {
        readerIndex, writerIndex := CHEAP_PREPEND, CHEAP_PREPEND;
      }
    }

    method RetrieveAsString(length: nat) returns (result: Bytes)
      requires Valid()
      modifies this`readerIndex, this`writerIndex
      ensures Valid() && result + Contents() == old(Contents())
      ensures |result| == if length < |old(Contents())| then length else |old(Contents())|
    {
      var n := if length < writerIndex - readerIndex then length else writerIndex - readerIndex;
      result := buffer[readerIndex..readerIndex + n];
      ghost var before := Contents();
      Retrieve(n);
      assert result == before[..n];
    }

    /** `findEOL`: the distance to the first newline, if there is one. */
    method FindEOL() returns (position: Option<nat>)
      requires Valid()
      ensures position.None? <==> '\n' !in Contents()
      ensures position.Some? ==> position.value < |Contents()| && position.value == IndexOf(Contents(), '\n')
    {
      var i := readerIndex;
      while i < writerIndex
        invariant readerIndex <= i <= writerIndex
        invariant forall k :: readerIndex <= k < i ==> buffer[k] != '\n'
      {
        if buffer[i] == '\n' {
          assert Contents()[i - readerIndex] == '\n';
          return Some(i - readerIndex);
        }
        i := i + 1;
      }
      return None;
    }

    /** `makeSpace`, as `ensureWritableBytes` calls it: the assertion of its second half holds. */
    method MakeSpace(length: nat)
      requires Valid() && WritableBytes() < length
      modifies this, buffer
      ensures Valid() && Contents() == old(Contents()) && WritableBytes() >= length
      ensures buffer == old(buffer) || fresh(buffer)
    {
      if WritableBytes() + readerIndex < length + CHEAP_PREPEND {
        Resize(writerIndex + length);
        return;
      }
      assert CHEAP_PREPEND < readerIndex;
      var readable := writerIndex - readerIndex;
      MoveDown(readable);
      readerIndex := CHEAP_PREPEND;
      writerIndex := readerIndex + readable;
    }

    /** `std::vector::resize` to a larger size. */
    method Resize(size: nat)
      requires Valid() && size >= buffer.Length
      modifies this`buffer
      ensures Valid() && fresh(buffer) && buffer.Length == size && Contents() == old(Contents())
    {
      var smaller, bigger := buffer, new char[size];
      for i := 0 to smaller.Length
        invariant buffer == smaller && bigger[..i] == smaller[..i]
      {
        bigger[i] := smaller[i];
      }
      assert bigger[readerIndex..writerIndex] == bigger[..smaller.Length][readerIndex..writerIndex];
      assert smaller[readerIndex..writerIndex] == smaller[..smaller.Length][readerIndex..writerIndex];
      buffer := bigger;
    }

    /** `std::copy` of the readable bytes to the front; source and destination may overlap. */
    method MoveDown(readable: nat)
      requires Valid() && CHEAP_PREPEND < readerIndex && readable == ReadableBytes()
      modifies buffer
      ensures buffer[CHEAP_PREPEND..CHEAP_PREPEND + readable] == old(Contents())
    {
      ghost var contents := Contents();
      for i := 0 to readable
        invariant buffer[CHEAP_PREPEND..CHEAP_PREPEND + i] == contents[..i]
        invariant buffer[readerIndex + i..writerIndex] == contents[i..]
      {
        assert buffer[readerIndex + i] == contents[i..][0];
        buffer[CHEAP_PREPEND + i] := buffer[readerIndex + i];
        assert buffer[readerIndex + i + 1..writerIndex] == contents[i..][1..];
      }
    }

    method EnsureWritableBytes(length: nat)
      requires Valid()
      modifies this, buffer
      ensures Valid() && Contents() == old(Contents()) && WritableBytes() >= length
      ensures buffer == old(buffer) || fresh(buffer)
    {
      if WritableBytes() < length {
        MakeSpace(length);
      }
    }

    /** `append` */
    method AppendBytes(data: Bytes)
      requires Valid()
      modifies this, buffer
      ensures Valid() && Contents() == old(Contents()) + data
      ensures buffer == old(buffer) || fresh(buffer)
    {
      EnsureWritableBytes(|data|);
      CopyIn(data);
      writerIndex := writerIndex + |data|;
    }

    method CopyIn(data: Bytes)
      requires Valid() && |data| <= WritableBytes()
      modifies buffer
      ensures buffer[readerIndex..writerIndex + |data|] == old(Contents()) + data
    {
      for i := 0 to |data|
        invariant buffer[readerIndex..writerIndex] == old(Contents())
        invariant buffer[writerIndex..writerIndex + i] == data[..i]
      {
        buffer[writerIndex + i] := data[i];
      }
      assert buffer[readerIndex..writerIndex + |data|]
             == buffer[readerIndex..writerIndex] + buffer[writerIndex..writerIndex + |data|];
    }

    /** `readFd` when `data` was read: what does not fit goes through the stack buffer, which takes
        part only when the free space is smaller than it. */
    method ReadFd(data: Bytes)
      requires Valid() && |data| <= WritableBytes() + (if WritableBytes() < EXTRA_BUFFER then EXTRA_BUFFER else 0)
      modifies this, buffer
      ensures Valid() && Contents() == old(Contents()) + data
      ensures buffer == old(buffer) || fresh(buffer)
    {
      var writable := WritableBytes();
      if |data| <= writable {
        CopyIn(data);
        writerIndex := writerIndex + |data|;
      } else {
        CopyIn(data[..writable]);
        writerIndex := buffer.Length;
        ghost var half := Contents();
        AppendBytes(data[writable..]);
        assert half + data[writable..] == old(Contents()) + data by {
          assert data == data[..writable] + data[writable..];
        }
      }
    }
  }
}
