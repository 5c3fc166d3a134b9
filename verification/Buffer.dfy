/** `Buffer`: reader and writer indices over one array, with room to prepend cheaply. */
module Buffers {
  import opened Bytes
  import opened Seqs

  const CHEAP_PREPEND: nat := 8
  const INITIAL_SIZE: nat := 1024
  const EXTRA: nat := 65536

  function Max(a: int, b: int): int {
    if a < b then b else a
  }

  /** What a `readv` on the socket finds: bytes waiting (none at end of stream), or an error. */
  datatype ReadOutcome = Waiting(bytes: seq<byte>) | Failed

  class Buffer {
    var data: array<byte>   // the vector buffer_
    var reader: nat
    var writer: nat

    /** Size of the array the buffer was built with, by construction or by `Shrink`. */
    ghost var base: nat
    /** The largest number of readable bytes since then. */
    ghost var peak: nat

    /** The last conjunct bounds the space over any run: the array grows only while it is more
        than half full. */
    ghost predicate Valid()
      reads this
    {
      && reader <= writer <= data.Length
      && CHEAP_PREPEND <= base <= data.Length
      && writer - reader <= peak
      && data.Length <= Max(base, 2 * peak + 7)
    }

    /** The readable bytes: what the buffer means. */
    ghost function Content(): (s: seq<byte>)
      requires Valid()
      reads this, data
      ensures |s| == writer - reader
    {
      data[reader..writer]
    }

    ghost function Writable(): int
      requires Valid()
      reads this
    {
      data.Length - writer
    }

    constructor (initialSize: nat := INITIAL_SIZE)
      ensures Valid() && fresh(data) && Content() == []
      ensures reader == 8 && Writable() == initialSize && base == 8 + initialSize && peak == 0
    {
      data := new byte[CHEAP_PREPEND + initialSize](_ => 0);
      reader, writer := CHEAP_PREPEND, CHEAP_PREPEND;
      base, peak := CHEAP_PREPEND + initialSize, 0;
    }

    method RetrieveAll()
      requires Valid()
      modifies this
      ensures Valid() && data == old(data) && base == old(base) && peak == old(peak)
      ensures Content() == [] && reader == 8
    {
      reader, writer := CHEAP_PREPEND, CHEAP_PREPEND;
    }

    method Retrieve(len: nat)
      requires Valid() && len <= |Content()|
      modifies this
      ensures Valid() && data == old(data) && base == old(base) && peak == old(peak)
      ensures Content() == old(Content())[len..]
      ensures reader == if len < |old(Content())| then old(reader) + len else 8
    {
      if len < writer - reader {
        SliceFront(data[..], reader, writer, len);
        reader := reader + len;
      } else {
        RetrieveAll();
      }
    }

    /** The first bytes of the content are those at the read index. */
    lemma Peeks(len: nat)
      requires Valid() && len <= |Content()|
      ensures data[reader..reader + len] == Content()[..len]
    {
      SliceFront(data[..], reader, writer, len);
    }

    method RetrieveAsString(len: nat) returns (s: seq<byte>)
      requires Valid() && len <= |Content()|
      modifies this
      ensures Valid() && data == old(data) && base == old(base) && peak == old(peak)
      ensures s == old(Content())[..len] && Content() == old(Content())[len..]
    {
      SliceFront(data[..], reader, writer, len);
      s := data[reader..reader + len];
      Retrieve(len);
    }

    /** Room for `len` more bytes: grow when even moving would not make it, otherwise move to the
        front. The content stays; the source's assertion on the moving branch follows from the test. */
    method MakeSpace(len: nat)
      requires Valid() && Writable() < len
      modifies this, data
      ensures reader <= writer <= data.Length && base == old(base) && peak == old(peak)
      ensures data.Length - writer >= len && data[reader..writer] == old(Content())
      ensures if old(Writable() + reader) < len + 8
              then fresh(data) && data.Length == old(writer) + len && reader == old(reader)
              else data == old(data) && reader == 8
      ensures data.Length == old(data.Length) || data.Length <= 2 * (writer - reader + len) + 7
    {
      if data.Length - writer + reader < len + CHEAP_PREPEND {
        ghost var was := data[..];
        Resize(writer + len);
        Inner(data[..], |was|, reader, writer);
        assert data[..][..|was|] == was;
      } else {
        assert CHEAP_PREPEND < reader;
        var readable := writer - reader;
        MoveToFront(readable);
        reader := CHEAP_PREPEND;
        writer := reader + readable;
      }
    }

    /** `buffer_.resize(size)` for a size that grows. */
    method Resize(size: nat)
      requires data.Length < size
      modifies this
      ensures fresh(data) && data.Length == size && data[..old(data.Length)] == old(data[..])
      ensures reader == old(reader) && writer == old(writer) && base == old(base) && peak == old(peak)
    {
      var bigger := new byte[size](_ => 0);
      var i := 0;
      while i < data.Length
        modifies bigger
        invariant i <= data.Length && bigger[..i] == data[..i]
        invariant data[..] == old(data[..])
      {
        bigger[i] := data[i];
        i := i + 1;
      }
      data := bigger;
    }

    /** `std::copy` of the readable bytes to the front of the array, first byte first. */
    method MoveToFront(n: nat)
      requires CHEAP_PREPEND < reader && reader + n == writer <= data.Length
      modifies data
      ensures data[CHEAP_PREPEND..CHEAP_PREPEND + n] == old(data[reader..writer])
    {
      ghost var was := data[reader..writer];
      var i := 0;
      while i < n
        invariant i <= n
        invariant forall k :: 0 <= k < i ==> data[CHEAP_PREPEND + k] == was[k]
        invariant forall k :: i <= k < n ==> data[reader + k] == was[k]
      {
        data[CHEAP_PREPEND + i] := data[reader + i];
        i := i + 1;
      }
    }

    /** Copies `bytes` to the unused part at the end and takes them in. */
    method Write(bytes: seq<byte>)
      requires reader <= writer && writer + |bytes| <= data.Length && CHEAP_PREPEND <= base <= data.Length
      requires data.Length <= Max(base, 2 * Max(peak, writer - reader + |bytes|) + CHEAP_PREPEND - 1)
      modifies this, data
      ensures Valid() && data == old(data) && base == old(base)
      ensures peak == Max(old(peak), |Content()|)
      ensures reader == old(reader) && Content() == old(data[reader..writer]) + bytes
    {
      ghost var was := data[reader..writer];
      var i := 0;
      while i < |bytes|
        modifies data
        invariant i <= |bytes|
        invariant data[reader..writer] == was
        invariant forall k :: 0 <= k < i ==> data[writer + k] == bytes[k]
      {
        data[writer + i] := bytes[i];
        i := i + 1;
      }
      ghost var old_writer := writer;
      writer := writer + |bytes|;
      peak := Max(peak, writer - reader);
      assert data[reader..writer] == data[reader..old_writer] + data[old_writer..writer];
    }

    method Append(bytes: seq<byte>)
      requires Valid()
      modifies this, data
      ensures Valid() && base == old(base) && (data == old(data) || fresh(data))
      ensures Content() == old(Content()) + bytes
      ensures old(Writable()) >= |bytes| ==> data == old(data) && reader == old(reader)
      ensures reader == old(reader) || reader == 8
      ensures peak == Max(old(peak), |Content()|)
    {
      if data.Length - writer < |bytes| {
        MakeSpace(|bytes|);
      }
      Write(bytes);
    }

    method Unwrite(len: nat)
      requires Valid() && len <= |Content()|
      modifies this
      ensures Valid() && data == old(data) && base == old(base) && peak == old(peak)
      ensures Content() == old(Content())[..|old(Content())| - len]
    {
      SliceFront(data[..], reader, writer, writer - len - reader);
      writer := writer - len;
    }

    method Prepend(bytes: seq<byte>)
      requires Valid() && |bytes| <= reader
      modifies this, data
      ensures Valid() && data == old(data) && base == old(base)
      ensures Content() == bytes + old(Content())
      ensures peak == Max(old(peak), |Content()|)
    {
      ghost var was := data[reader..writer];
      ghost var start := reader;
      reader := reader - |bytes|;
      var i := 0;
      while i < |bytes|
        modifies data
        invariant i <= |bytes| && start == reader + |bytes|
        invariant data[start..writer] == was
        invariant forall k :: 0 <= k < i ==> data[reader + k] == bytes[k]
      {
        data[reader + i] := bytes[i];
        i := i + 1;
      }
      peak := Max(peak, writer - reader);
      assert data[reader..writer] == data[reader..start] + data[start..writer];
    }

    /** A fresh buffer with the same content and at least `reserve` bytes to spare takes over. */
    method Shrink(reserve: nat)
      requires Valid()
      modifies this
      ensures Valid() && fresh(data) && Content() == old(Content())
      ensures Writable() >= reserve
      ensures data.Length == base == Max(1032, 8 + |Content()| + reserve)
      ensures peak == |Content()|
    {
      var other := new Buffer();
      var want := writer - reader + reserve;
      if other.data.Length - other.writer < want {
        other.MakeSpace(want);
        other.base := other.data.Length;
      }
      other.Append(data[reader..writer]);
      data, reader, writer := other.data, other.reader, other.writer;
      base, peak := other.base, other.peak;
    }

    /** Scatter read: into the tail first, the rest by way of a buffer on the stack. Takes as much of
        what is waiting as the two areas hold, and reports how much; -1 is an error. */
    method ReadFd(outcome: ReadOutcome) returns (n: int)
      requires Valid()
      modifies this, data
      ensures Valid() && base == old(base) && (data == old(data) || fresh(data))
      ensures outcome.Failed? ==> n == -1 && Content() == old(Content())
      ensures outcome.Waiting? ==> 0 <= n <= |outcome.bytes| && Content() == old(Content()) + outcome.bytes[..n]
      ensures outcome.Waiting? ==> (n == |outcome.bytes| || n >= 65536)
      ensures peak == Max(old(peak), |Content()|)
    {
      var writable := data.Length - writer;
      var offered := if writable < EXTRA then writable + EXTRA else writable;
      match outcome
      case Failed => return -1;
      case Waiting(bytes) =>
        n := if |bytes| < offered then |bytes| else offered;
        if n <= writable {
          Write(bytes[..n]);
        } else {
          Write(bytes[..writable]);
          Append(bytes[writable..n]);
          Assoc(old(Content()), bytes[..writable], bytes[writable..n]);
          assert bytes[..writable] + bytes[writable..n] == bytes[..n];
        }
    }
  }
}
