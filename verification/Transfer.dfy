/** Cutting a file into the messages of a transfer: the send loop of `puts` on the client and the
    repeated `handleGets` of the server read at most 8191 bytes, end them with a NUL and send the
    C string that starts the buffer. */
module Transfer {
  import opened Bytes
  import opened Seqs

  const CHUNK: nat := 8191

  /** How many bytes `read(fd, buf, sizeof(buf)-1)` takes from a regular file. */
  function ReadLen(rest: seq<byte>): (n: nat)
    ensures n <= |rest| && (n == 0 <==> rest == [])
  {
    if |rest| < CHUNK then |rest| else CHUNK
  }

  /** All messages the loop sends for a file. */
  function Chunks(file: seq<byte>): (ms: seq<seq<byte>>)
    decreases |file|
  {
    if file == [] then [] else
      var n := ReadLen(file);
      [CStr(file[..n])] + Chunks(file[n..])
  }

  /** A file that comes through: not empty, no NUL byte. */
  predicate Carriable(file: seq<byte>) {
    |file| > 0 && 0 !in file
  }

  /** Its size is representable as `long`, as that of every file is. */
  predicate Sized(file: seq<byte>) {
    2 * |file| < Range(8)
  }

  ghost predicate Transferable(file: seq<byte>) {
    Carriable(file) && Sized(file)
  }

  lemma {:induction false} JoinNonempty(ms: seq<seq<byte>>)
    requires forall i :: 0 <= i < |ms| ==> ms[i] != []
    ensures |Join(ms)| >= |ms|
  {
    if ms != [] { JoinNonempty(ms[1..]); }
  }

  /** The messages carry the file exactly when it holds no NUL; otherwise bytes are missing. */
  lemma {:induction false} ChunksCarry(file: seq<byte>)
    ensures |Join(Chunks(file))| <= |file|
    ensures |Join(Chunks(file))| == |file| <==> 0 !in file
    ensures 0 !in file ==> Join(Chunks(file)) == file
    ensures 0 !in file ==> forall i :: 0 <= i < |Chunks(file)| ==> Chunks(file)[i] != []
    decreases |file|
  {
    if file != [] {
      var n := ReadLen(file);
      var front, back := file[..n], file[n..];
      Split(file, n);
      ChunksCarry(back);
      assert 0 in file <==> 0 in front || 0 in back;
      var ms := Chunks(back);
      Uncons([CStr(front)], ms);
      Unit(ms);
      assert Chunks(file)[1..] == ms;
      assert Join(Chunks(file)) == CStr(front) + Join(ms);
      assert 0 !in file ==> forall i :: 0 < i < |Chunks(file)| ==> Chunks(file)[i] == ms[i - 1];
    }
  }

  /** What is left of `file_size` and whether the receiver is still in its transfer state after one
      more data message: it leaves when the count hits zero, and only then. */
  datatype Receiving = Receiving(left: int, open: bool)

  function TakeChunk(r: Receiving, m: seq<byte>): (r': Receiving) {
    if !r.open then r else
      Receiving(r.left - |m|, r.left - |m| != 0)
  }

  function TakeChunks(r: Receiving, ms: seq<seq<byte>>): (r': Receiving)
    decreases |ms|
  {
    if ms == [] then r else TakeChunks(TakeChunk(r, ms[0]), ms[1..])
  }

  /** A receiver that is owed more than the messages hold stays open to the end. */
  lemma {:induction false} StaysOpen(left: int, ms: seq<seq<byte>>)
    requires |Join(ms)| < left
    ensures TakeChunks(Receiving(left, true), ms) == Receiving(left - |Join(ms)|, true)
  {
    if ms != [] { StaysOpen(left - |ms[0]|, ms[1..]); }
  }

  /** A receiver that is owed exactly what the messages hold, none of them empty, is open before
      the last one and closed after it. */
  lemma {:induction false} ClosesAtLast(ms: seq<seq<byte>>)
    requires ms != [] && forall i :: 0 <= i < |ms| ==> ms[i] != []
    ensures forall k :: 0 <= k < |ms| ==> TakeChunks(Receiving(|Join(ms)|, true), ms[..k]).open
    ensures TakeChunks(Receiving(|Join(ms)|, true), ms) == Receiving(0, false)
  {
    var n := |Join(ms)|;
    JoinNonempty(ms[1..]);
    if |ms| > 1 { ClosesAtLast(ms[1..]); }
    forall k | 0 <= k < |ms| ensures TakeChunks(Receiving(n, true), ms[..k]).open {
      if k > 0 {
        assert ms[..k][1..] == ms[1..][..k - 1];
      }
    }
  }

  /** The transfer of a file ends, on the receiving side, exactly for nonempty files without NUL. */
  lemma TransferEndsIff(file: seq<byte>)
    ensures !TakeChunks(Receiving(|file|, true), Chunks(file)).open <==> |file| > 0 && 0 !in file
  {
    ChunksCarry(file);
    if |file| > 0 && 0 !in file {
      ClosesAtLast(Chunks(file));
    } else if |file| > 0 {
      StaysOpen(|file|, Chunks(file));
    }
  }

  /** An empty upload leaves the server waiting for data that the client never sends. */
  lemma EmptyFileStalls()
    ensures Chunks([]) == [] && TakeChunks(Receiving(0, true), Chunks([])).open
  {
  }

  /** A file holding one NUL byte is announced as one byte long and sent as an empty message. */
  lemma NulFileStalls()
    ensures Chunks([0]) == [[]] && TakeChunks(Receiving(1, true), Chunks([0])).open
  {
    TransferEndsIff([0]);
    assert [0 as byte][..1] == [0] && [0 as byte][1..] == [];
  }

  /** A file without NUL goes out in pieces of 8191 bytes, the last one alone may be shorter. */
  lemma {:induction false} ChunkSizes(file: seq<byte>)
    requires 0 !in file
    ensures forall i :: 0 <= i < |Chunks(file)| - 1 ==> |Chunks(file)[i]| == 8191
    ensures file != [] ==> Chunks(file) != [] && 0 < |Chunks(file)[|Chunks(file)| - 1]| <= 8191
    decreases |file|
  {
    if file != [] {
      var n := ReadLen(file);
      ChunkSizes(file[n..]);
      assert CStr(file[..n]) == file[..n];
      assert forall i :: 0 < i < |Chunks(file)| ==> Chunks(file)[i] == Chunks(file[n..])[i - 1];
    }
  }
}
