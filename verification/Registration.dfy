/** The registration packet: three lengths as raw ints, then user name, salt and password digest. */
module Registration {
  import opened Bytes
  import opened Seqs

  datatype Account = Account(name: seq<byte>, salt: seq<byte>, secret: seq<byte>)

  /** Lengths fit the `int` variables that hold them. */
  ghost predicate Fits(a: Account) {
    2 * |a.name| < Range(4) && 2 * |a.salt| < Range(4) && 2 * |a.secret| < Range(4)
  }

  /** What the client sends (`username`, `salt` and `secret + 12` are C strings). */
  function Pack(a: Account): (m: seq<byte>) {
    HostInt(|a.name|, 4) + (HostInt(|a.salt|, 4) + (HostInt(|a.secret|, 4) + (a.name + (a.salt + a.secret))))
  }

  datatype Unpacked = Unpacked(account: Account) | OutOfRange

  function Drop(s: seq<byte>, n: nat): (t: seq<byte>) {
    if n <= |s| then s[n..] else []
  }

  /** Conversion of an `int` to `size_t`. */
  function SizeT(v: int): (n: int)
    ensures 0 <= n < MOD64
  {
    v % MOD64
  }

  /** `s.substr(pos, len)` for a position that does not throw. */
  function Substr(s: seq<byte>, pos: nat, len: nat): (t: seq<byte>)
    requires pos <= |s|
  {
    if pos + len <= |s| then s[pos..pos + len] else s[pos..]
  }

  /** What the server reads; `substr` throws when its position lies beyond the message. */
  function Unpack(m: seq<byte>): (u: Unpacked) {
    var nameLen := SizeT(ReadHostInt(m, 4));
    var saltLen := SizeT(ReadHostInt(Drop(m, 4), 4));
    var secretLen := SizeT(ReadHostInt(Drop(m, 8), 4));
    var saltAt := SizeT(12 + nameLen);
    var secretAt := SizeT(12 + nameLen + saltLen);
    if |m| < 12 || |m| < saltAt || |m| < secretAt then OutOfRange else
      Unpacked(Account(Substr(m, 12, nameLen), Substr(m, saltAt, saltLen), Substr(m, secretAt, secretLen)))
  }

  lemma ReadField(n: nat, tail: seq<byte>)
    requires 2 * n < Range(4)
    ensures SizeT(ReadHostInt(HostInt(n, 4) + tail, 4)) == n
    ensures (HostInt(n, 4) + tail)[4..] == tail
  {
    Ranges();
    HostIntRoundTrip(n, 4, tail);
    Cut(HostInt(n, 4), tail);
  }

  /** The server reads back exactly what the client packed, for all names, salts and digests. */
  lemma RoundTrip(a: Account)
    requires Fits(a)
    ensures Unpack(Pack(a)) == Unpacked(a)
  {
    hide Bytes.HostInt, Bytes.ReadHostInt, SizeT;
    var t3 := a.name + (a.salt + a.secret);
    var t2 := HostInt(|a.secret|, 4) + t3;
    var t1 := HostInt(|a.salt|, 4) + t2;
    var m := Pack(a);
    ReadField(|a.name|, t1);
    ReadField(|a.salt|, t2);
    ReadField(|a.secret|, t3);
    assert Drop(m, 4) == t1;
    assert Drop(m, 8) == m[4..][4..] == t2;
    assert m[12..] == m[4..][4..][4..] == t3;
    SmallSizes(a);
    Fields(m, a, t3);
  }

  lemma SmallSizes(a: Account)
    requires Fits(a)
    ensures SizeT(12 + |a.name|) == 12 + |a.name|
    ensures SizeT(12 + |a.name| + |a.salt|) == 12 + |a.name| + |a.salt|
  {
    Ranges();
  }

  lemma Fields(m: seq<byte>, a: Account, t: seq<byte>)
    requires |m| >= 12 && m[12..] == t && t == a.name + (a.salt + a.secret)
    ensures Substr(m, 12, |a.name|) == a.name
    ensures Substr(m, 12 + |a.name|, |a.salt|) == a.salt
    ensures Substr(m, 12 + |a.name| + |a.salt|, |a.secret|) == a.secret
  {
    Cut(a.name, a.salt + a.secret);
    Cut(a.salt, a.secret);
    var n, k := |a.name|, |a.salt|;
    assert m[12..12 + n] == t[..n];
    assert m[12 + n..12 + n + k] == t[n..][..k];
    assert m[12 + n + k..] == t[n..][k..];
  }

  /** Where the fields are: three lengths of four bytes, then name, salt and digest. */
  lemma PackLayout(a: Account)
    requires Fits(a)
    ensures var m := Pack(a);
            var n, k, d := |a.name|, |a.salt|, |a.secret|;
            && |m| == 12 + n + k + d
            && ReadHostInt(m[0..4], 4) == n && ReadHostInt(m[4..8], 4) == k && ReadHostInt(m[8..12], 4) == d
            && m[12..12 + n] == a.name && m[12 + n..12 + n + k] == a.salt && m[12 + n + k..] == a.secret
  {
    hide Bytes.HostInt, Bytes.ReadHostInt;
    var x, y, z := HostInt(|a.name|, 4), HostInt(|a.salt|, 4), HostInt(|a.secret|, 4);
    var t := a.name + (a.salt + a.secret);
    var m := x + (y + (z + t));
    assert m[0..4] == x && m[4..8] == y && m[8..12] == z && m[12..] == t;
    FieldReads(|a.name|);
    FieldReads(|a.salt|);
    FieldReads(|a.secret|);
    Cut(a.name, a.salt + a.secret);
    Cut(a.salt, a.secret);
    var n, k := |a.name|, |a.salt|;
    assert m[12..12 + n] == t[..n];
    assert m[12 + n..12 + n + k] == t[n..][..k];
    assert m[12 + n + k..] == t[n..][k..];
  }

  lemma FieldReads(n: nat)
    requires 2 * n < Range(4)
    ensures ReadHostInt(HostInt(n, 4), 4) == n
  {
    HostIntRoundTrip(n, 4, []);
    Unit(HostInt(n, 4));
  }

  /** The part of a message that `substr` gives for a signed length: to the end if there is not so much. */
  function Piece(m: seq<byte>, at: nat, len: int): seq<byte>
    requires at <= |m|
  {
    if 0 <= len <= |m| - at then m[at..at + len] else m[at..]
  }

  /** What any message at all is read as: `substr` does not throw exactly if the fields begin, counting with
      signed lengths, behind the third length and not beyond the end. */
  lemma UnpackIff(m: seq<byte>)
    requires 12 <= |m| && 2 * |m| < Range(8)
    ensures var n, k, d := ReadHostInt(m[0..4], 4), ReadHostInt(m[4..8], 4), ReadHostInt(m[8..12], 4);
            Unpack(m) ==
            if 0 <= 12 + n <= |m| && 0 <= 12 + n + k <= |m| then
              Unpacked(Account(Piece(m, 12, n), Piece(m, 12 + n, k), Piece(m, 12 + n + k, d)))
            else OutOfRange
  {
    hide Bytes.ReadHostInt, SizeT, Substr, Piece;
    Ranges();
    FrontReads(m);
    FrontReads(Drop(m, 4));
    FrontReads(Drop(m, 8));
    assert Drop(m, 4)[..4] == m[4..8] && Drop(m, 8)[..4] == m[8..12] && m[..4] == m[0..4];
    var n, k, d := ReadHostInt(m[0..4], 4), ReadHostInt(m[4..8], 4), ReadHostInt(m[8..12], 4);
    Position(m, n, 0);
    Position(m, n, k);
    PieceIs(m, 12, n);
    if 0 <= 12 + n <= |m| && 0 <= 12 + n + k <= |m| {
      PieceIs(m, 12 + n, k);
      PieceIs(m, 12 + n + k, d);
    }
  }

  /** The positions that the source computes in `size_t`. */
  lemma Position(m: seq<byte>, n: int, k: int)
    requires 2 * |m| < MOD64 && -MOD32 <= 2 * n < MOD32 && -MOD32 <= 2 * k < MOD32
    ensures var v := 12 + n + k;
            && SizeT(12 + SizeT(n)) == SizeT(12 + n) && SizeT(12 + SizeT(n) + SizeT(k)) == SizeT(v)
            && (SizeT(v) <= |m| <==> 0 <= v <= |m|) && (v >= 0 ==> SizeT(v) == v)
  {
    Wraps(n);
    Wraps(k);
    Wraps(12 + n);
    Wraps(12 + n + k);
  }

  lemma Wraps(v: int)
    requires -MOD64 <= v < MOD64
    ensures SizeT(v) == if v < 0 then v + MOD64 else v
  {
  }

  lemma PieceIs(m: seq<byte>, at: nat, len: int)
    requires at <= |m| && 2 * |m| < MOD64 && -MOD32 <= len < MOD32
    ensures Substr(m, at, SizeT(len)) == Piece(m, at, len)
  {
    hide SizeT;
    Wraps(len);
  }

  lemma FrontReads(s: seq<byte>)
    requires |s| >= 4
    ensures ReadHostInt(s, 4) == ReadHostInt(s[..4], 4) && -Range(4) <= 2 * ReadHostInt(s, 4) < Range(4)
  {
    LeRange(s[..4]);
    Ranges();
    assert s[..4][..4] == s[..4];
  }

  lemma {:induction false} LeRange(s: seq<byte>)
    ensures 0 <= ReadLe(s) < Range(|s|)
  {
    if s != [] { LeRange(s[1..]); }
  }

  /** A shorter message has no three lengths. */
  lemma TooShort(m: seq<byte>)
    requires |m| < 12
    ensures Unpack(m) == OutOfRange
  {
  }
}
