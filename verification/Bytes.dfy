/** Bytes, the integers the two programs write as raw bytes, and C strings. */
module Bytes {
  import opened Seqs

  type byte = b: int | 0 <= b < 256

  const MOD32: int := 0x1_0000_0000
  const MOD64: int := 0x1_0000_0000_0000_0000

  /** The four bytes of `htobe32(n)`, most significant first. */
  function Be32(n: int): (s: seq<byte>)
    requires 0 <= n < MOD32
    ensures |s| == 4
  {
    [n / 0x100_0000, n / 0x1_0000 % 256, n / 256 % 256, n % 256]
  }

  /** `be32toh` of the first four bytes. */
  function ReadBe32(s: seq<byte>): (n: int)
    requires |s| >= 4
    ensures 0 <= n < MOD32
  {
    0x100_0000 * s[0] as int + 0x1_0000 * s[1] as int + 256 * s[2] as int + s[3] as int
  }

  lemma Be32RoundTrip(n: int)
    requires 0 <= n < MOD32
    ensures ReadBe32(Be32(n)) == n
  {
    var a, b := n / 256, n / 256 / 256;
    assert n == 256 * a + n % 256 && a == 256 * b + a % 256 && b == 256 * (b / 256) + b % 256;
    assert n / 0x1_0000 == b && n / 0x100_0000 == b / 256;
  }

  /** The order of the bytes: each further digit goes to the end. */
  lemma Be32Digits(a: int, b: byte)
    requires 0 <= a < 0x100_0000
    ensures Be32(0) == [0, 0, 0, 0]
    ensures Be32(256 * a + b) == Be32(a)[1..] + [b]
  {
    var n := 256 * a + b;
    assert n / 256 == a && n % 256 == b;
    assert n / 0x1_0000 == a / 256 && n / 0x100_0000 == a / 0x1_0000;
    assert a / 0x100_0000 == 0 && a / 0x1_0000 < 256;
  }

  lemma ReadBe32Inverse(s: seq<byte>)
    requires |s| >= 4
    ensures Be32(ReadBe32(s)) == s[..4]
  {
    var n := ReadBe32(s);
    var s0: int, s1: int, s2: int, s3: int := s[0], s[1], s[2], s[3];
    var a := s0 * 0x1_0000 + s1 * 256 + s2;
    var b := s0 * 256 + s1;
    assert n == 256 * a + s3 && a == 256 * b + s2 && b == 256 * s0 + s1;
    assert n / 256 == a && n % 256 == s3;
    assert a / 256 == b && a % 256 == s2;
    assert b / 256 == s0 && b % 256 == s1;
    assert n / 0x1_0000 == b && n / 0x100_0000 == s0;
  }

  /** 256 to the power `width`: the number of values an unsigned `width`-byte integer has. */
  function Range(width: nat): (n: int)
    ensures n > 0
  {
    if width == 0 then 1 else 256 * Range(width - 1)
  }

  lemma Ranges()
    ensures Range(4) == MOD32 && Range(8) == MOD64
  {
    assert Range(2) == 0x1_0000;
    assert Range(4) == 0x1_0000 * Range(2);
    assert Range(6) == 0x1_0000 * Range(4);
    assert Range(8) == 0x1_0000 * Range(6);
  }

  /** Little-endian digits, the byte order of the x86 hosts both programs run on. */
  function Le(n: int, width: nat): (s: seq<byte>)
    requires n >= 0
    ensures |s| == width
  {
    if width == 0 then [] else [n % 256] + Le(n / 256, width - 1)
  }

  function ReadLe(s: seq<byte>): (n: int)
    ensures n >= 0
  {
    if s == [] then 0 else s[0] + 256 * ReadLe(s[1..])
  }

  lemma {:induction false} LeRoundTrip(n: int, width: nat)
    requires 0 <= n < Range(width)
    ensures ReadLe(Le(n, width)) == n
  {
    if width > 0 {
      LeRoundTrip(n / 256, width - 1);
      assert Le(n, width)[1..] == Le(n / 256, width - 1);
    }
  }

  /** Here each further digit goes to the front. */
  lemma LeDigits(a: int, b: byte, width: nat)
    requires a >= 0
    ensures Le(0, 0) == [] && Le(256 * a + b, width + 1) == [b] + Le(a, width)
  {
    var n := 256 * a + b;
    assert n / 256 == a && n % 256 == b;
  }

  /** `string((char*)&v, width)`: a signed integer in two's complement. */
  function HostInt(v: int, width: nat): (s: seq<byte>)
    requires -Range(width) <= v
    ensures |s| == width
  {
    Le(if v < 0 then v + Range(width) else v, width)
  }

  /** The first `width` bytes of the memory behind `s.c_str()`. Past the end of the string the
      model reads zeros; the session proofs show that no read gets there. */
  function Memory(s: seq<byte>, width: nat): (m: seq<byte>)
    ensures |m| == width
    ensures |s| >= width ==> m == s[..width]
  {
    if |s| >= width then s[..width] else s + seq(width - |s|, _ => 0)
  }

  /** `*(int*)s.c_str()` for width 4 and `*(long*)s.c_str()` for width 8. */
  function ReadHostInt(s: seq<byte>, width: nat): (v: int) {
    var n := ReadLe(Memory(s, width));
    if 2 * n >= Range(width) then n - Range(width) else n
  }

  /** Two's complement: zero is all zeros, one less than zero all ones, and a negative number is spelled as
      the number that is larger by the range. */
  lemma {:induction false} HostIntSpells(v: int, width: nat)
    requires -Range(width) <= v < 0
    ensures HostInt(v, width) == HostInt(v + Range(width), width)
    ensures HostInt(0, width) == seq(width, _ => 0) && HostInt(-1, width) == seq(width, _ => 255)
  {
    Constant(width);
  }

  lemma {:induction false} Constant(width: nat)
    ensures Le(0, width) == seq(width, _ => 0) && Le(Range(width) - 1, width) == seq(width, _ => 255)
  {
    if width > 0 {
      Constant(width - 1);
      LeDigits(0, 0, width - 1);
      LeDigits(Range(width - 1) - 1, 255, width - 1);
      assert 256 * (Range(width - 1) - 1) + 255 == Range(width) - 1;
    }
  }

  lemma HostIntRoundTrip(v: int, width: nat, tail: seq<byte>)
    requires -Range(width) <= 2 * v < Range(width)
    ensures ReadHostInt(HostInt(v, width) + tail, width) == v
  {
    var n := if v < 0 then v + Range(width) else v;
    LeRoundTrip(n, width);
    assert (HostInt(v, width) + tail)[..width] == Le(n, width);
  }

  /** The C string that starts at the first byte of `s`: everything before the first NUL. */
  function CStr(s: seq<byte>): (t: seq<byte>)
    ensures t <= s && 0 !in t
    ensures t == s <==> 0 !in s
    ensures |t| < |s| ==> s[|t|] == 0
  {
    if s == [] || s[0] == 0 then [] else
      var t := CStr(s[1..]);
      assert [s[0]] + t <= [s[0]] + s[1..] == s;
      assert t != s[1..] ==> [s[0]] + t != [s[0]] + s[1..] by {
        if [s[0]] + t == [s[0]] + s[1..] {
          assert ([s[0]] + t)[1..] == t;
        }
      }
      [s[0]] + t
  }

  /** A text in ASCII. */
  function Ascii(text: string): (s: seq<byte>)
    ensures |s| == |text|
  {
    seq(|text|, i requires 0 <= i < |text| => if text[i] as int < 256 then text[i] as int else 0)
  }

  function Join(parts: seq<seq<byte>>): (s: seq<byte>) {
    if parts == [] then [] else parts[0] + Join(parts[1..])
  }

  lemma {:induction false} JoinAppend(a: seq<seq<byte>>, b: seq<seq<byte>>)
    ensures Join(a + b) == Join(a) + Join(b)
  {
    if a == [] {
      Unit(b);
      Unit(Join(b));
    } else {
      JoinAppend(a[1..], b);
      Uncons(a, b);
      Assoc(a[0], Join(a[1..]), Join(b));
    }
  }
}
