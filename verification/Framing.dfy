/** The length-prefixed frames that `TcpConnection::send` writes and `handleRead` takes apart. */
module Framing {
  import opened Bytes
  import opened Seqs

  type Msg = seq<byte>

  /** Longest payload for which the 32-bit sum `4 + len` of `handleRead` does not wrap. */
  const MAX_PAYLOAD: int := MOD32 - 5

  ghost predicate Fits(ms: seq<Msg>, limit: int) {
    forall i :: 0 <= i < |ms| ==> |ms[i]| <= limit
  }

  function Frame(m: Msg): (f: seq<byte>)
    requires |m| < MOD32
  {
    Be32(|m|) + m
  }

  ghost function Frames(ms: seq<Msg>): (s: seq<byte>)
    requires Fits(ms, MOD32 - 1)
  {
    if ms == [] then [] else Frame(ms[0]) + Frames(ms[1..])
  }

  /** What the front of the input buffer looks like to the loop of `handleRead`. In `Overrun` the
      wrapped guard lets a frame through that is not there yet; C++ then reads past the buffer. */
  datatype Head = Short | Whole(len: nat) | Overrun

  function Classify(s: seq<byte>): (h: Head)
    ensures h.Whole? ==> 4 + h.len <= |s|
  {
    if |s| < 4 then Short else
      var len := ReadBe32(s);
      if |s| < (4 + len) % MOD32 then Short
      else if |s| < 4 + len then Overrun
      else Whole(len)
  }

  datatype Decoded = Decoded(msgs: seq<Msg>, rest: seq<byte>)

  /** Whole-stream reference parser. */
  ghost function Decode(s: seq<byte>): (d: Decoded)
    ensures !Classify(d.rest).Whole?
    decreases |s|
  {
    match Classify(s)
    case Whole(len) =>
      var d := Decode(s[4 + len..]);
      Decoded([s[4..4 + len]] + d.msgs, d.rest)
    case _ => Decoded([], s)
  }

  lemma LookShort(s: seq<byte>)
    requires |s| < 4
    ensures Classify(s) == Short && Decode(s) == Decoded([], s)
  {
  }

  /** The three ways one round of the delivery loop can go. */
  lemma Look(s: seq<byte>, len: nat, guard: nat)
    requires |s| >= 4 && len == ReadBe32(s) && guard == (4 + len) % MOD32
    ensures |s| < guard ==> Classify(s) == Short && Decode(s) == Decoded([], s)
    ensures guard <= |s| < 4 + len ==> Classify(s) == Overrun && Decode(s) == Decoded([], s)
    ensures guard <= |s| && 4 + len <= |s| ==>
              Decode(s) == Decoded([s[4..4 + len]] + Decode(s[4 + len..]).msgs, Decode(s[4 + len..]).rest)
  {
    hide Bytes.ReadBe32;
  }

  /** The guard lets a frame through early exactly when its announced length makes it wrap. */
  lemma OverrunIff(s: seq<byte>)
    requires |s| >= 4
    ensures Classify(s) == Overrun <==> ReadBe32(s) > 0xFFFF_FFFB && |s| < 4 + ReadBe32(s)
  {
    hide Bytes.ReadBe32;
    var len := ReadBe32(s);
    if len > MAX_PAYLOAD {
      assert (4 + len) % MOD32 == 4 + len - MOD32;
    }
  }

  lemma {:induction false} FramesAppend(a: seq<Msg>, b: seq<Msg>)
    requires Fits(a, MOD32 - 1) && Fits(b, MOD32 - 1)
    ensures Fits(a + b, MOD32 - 1) && Frames(a + b) == Frames(a) + Frames(b)
  {
    if a == [] {
      Unit(b);
      Unit(Frames(b));
    } else {
      FramesAppend(a[1..], b);
      Uncons(a, b);
      Assoc(Frame(a[0]), Frames(a[1..]), Frames(b));
    }
  }

  lemma FramesOne(m: Msg)
    requires |m| < MOD32
    ensures Fits([m], MOD32 - 1) && Frames([m]) == Frame(m)
  {
    Unit(Frame(m));
    assert [m][1..] == [];
  }

  lemma HeaderOnly(s: seq<byte>, t: seq<byte>)
    requires |s| >= 4 && |t| >= 4 && s[..4] == t[..4]
    ensures ReadBe32(s) == ReadBe32(t)
  {
    assert forall i :: 0 <= i < 4 ==> s[i] == s[..4][i] == t[..4][i] == t[i];
  }

  /** `f` is one complete frame. */
  ghost predicate IsFrame(f: seq<byte>) {
    |f| >= 4 && |f| == 4 + ReadBe32(f)
  }

  lemma FrameIsFrame(m: Msg)
    requires |m| < MOD32
    ensures IsFrame(Frame(m)) && Frame(m)[4..] == m && Frame(m)[..4] == Be32(|m|)
  {
    hide Bytes.ReadBe32, Bytes.Be32;
    Be32RoundTrip(|m|);
    Cut(Be32(|m|), m);
    HeaderOnly(Frame(m), Be32(|m|));
  }

  /** A complete frame at the front is delivered, whatever follows it. */
  lemma DecodeWhole(f: seq<byte>, t: seq<byte>)
    requires IsFrame(f)
    ensures Decode(f + t) == Decoded([f[4..]] + Decode(t).msgs, Decode(t).rest)
  {
    hide Bytes.ReadBe32;
    var s := f + t;
    Front(f, t, 4);
    Cut(f, t);
    HeaderOnly(s, f);
    assert Classify(s) == Whole(|f| - 4);
    assert s[4..|f|] == s[..|f|][4..];
  }

  /** A stream that delivers something starts with a complete frame. */
  lemma TakeFrame(s: seq<byte>) returns (f: seq<byte>, u: seq<byte>)
    requires Classify(s).Whole?
    ensures IsFrame(f) && |f| >= 4 && s == f + u && |u| < |s|
  {
    hide Bytes.ReadBe32;
    var n := 4 + Classify(s).len;
    f, u := s[..n], s[n..];
    Split(s, n);
    assert f[..4] == s[..4];
    HeaderOnly(f, s);
  }

  /** Parsing can stop anywhere and resume: what was left over is all that has to be kept. */
  lemma {:induction false} DecodeAppend(s: seq<byte>, t: seq<byte>)
    ensures var d := Decode(s);
            Decode(s + t) == Decoded(d.msgs + Decode(d.rest + t).msgs, Decode(d.rest + t).rest)
    decreases |s|
  {
    hide Bytes.ReadBe32, Classify, IsFrame;
    if Classify(s).Whole? {
      var f, u := TakeFrame(s);
      DecodeWhole(f, u);
      DecodeWhole(f, u + t);
      DecodeAppend(u, t);
      Assoc(f, u, t);
      var d := Decode(u);
      Assoc([f[4..]], d.msgs, Decode(d.rest + t).msgs);
    } else {
      Unit(Decode(s + t).msgs);
    }
  }

  /** The messages delivered and the bytes kept after `handleRead` has seen `chunks` one by one. */
  ghost function Feed(rest: seq<byte>, chunks: seq<seq<byte>>): (d: Decoded)
    decreases |chunks|
  {
    if chunks == [] then Decode(rest) else
      var now := Decode(rest + chunks[0]);
      var later := Feed(now.rest, chunks[1..]);
      Decoded(now.msgs + later.msgs, later.rest)
  }

  /** Every fragmentation of a stream delivers what parsing it in one piece delivers. */
  lemma {:induction false} FragmentationIndependent(rest: seq<byte>, chunks: seq<seq<byte>>)
    ensures Feed(rest, chunks) == Decode(rest + Join(chunks))
    decreases |chunks|
  {
    hide Classify;
    if chunks == [] {
      Unit(rest);
    } else {
      var now := Decode(rest + chunks[0]);
      FragmentationIndependent(now.rest, chunks[1..]);
      DecodeAppend(rest + chunks[0], Join(chunks[1..]));
      Assoc(rest, chunks[0], Join(chunks[1..]));
    }
  }

  /** Parsing loses nothing: printing the messages again and adding the leftover restores the stream. */
  lemma {:induction false} DecodeReprints(s: seq<byte>)
    ensures var d := Decode(s); Fits(d.msgs, MOD32 - 1) && s == Frames(d.msgs) + d.rest
    decreases |s|
  {
    hide Bytes.ReadBe32, Bytes.Be32, Classify;
    if Classify(s).Whole? {
      var f, u := TakeFrame(s);
      DecodeWhole(f, u);
      DecodeReprints(u);
      ReadBe32Inverse(f);
      Split(f, 4);
      var d := Decode(u);
      Uncons([f[4..]], d.msgs);
      Unit(d.msgs);
      Assoc(f, Frames(d.msgs), d.rest);
    } else {
      Unit(s);
    }
  }

  /** The parse is unique: any split into frames and an unfinished tail is the one `Decode` finds. */
  lemma {:induction false} DecodeUnique(ms: seq<Msg>, rest: seq<byte>)
    requires Fits(ms, MOD32 - 1) && !Classify(rest).Whole?
    ensures Decode(Frames(ms) + rest) == Decoded(ms, rest)
    decreases |ms|
  {
    hide Bytes.ReadBe32, Bytes.Be32, Classify, Frame, IsFrame;
    if ms == [] {
      Unit(rest);
    } else {
      DecodeUnique(ms[1..], rest);
      FrameIsFrame(ms[0]);
      DecodeWhole(Frame(ms[0]), Frames(ms[1..]) + rest);
      Assoc(Frame(ms[0]), Frames(ms[1..]), rest);
      Split(ms, 1);
    }
  }

  /** Less than one complete sendable frame delivers nothing, and no guard wraps. */
  lemma DecodePartial(m: Msg, t: seq<byte>, p: seq<byte>)
    requires |m| <= MAX_PAYLOAD && p <= Frame(m) + t && |p| < 4 + |m|
    ensures Classify(p) == Short
  {
    hide Bytes.ReadBe32, Bytes.Be32;
    FrameIsFrame(m);
    if |p| >= 4 {
      Front(Frame(m), t, 4);
      assert p[..4] == (Frame(m) + t)[..4];
      HeaderOnly(p, Frame(m));
    }
  }

  lemma ShortEmpty()
    ensures Classify([]) == Short
  {
  }

  /** Whatever part of a sent stream has arrived, the messages found in it are the first ones sent,
      and no guard wraps on the way. */
  lemma {:induction false} DecodePrefix(ms: seq<Msg>, p: seq<byte>)
    requires Fits(ms, MAX_PAYLOAD) && p <= Frames(ms)
    ensures Decode(p).msgs <= ms && Classify(Decode(p).rest) == Short
    ensures p == Frames(ms) ==> Decode(p) == Decoded(ms, [])
    decreases |ms|
  {
    hide Bytes.ReadBe32, Bytes.Be32, IsFrame, Classify;
    if ms == [] {
      ShortEmpty();
      assert p == [];
    } else if |p| < 4 + |ms[0]| {
      DecodePartial(ms[0], Frames(ms[1..]), p);
    } else {
      var f, t := Frame(ms[0]), Frames(ms[1..]);
      FrameIsFrame(ms[0]);
      var q := p[|f|..];
      Cut(f, t);
      Split(p, |f|);
      assert p[..|f|] == (f + t)[..|f|];
      assert q <= t;
      DecodePrefix(ms[1..], q);
      DecodeWhole(f, q);
      Split(ms, 1);
    }
  }

  /** No length announced in `s` makes the 32-bit sum wrap. */
  ghost predicate NoWrap(s: seq<byte>) {
    var d := Decode(s);
    Fits(d.msgs, MAX_PAYLOAD) && (|d.rest| >= 4 ==> ReadBe32(d.rest) <= MAX_PAYLOAD)
  }

  /** What the loop has left over when `n` bytes of the stream have arrived. */
  ghost function LeftAt(s: seq<byte>, n: nat): seq<byte>
    requires n <= |s|
  {
    Decode(s[..n]).rest
  }

  /** Wherever the stream is cut, the guard lets no frame through that is not there yet. */
  ghost predicate NeverOverruns(s: seq<byte>) {
    forall n: nat :: n <= |s| ==> Classify(LeftAt(s, n)) != Overrun
  }

  /** A cut within the first frame overruns exactly if the length of that frame is too big. */
  lemma PartOverruns(s: seq<byte>, n: nat)
    requires |s| >= 4 && n <= |s| && n < 4 + ReadBe32(s)
    ensures Classify(LeftAt(s, n)) == Overrun <==> n >= 4 && ReadBe32(s) > MAX_PAYLOAD
  {
    hide Bytes.ReadBe32, Decode;
    var p := s[..n];
    if n < 4 {
      LookShort(p);
    } else {
      Inner(s, n, 0, 4);
      HeaderOnly(p, s);
      Look(p, ReadBe32(p), (4 + ReadBe32(p)) % MOD32);
      OverrunIff(p);
    }
  }

  lemma CutAfterFrame(f: seq<byte>, u: seq<byte>, n: nat)
    requires IsFrame(f) && n <= |u|
    ensures LeftAt(f + u, |f| + n) == LeftAt(u, n)
  {
    hide IsFrame, Decode;
    DecodeWhole(f, u[..n]);
    assert (f + u)[..|f| + n] == f + u[..n];
  }

  lemma NoWrapAfterFrame(f: seq<byte>, u: seq<byte>)
    requires IsFrame(f)
    ensures NoWrap(f + u) <==> |f| - 4 <= MAX_PAYLOAD && NoWrap(u)
  {
    hide Bytes.ReadBe32, Decode;
    DecodeWhole(f, u);
    var ms, later := Decode(f + u).msgs, Decode(u).msgs;
    assert |ms[0]| == |f| - 4;
    assert forall i :: 0 <= i < |later| ==> ms[i + 1] == later[i];
    assert forall i :: 0 < i < |ms| ==> ms[i] == later[i - 1];
  }

  lemma OverrunsAfterFrame(f: seq<byte>, u: seq<byte>)
    requires IsFrame(f) && |f| - 4 <= MAX_PAYLOAD
    ensures NeverOverruns(f + u) <==> NeverOverruns(u)
  {
    hide Bytes.ReadBe32, Decode, Classify, LeftAt;
    var s := f + u;
    Front(f, u, 4);
    HeaderOnly(s, f);
    forall n: nat | n < |f| ensures Classify(LeftAt(s, n)) != Overrun { PartOverruns(s, n); }
    forall n: nat | n <= |u| ensures LeftAt(s, |f| + n) == LeftAt(u, n) { CutAfterFrame(f, u, n); }
    forall n: nat | |f| <= n <= |s| ensures LeftAt(s, n) == LeftAt(u, n - |f|) { CutAfterFrame(f, u, n - |f|); }
  }

  /** A stream can be cut into reads in any way without the source reading past its buffer exactly if
      it announces no length above 2^32-5. */
  lemma {:induction false} NeverOverrunsIff(s: seq<byte>)
    ensures NeverOverruns(s) <==> NoWrap(s)
    decreases |s|
  {
    hide Bytes.ReadBe32, LeftAt, NeverOverruns, NoWrap;
    if |s| < 4 {
      ShortStream(s);
    } else if ReadBe32(s) > MAX_PAYLOAD {
      TooLong(s);
    } else if Classify(s).Whole? {
      var f, u := TakeFrame(s);
      NeverOverrunsIff(u);
      Front(f, u, 4);
      HeaderOnly(s, f);
      NoWrapAfterFrame(f, u);
      OverrunsAfterFrame(f, u);
    } else {
      Unfinished(s);
    }
  }

  lemma ShortStream(s: seq<byte>)
    requires |s| < 4
    ensures NeverOverruns(s) && NoWrap(s)
  {
    forall n: nat | n <= |s| ensures Classify(LeftAt(s, n)) == Short { LookShort(s[..n]); }
    LookShort(s);
  }

  lemma TooLong(s: seq<byte>)
    requires |s| >= 4 && ReadBe32(s) > MAX_PAYLOAD
    ensures !NeverOverruns(s) && !NoWrap(s)
  {
    hide Bytes.ReadBe32, LeftAt;
    PartOverruns(s, 4);
    if Classify(s).Whole? {
      var f, u := TakeFrame(s);
      Front(f, u, 4);
      HeaderOnly(s, f);
      NoWrapAfterFrame(f, u);
    }
  }

  lemma Unfinished(s: seq<byte>)
    requires |s| >= 4 && ReadBe32(s) <= MAX_PAYLOAD && !Classify(s).Whole?
    ensures NeverOverruns(s) && NoWrap(s)
  {
    hide Bytes.ReadBe32, LeftAt;
    forall n: nat | n <= |s| ensures Classify(LeftAt(s, n)) != Overrun { PartOverruns(s, n); }
  }
}
