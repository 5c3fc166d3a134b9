/** One direction of a connection: a sending half, the bytes on their way, and a receiving half. */
module EndToEnd {
  import opened Bytes
  import opened Seqs
  import opened Framing
  import opened Output

  /** `pipe` is what the kernel has taken and not yet handed over; `rest` is the receiver's
      `inputBuffer_`, `delivered` what its message callback has seen. */
  datatype Link = Link(o: Out, pipe: seq<byte>, rest: seq<byte>, delivered: seq<Msg>)

  const IDLE := Link(FRESH, [], [], [])

  /** Something happens at the sender, or a read event hands `n` bytes to the receiver. */
  datatype Move = Local(e: Event) | Arrive(n: nat)

  ghost predicate Possible(x: Link, v: Move) {
    match v
    case Local(e) => Enabled(x.o, e)
    case Arrive(n) => 0 < n <= |x.pipe|
  }

  /** The kernel is never asked to take bytes back. */
  lemma WireGrows(o: Out, e: Event, opt: Options)
    requires Enabled(o, e)
    ensures o.wire <= Step(o, e, opt).wire
  {
    hide Frame;
  }

  ghost function Next(x: Link, v: Move, opt: Options): (z: Link)
    requires Possible(x, v)
  {
    match v
    case Local(e) =>
      var r := Step(x.o, e, opt);
      WireGrows(x.o, e, opt);
      x.(o := r, pipe := x.pipe + r.wire[|x.o.wire|..])
    case Arrive(n) =>
      var d := Decode(x.rest + x.pipe[..n]);
      x.(pipe := x.pipe[n..], rest := d.rest, delivered := x.delivered + d.msgs)
  }

  /** `got` is all that has been read so far. */
  ghost predicate Reads(x: Link, got: seq<byte>) {
    x.o.wire == got + x.pipe && Decode(got) == Decoded(x.delivered, x.rest)
  }

  ghost predicate LinkOk(x: Link) {
    Conserved(x.o) && exists got :: Reads(x, got)
  }

  lemma NextOk(x: Link, v: Move, opt: Options)
    requires LinkOk(x) && Possible(x, v)
    ensures LinkOk(Next(x, v, opt))
  {
    hide Step, Conserved, Decode, Classify;
    var got: seq<byte> :| Reads(x, got);
    var z := Next(x, v, opt);
    match v
    case Local(e) =>
      StepConserves(x.o, e, opt);
      WireGrows(x.o, e, opt);
      var more := z.o.wire[|x.o.wire|..];
      Split(z.o.wire, |x.o.wire|);
      Assoc(got, x.pipe, more);
      assert Reads(z, got);
    case Arrive(n) =>
      var part := x.pipe[..n];
      DecodeAppend(got, part);
      Split(x.pipe, n);
      Assoc(got, part, x.pipe[n..]);
      assert Reads(z, got + part);
  }

  ghost predicate Run(trace: seq<Link>, moves: seq<Move>, opt: Options) {
    && |trace| == |moves| + 1 && trace[0] == IDLE
    && forall i :: 0 <= i < |moves| ==> Possible(trace[i], moves[i]) && trace[i + 1] == Next(trace[i], moves[i], opt)
  }

  lemma {:induction false} RunOk(trace: seq<Link>, moves: seq<Move>, opt: Options, k: nat)
    requires Run(trace, moves, opt) && k < |trace|
    ensures LinkOk(trace[k])
  {
    hide Next, Decode, Classify;
    if k == 0 {
      LookShort([]);
      assert Reads(IDLE, []);
    } else {
      RunOk(trace, moves, opt, k - 1);
      NextOk(trace[k - 1], moves[k - 1], opt);
    }
  }

  lemma LinkDelivers(x: Link)
    requires LinkOk(x)
    ensures x.delivered <= x.o.kept && Classify(x.rest) == Short
    ensures x.o.buffer == [] && x.pipe == [] ==> x.delivered == x.o.kept && x.rest == []
  {
    hide Decode, Classify, Frames;
    var got: seq<byte> :| Reads(x, got);
    Assoc(got, x.pipe, x.o.buffer);
    DecodePrefix(x.o.kept, got);
    if x.o.buffer == [] && x.pipe == [] {
      Unit(got);
    }
  }

  /** Over any partial writes, any fragmentation and any write failures: what the receiver's callback
      has seen is a prefix, in order, of the messages the sender took over, nothing is cut or merged,
      and no length wraps. When nothing is buffered or in flight, it is all of them. A message given
      up on a write error disappears whole and does not disturb the rest. */
  lemma DeliveredInOrder(trace: seq<Link>, moves: seq<Move>, opt: Options, k: nat)
    requires Run(trace, moves, opt) && k < |trace|
    ensures var x := trace[k];
            && x.delivered <= x.o.kept && Classify(x.rest) == Short
            && (x.o.buffer == [] && x.pipe == [] ==> x.delivered == x.o.kept && x.rest == [])
  {
    hide LinkOk, Classify;
    RunOk(trace, moves, opt, k);
    LinkDelivers(trace[k]);
  }
}
