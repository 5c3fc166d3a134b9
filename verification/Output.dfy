/** The sending half of a connection as a state machine, and what holds over all its runs. */
module Output {
  import opened Bytes
  import opened Seqs
  import opened Framing

  /** `state_`. */
  datatype Phase = Connecting | Connected | Disconnecting | Disconnected

  /** What `write` on the socket does: take up to so many bytes, or fail. */
  datatype KernelWrite = Accepts(upTo: nat) | WouldBlock | PeerGone | OtherError

  /** Functors the connection queues on its own loop. */
  datatype Notice = WriteComplete | HighWater(size: nat) | CloseRequest | SendRequest(m: Msg)

  /** Which callbacks are installed, and the high-water mark. */
  datatype Options = Options(mark: nat, onComplete: bool, onHigh: bool)

  /** `buffer` is the content of `outputBuffer_`, `writing` the write interest of the channel, `wire`
      everything the kernel has taken so far, `kept` the messages that `sendInLoop` has taken over,
      `lost` those it gave up on an EPIPE or ECONNRESET, `asked` whether `shutdown` took effect, `shut`
      the number of `shutdownWrite` calls. */
  datatype Out = Out(
    phase: Phase, buffer: seq<byte>, writing: bool, wire: seq<byte>,
    kept: seq<Msg>, lost: seq<Msg>, asked: bool, shut: nat, notices: seq<Notice>)

  const FRESH := Out(Connecting, [], false, [], [], [], false, 0, [])

  function Taken(w: KernelWrite, size: nat): (n: nat)
    ensures n <= size
  {
    if w.Accepts? then (if w.upTo < size then w.upTo else size) else 0
  }

  predicate Direct(o: Out) {
    !o.writing && o.buffer == []
  }

  function Notify(ns: seq<Notice>, cond: bool, n: Notice): (r: seq<Notice>) {
    if cond then ns + [n] else ns
  }

  /** The direct write of `sendInLoop`. */
  function WriteDirectly(o: Out, data: seq<byte>, w: KernelWrite, opt: Options): (r: Out) {
    var n := Taken(w, |data|);
    o.(wire := o.wire + data[..n],
       notices := Notify(o.notices, w.Accepts? && n == |data| && opt.onComplete, WriteComplete))
  }

  /** What was not written is appended to the output buffer, and write events are asked for. */
  function KeepRest(o: Out, rest: seq<byte>, opt: Options): (r: Out) {
    var size := |o.buffer| + |rest|;
    if rest == [] then o else
      o.(buffer := o.buffer + rest, writing := true,
         notices := Notify(o.notices, size >= opt.mark && |o.buffer| < opt.mark && opt.onHigh, HighWater(size)))
  }

  /** `sendInLoop` on one frame, whatever the thread that asked for it. */
  function SendFrame(o: Out, m: Msg, w: KernelWrite, opt: Options): (r: Out)
    requires |m| < MOD32
  {
    var data := Frame(m);
    if o.phase == Disconnected then o
    else if Direct(o) && w == PeerGone then o.(lost := o.lost + [m])
    else if Direct(o) then
      KeepRest(WriteDirectly(o.(kept := o.kept + [m]), data, w, opt), data[Taken(w, |data|)..], opt)
    else KeepRest(o.(kept := o.kept + [m]), data, opt)
  }

  function Send(o: Out, m: Msg, w: KernelWrite, opt: Options): (r: Out)
    requires |m| < MOD32
  {
    if o.phase == Connected then SendFrame(o, m, w, opt) else o
  }

  /** `send` on another thread: the frame travels to the loop inside a functor. */
  function SendElsewhere(o: Out, m: Msg): (r: Out) {
    if o.phase == Connected then o.(notices := o.notices + [SendRequest(m)]) else o
  }

  function ShutdownInLoop(o: Out): (r: Out) {
    if o.writing then o else o.(shut := o.shut + 1)
  }

  function Shutdown(o: Out): (r: Out) {
    if o.phase == Connected then ShutdownInLoop(o.(phase := Disconnecting, asked := true)) else o
  }

  function HandleWrite(o: Out, w: KernelWrite, opt: Options): (r: Out) {
    var n := Taken(w, |o.buffer|);
    if !o.writing || n == 0 then o else
      var r := o.(wire := o.wire + o.buffer[..n], buffer := o.buffer[n..]);
      if r.buffer != [] then r else
        var q := r.(writing := false, notices := Notify(r.notices, opt.onComplete, WriteComplete));
        if q.phase == Disconnecting then ShutdownInLoop(q) else q
  }

  function ForceClose(o: Out): (r: Out) {
    if o.phase in {Connected, Disconnecting} then
      o.(phase := Disconnecting, notices := o.notices + [CloseRequest])
    else o
  }

  /** `handleClose`, which asserts that the connection is up. */
  function HandleClose(o: Out): (r: Out)
    requires o.phase in {Connected, Disconnecting}
  {
    o.(phase := Disconnected, writing := false)
  }

  function ForceCloseInLoop(o: Out): (r: Out) {
    if o.phase in {Connected, Disconnecting} then HandleClose(o) else o
  }

  function Establish(o: Out): (r: Out)
    requires o.phase == Connecting
  {
    o.(phase := Connected)
  }

  function Destroy(o: Out): (r: Out) {
    if o.phase == Connected then o.(phase := Disconnected, writing := false) else o
  }

  /** Everything that happens to the sending half. `SentElsewhere` is a call of `send` on another thread,
      `Queued` the functor it leaves, which runs later and without the test of `send`. */
  datatype Event =
    | Established | Sent(m: Msg, w: KernelWrite) | SentElsewhere(m: Msg) | Queued(m: Msg, w: KernelWrite)
    | Writable(w: KernelWrite) | ShutdownCalled | ForceCloseCalled | ForceCloseRun | Closed | Destroyed

  ghost predicate Enabled(o: Out, e: Event) {
    match e
    case Established => o.phase == Connecting
    case Sent(m, _) => |m| <= MAX_PAYLOAD
    case SentElsewhere(m) => |m| <= MAX_PAYLOAD
    case Queued(m, _) => |m| <= MAX_PAYLOAD && SendRequest(m) in o.notices
    case Closed => o.phase in {Connected, Disconnecting}
    case _ => true
  }

  function Step(o: Out, e: Event, opt: Options): (r: Out)
    requires Enabled(o, e)
  {
    match e
    case Established => Establish(o)
    case Sent(m, w) => Send(o, m, w, opt)
    case SentElsewhere(m) => SendElsewhere(o, m)
    case Queued(m, w) => SendFrame(o, m, w, opt)
    case Writable(w) => HandleWrite(o, w, opt)
    case ShutdownCalled => Shutdown(o)
    case ForceCloseCalled => ForceClose(o)
    case ForceCloseRun => ForceCloseInLoop(o)
    case Closed => HandleClose(o)
    case Destroyed => Destroy(o)
  }

  /** Bytes written and bytes buffered are together exactly the frames taken over; the write interest
      is set exactly while something is buffered. */
  ghost predicate Conserved(o: Out) {
    && Fits(o.kept, MAX_PAYLOAD)
    && o.wire + o.buffer == Frames(o.kept)
    && (if o.phase == Disconnected then !o.writing else o.writing <==> o.buffer != [])
  }

  /** Splitting new data between the wire and the buffer loses nothing. */
  lemma RestConserves(o: Out, data: seq<byte>, n: nat, stream: seq<byte>, opt: Options)
    requires n <= |data| && o.wire + o.buffer == stream && (n > 0 ==> o.buffer == [])
    ensures var q := o.(wire := o.wire + data[..n]);
            var r := KeepRest(q, data[n..], opt);
            r.wire + r.buffer == stream + data
  {
    Split(data, n);
    Unit(data[n..]);
    Unit(o.wire);
    if n > 0 {
      Assoc(o.wire, data[..n], data[n..]);
      Unit(o.wire + data[..n]);
    } else {
      assert data[..0] == [] && data[0..] == data;
      Assoc(o.wire, o.buffer, data);
      Unit(o.buffer);
    }
  }

  lemma SendConserves(o: Out, m: Msg, w: KernelWrite, opt: Options)
    requires Conserved(o) && |m| <= MAX_PAYLOAD
    ensures Conserved(SendFrame(o, m, w, opt))
  {
    hide Frame, Frames;
    var r := SendFrame(o, m, w, opt);
    if r.kept != o.kept {
      FramesAppend(o.kept, [m]);
      FramesOne(m);
      FrameIsFrame(m);
      var data := Frame(m);
      var n := if Direct(o) then Taken(w, |data|) else 0;
      RestConserves(o, data, n, Frames(o.kept), opt);
      assert data[..0] == [] && data[0..] == data;
      Unit(o.wire);
    }
  }

  lemma WriteConserves(o: Out, w: KernelWrite, opt: Options)
    requires Conserved(o)
    ensures Conserved(HandleWrite(o, w, opt))
  {
    hide Frame, Frames;
    var n := Taken(w, |o.buffer|);
    Split(o.buffer, n);
    Assoc(o.wire, o.buffer[..n], o.buffer[n..]);
  }

  lemma StepConserves(o: Out, e: Event, opt: Options)
    requires Conserved(o) && Enabled(o, e)
    ensures Conserved(Step(o, e, opt))
  {
    hide Frame, Frames, SendFrame, HandleWrite;
    match e
    case Sent(m, w) => SendConserves(o, m, w, opt);
    case Queued(m, w) => SendConserves(o, m, w, opt);
    case Writable(w) => WriteConserves(o, w, opt);
    case _ =>
  }

  ghost predicate Run(trace: seq<Out>, events: seq<Event>, opt: Options) {
    && |trace| == |events| + 1 && trace[0] == FRESH
    && forall i :: 0 <= i < |events| ==> Enabled(trace[i], events[i]) && trace[i + 1] == Step(trace[i], events[i], opt)
  }

  lemma {:induction false} RunConserves(trace: seq<Out>, events: seq<Event>, opt: Options, k: nat)
    requires Run(trace, events, opt) && k < |trace|
    ensures Conserved(trace[k])
  {
    hide Step;
    if k == 0 {
      Unit(FRESH.wire);
    } else {
      RunConserves(trace, events, opt, k - 1);
      StepConserves(trace[k - 1], events[k - 1], opt);
    }
  }

  /** A message given to `send` is refused unless the connection is up, lost whole exactly on a write
      error with nothing waiting before it, and otherwise taken over. */
  lemma SendFate(o: Out, m: Msg, w: KernelWrite, opt: Options)
    requires Conserved(o) && |m| <= MAX_PAYLOAD
    ensures var r := Send(o, m, w, opt);
            if o.phase != Connected then r == o
            else if o.buffer == [] && w == PeerGone then r == o.(lost := o.lost + [m])
            else r.kept == o.kept + [m] && r.lost == o.lost
  {
    hide Frame, Frames;
  }

  // ---- Graceful shutdown ----

  /** The write side is closed at most once, after everything was written; it is closed as soon as
      that is so, once `shutdown` was asked for. */
  ghost predicate Graceful(o: Out) {
    && o.shut <= 1
    && (o.phase in {Connecting, Connected} ==> o.shut == 0 && !o.asked)
    && (o.shut == 1 ==> o.buffer == [])
    && (o.asked && o.phase == Disconnecting && o.buffer == [] ==> o.shut == 1)
  }

  /** A frame that another thread queued reaches `sendInLoop` between the closing of the write side and
      the end of the connection, and its direct write does not fail for good. */
  predicate Late(o: Out, e: Event) {
    e.Queued? && o.shut == 1 && o.phase == Disconnecting && e.w != PeerGone
  }

  lemma StepGraceful(o: Out, e: Event, opt: Options)
    requires Conserved(o) && Graceful(o) && Enabled(o, e) && !Late(o, e)
    ensures Graceful(Step(o, e, opt))
  {
    hide Frame, Frames;
  }

  /** Once the write side is closed, an event leaves the written bytes, the messages taken over and the
      number of closings as they are exactly if it is not such a late frame; and it writes something
      exactly if it is one of which the kernel takes a byte. */
  lemma QueuedAfterShutdown(o: Out, e: Event, opt: Options)
    requires Conserved(o) && Graceful(o) && o.shut == 1 && Enabled(o, e)
    ensures var r := Step(o, e, opt);
            r.wire == o.wire && r.kept == o.kept && r.shut == o.shut <==> !Late(o, e)
    ensures Step(o, e, opt).wire != o.wire <==> Late(o, e) && Taken(e.w, 1) == 1
  {
    hide Frame, Frames;
    if e.Queued? && o.phase == Disconnecting {
      FrameIsFrame(e.m);
      var n := Taken(e.w, |Frame(e.m)|);
      assert Direct(o);
      assert |o.wire + Frame(e.m)[..n]| == |o.wire| + n;
      Unit(o.wire);
    }
  }

  /** As long as no late frame comes: once the write side is closed, every message taken over has been
      written whole, and nothing is written or taken over afterwards. */
  lemma {:induction false} ShutdownFinal(trace: seq<Out>, events: seq<Event>, opt: Options, i: nat, j: nat)
    requires Run(trace, events, opt) && i <= j < |trace|
    requires forall k :: 0 <= k < j ==> !Late(trace[k], events[k])
    ensures Graceful(trace[i]) && Graceful(trace[j])
    ensures trace[i].shut == 1 ==>
              && Conserved(trace[i]) && trace[i].wire == Frames(trace[i].kept)
              && trace[j].shut == 1 && trace[j].wire == trace[i].wire && trace[j].kept == trace[i].kept
    decreases j
  {
    hide Step, Late;
    RunConserves(trace, events, opt, i);
    Unit(trace[i].wire);
    if j > 0 {
      RunConserves(trace, events, opt, j - 1);
      ShutdownFinal(trace, events, opt, if i == j then i - 1 else i, j - 1);
      StepGraceful(trace[j - 1], events[j - 1], opt);
      if trace[j - 1].shut == 1 { QueuedAfterShutdown(trace[j - 1], events[j - 1], opt); }
    }
  }

  lemma StepGrows(o: Out, e: Event, opt: Options)
    requires Enabled(o, e)
    ensures |o.kept| <= |Step(o, e, opt).kept| && o.shut <= Step(o, e, opt).shut
  {
    hide Frame;
  }

  lemma {:induction false} NeverLess(trace: seq<Out>, events: seq<Event>, opt: Options, i: nat, j: nat)
    requires Run(trace, events, opt) && i <= j < |trace|
    ensures |trace[i].kept| <= |trace[j].kept| && trace[i].shut <= trace[j].shut
    decreases j
  {
    hide Step;
    if i < j {
      NeverLess(trace, events, opt, i, j - 1);
      StepGrows(trace[j - 1], events[j - 1], opt);
    }
  }

  /** The promise is kept exactly if no late frame comes: from the moment the write side is closed,
      nothing is written, taken over or closed again if and only if no late frame came since. */
  lemma ShutdownFinalIff(trace: seq<Out>, events: seq<Event>, opt: Options, i: nat, j: nat)
    requires Run(trace, events, opt) && 0 < i <= j < |trace|
    requires trace[i - 1].shut == 0 && trace[i].shut == 1
    ensures trace[j].wire == trace[i].wire && trace[j].kept == trace[i].kept && trace[j].shut == 1
            <==> forall k :: i <= k < j ==> !Late(trace[k], events[k])
  {
    hide Step, Frame;
    forall k | 0 <= k < i ensures !Late(trace[k], events[k]) { NeverLess(trace, events, opt, k, i - 1); }
    if k :| i <= k < j && Late(trace[k], events[k]) {
      NeverLess(trace, events, opt, i, k);
      NeverLess(trace, events, opt, k + 1, j);
      LateIsTaken(trace[k], events[k], opt);
    } else {
      ShutdownFinal(trace, events, opt, i, j);
    }
  }

  lemma LateIsTaken(o: Out, e: Event, opt: Options)
    requires Enabled(o, e) && Late(o, e)
    ensures Step(o, e, opt).kept == o.kept + [e.m]
  {
    hide Frame;
  }

  /** Such runs exist: an empty message queued by another thread before `shutdown` is written after it. */
  lemma LateReached(opt: Options)
    ensures exists trace: seq<Out>, events: seq<Event> ::
              Run(trace, events, opt) && |trace| == 5 && trace[3].shut == 1 && trace[4].wire != trace[3].wire
  {
    hide Frame, Frames;
    FrameIsFrame([]);
    var events := [Established, SentElsewhere([]), ShutdownCalled, Queued([], Accepts(4))];
    var o1 := Step(FRESH, events[0], opt);
    var o2 := Step(o1, events[1], opt);
    var o3 := Step(o2, events[2], opt);
    var o4 := Step(o3, events[3], opt);
    var trace := [FRESH, o1, o2, o3, o4];
    assert Run(trace, events, opt);
    assert |o4.wire| == 4 && o3.wire == [];
  }

  // ---- Notifications ----

  ghost predicate TellsHigh(o: Out, r: Out) {
    |r.notices| > |o.notices| && r.notices[|r.notices| - 1].HighWater?
  }

  /** A high-water notice is queued exactly by a send that lifts the buffered bytes over the mark. */
  lemma HighWaterIff(o: Out, e: Event, opt: Options)
    requires Conserved(o) && Enabled(o, e)
    ensures var r := Step(o, e, opt);
            TellsHigh(o, r) <==> opt.onHigh && |o.buffer| < opt.mark <= |r.buffer|
  {
    hide Frame, Frames;
    match e
    case Writable(w) => Split(o.buffer, Taken(w, |o.buffer|));
    case Sent(m, w) => SendTellsHigh(o, m, w, opt);
    case Queued(m, w) => SendTellsHigh(o, m, w, opt);
    case _ =>
  }

  lemma SendTellsHigh(o: Out, m: Msg, w: KernelWrite, opt: Options)
    requires Conserved(o) && |m| <= MAX_PAYLOAD
    ensures var r := SendFrame(o, m, w, opt);
            TellsHigh(o, r) <==> opt.onHigh && |o.buffer| < opt.mark <= |r.buffer|
  {
    hide Frame, Frames;
  }

  /** Between two high-water notices the buffered bytes fell below the mark. */
  lemma HighWaterEdges(trace: seq<Out>, events: seq<Event>, opt: Options, i: nat, j: nat)
    requires Run(trace, events, opt) && i < j < |events|
    requires TellsHigh(trace[i], trace[i + 1]) && TellsHigh(trace[j], trace[j + 1])
    ensures |trace[i + 1].buffer| >= opt.mark && exists k :: i + 1 < k <= j && |trace[k].buffer| < opt.mark
  {
    hide Step;
    RunConserves(trace, events, opt, i);
    RunConserves(trace, events, opt, j);
    HighWaterIff(trace[i], events[i], opt);
    HighWaterIff(trace[j], events[j], opt);
    assert trace[i + 1] == Step(trace[i], events[i], opt) && trace[j + 1] == Step(trace[j], events[j], opt);
  }

  ghost predicate TellsComplete(o: Out, r: Out) {
    |r.notices| > |o.notices| && r.notices[|r.notices| - 1] == WriteComplete
  }

  /** A write-complete notice is queued exactly when the kernel has just taken bytes and nothing is
      left to write. */
  lemma WriteCompleteIff(o: Out, e: Event, opt: Options)
    requires Conserved(o) && Enabled(o, e)
    ensures var r := Step(o, e, opt);
            TellsComplete(o, r) <==> opt.onComplete && r.buffer == [] && |r.wire| > |o.wire|
  {
    hide Frame, Frames, Bytes.Be32;
    if e.Writable? { Split(o.buffer, Taken(e.w, |o.buffer|)); }
    if e.Sent? || e.Queued? { FrameIsFrame(e.m); }
  }

  // ---- What each event does, from outside ----

  /** What is sent while something is waiting goes behind it; otherwise the kernel gets it at once, in the
      bytes of the frame, and what the kernel does not take waits. */
  lemma SendWrites(o: Out, m: Msg, w: KernelWrite, opt: Options)
    requires Conserved(o) && o.phase == Connected && |m| <= MAX_PAYLOAD
    ensures var r := Send(o, m, w, opt);
            var frame := Be32(|m|) + m;
            var n := if w.Accepts? then (if w.upTo < 4 + |m| then w.upTo else 4 + |m|) else 0;
            if o.buffer != [] then r.wire == o.wire && r.buffer == o.buffer + frame
            else if w == PeerGone then r.wire == o.wire && r.buffer == []
            else r.wire == o.wire + frame[..n] && r.buffer == frame[n..]
  {
    hide Bytes.Be32;
    var frame := Be32(|m|) + m;
    assert frame[..0] == [] && frame[0..] == frame;
    assert frame[|frame|..] == [];
    Unit(o.wire);
    Unit(frame);
    if o.buffer == [] { Unit(frame[Taken(w, |frame|)..]); }
  }

  /** A write event hands the kernel what is waiting, from the front. */
  lemma WriteTakes(o: Out, w: KernelWrite, opt: Options)
    requires Conserved(o) && o.phase != Disconnected
    ensures var r := HandleWrite(o, w, opt);
            var n := if w.Accepts? then (if w.upTo < |o.buffer| then w.upTo else |o.buffer|) else 0;
            r.wire == o.wire + o.buffer[..n] && r.buffer == o.buffer[n..]
  {
    Unit(o.wire);
  }

  /** A send on another thread leaves exactly one request, for this message, if the connection is up. */
  lemma RequestIff(o: Out, m: Msg, opt: Options)
    requires |m| <= MAX_PAYLOAD
    ensures var r := Step(o, SentElsewhere(m), opt);
            && r.notices == (if o.phase == Connected then o.notices + [SendRequest(m)] else o.notices)
            && r.wire == o.wire && r.buffer == o.buffer && r.kept == o.kept
  {
  }

  /** A request is taken over when it runs, unless the connection is gone or its direct write fails for good. */
  lemma RequestFate(o: Out, m: Msg, w: KernelWrite, opt: Options)
    requires Conserved(o) && Enabled(o, Queued(m, w))
    ensures var r := Step(o, Queued(m, w), opt);
            if o.phase == Disconnected then r == o
            else if o.buffer == [] && w == PeerGone then r == o.(lost := o.lost + [m])
            else r.kept == o.kept + [m] && r.lost == o.lost
  {
    hide Frame, Frames;
  }

  /** `shutdown` is carried out: at once if nothing is waiting, otherwise when the last byte is written. */
  lemma ShutdownHappens(o: Out, opt: Options)
    requires Conserved(o) && Graceful(o) && o.phase == Connected
    ensures var r := Step(o, ShutdownCalled, opt);
            r.phase == Disconnecting && (r.shut == 1 <==> o.buffer == []) && r.buffer == o.buffer
  {
  }

  lemma ShutdownFinishes(o: Out, w: KernelWrite, opt: Options)
    requires Conserved(o) && Graceful(o) && o.phase == Disconnecting && o.buffer != []
    requires w.Accepts? && w.upTo >= |o.buffer|
    ensures var r := Step(o, Writable(w), opt); r.shut == 1 && r.buffer == [] && r.wire == o.wire + o.buffer
  {
    WriteTakes(o, w, opt);
    assert o.buffer[..|o.buffer|] == o.buffer;
  }

  /** A forced close of a connection that is up leaves one request to close it; running that, like an end of
      stream, takes it down, and nothing else but its destruction does. */
  lemma DownIff(o: Out, e: Event, opt: Options)
    requires Enabled(o, e)
    ensures var r := Step(o, e, opt);
            && (r.phase == Disconnected <==>
                  o.phase == Disconnected || e.Closed? || (e.ForceCloseRun? && o.phase != Connecting)
                  || (e.Destroyed? && o.phase == Connected))
            && (r.phase == Connected <==>
                  e.Established? || (o.phase == Connected && !e.Closed? && !e.ForceCloseRun? && !e.Destroyed?
                                     && !e.ShutdownCalled? && !e.ForceCloseCalled?))
            && (e.ForceCloseCalled? && o.phase in {Connected, Disconnecting} ==>
                  r.notices == o.notices + [CloseRequest])
  {
    hide Frame, Frames;
  }
}
