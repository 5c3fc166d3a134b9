/** The session over real connections: each of its two message queues is a sending half, the bytes on
    their way and a receiving half. Every run is a run of the session over FIFO queues. */
module Network {
  import opened Bytes
  import opened Seqs
  import opened Framing
  import opened Output
  import opened Session
  import opened Transfer
  import Links = EndToEnd
  import Queues = System
  import Protocol
  import Tokens

  type Link = Links.Link

  /** `upWants` and `downWants` hold, for each message taken over by the sending half, the state it is
      meant for; `upRead` and `downRead` count the delivered messages already handled. */
  datatype Net = Net(
    c: Client, s: Server, up: Link, down: Link,
    upWants: seq<ServerState>, downWants: seq<ClientState>, upRead: nat, downRead: nat)

  /** A queue as the session sees it: the messages taken over and not handled yet. */
  ghost function Queue<W>(wants: seq<W>, x: Link, read: nat): (q: seq<Packet<W>>)
    requires read <= |wants| == |x.o.kept|
  {
    seq(|wants| - read, i requires 0 <= i < |wants| - read => Packet(wants[read + i], x.o.kept[read + i]))
  }

  ghost predicate Lane<W>(wants: seq<W>, x: Link, read: nat) {
    Links.LinkOk(x) && x.o.phase == Connected && |wants| == |x.o.kept| && read <= |x.delivered|
  }

  ghost predicate NetOk(n: Net) {
    Lane(n.upWants, n.up, n.upRead) && Lane(n.downWants, n.down, n.downRead)
  }

  lemma LaneReads<W>(wants: seq<W>, x: Link, read: nat)
    requires Lane(wants, x, read)
    ensures read <= |x.delivered| <= |wants| && |Queue(wants, x, read)| == |wants| - read
    ensures read < |x.delivered| ==>
              && Queue(wants, x, read)[0] == Packet(wants[read], x.delivered[read])
              && Queue(wants, x, read)[1..] == Queue(wants, x, read + 1)
  {
    hide Links.LinkOk, Classify;
    Links.LinkDelivers(x);
  }

  ghost function Abs(n: Net): Queues.Sys
    requires NetOk(n)
  {
    LaneReads(n.upWants, n.up, n.upRead);
    LaneReads(n.downWants, n.down, n.downRead);
    Queues.Sys(n.c, n.s, Queue(n.upWants, n.up, n.upRead), Queue(n.downWants, n.down, n.downRead))
  }

  /** Messages are handed to `send` one after the other, each with what the kernel does to it. */
  ghost predicate Sendable<W>(ps: seq<Packet<W>>, ws: seq<KernelWrite>) {
    |ws| == |ps| && forall i :: 0 <= i < |ps| ==> |ps[i].bytes| <= MAX_PAYLOAD && ws[i] != PeerGone
  }

  ghost function SendAll<W>(x: Link, ps: seq<Packet<W>>, ws: seq<KernelWrite>, opt: Options): (z: Link)
    requires Sendable(ps, ws)
    decreases |ps|
  {
    if ps == [] then x else
      SendAll(Links.Next(x, Links.Local(Sent(ps[0].bytes, ws[0])), opt), ps[1..], ws[1..], opt)
  }

  function Wants<W>(ps: seq<Packet<W>>): (r: seq<W>)
    ensures |r| == |ps|
  {
    seq(|ps|, i requires 0 <= i < |ps| => ps[i].want)
  }

  lemma SendOne(x: Link, m: Msg, w: KernelWrite, opt: Options)
    requires Links.LinkOk(x) && x.o.phase == Connected && |m| <= MAX_PAYLOAD && w != PeerGone
    ensures var z := Links.Next(x, Links.Local(Sent(m, w)), opt);
            Links.LinkOk(z) && z.o.phase == Connected && z.o.kept == x.o.kept + [m] && z.delivered == x.delivered
  {
    hide Links.LinkOk, Frame;
    Links.NextOk(x, Links.Local(Sent(m, w)), opt);
  }

  lemma QueueGrows<W>(wants: seq<W>, x: Link, y: Link, read: nat, p: Packet<W>)
    requires read <= |wants| == |x.o.kept| && y.o.kept == x.o.kept + [p.bytes]
    ensures Queue(wants + [p.want], y, read) == Queue(wants, x, read) + [p]
  {
  }

  /** Sending appends to the queue. */
  lemma {:induction false} SendAllAppends<W>(wants: seq<W>, x: Link, read: nat, ps: seq<Packet<W>>,
                                             ws: seq<KernelWrite>, opt: Options)
    requires Lane(wants, x, read) && Sendable(ps, ws)
    ensures var z := SendAll(x, ps, ws, opt);
            && read <= |wants| && Lane(wants + Wants(ps), z, read) && z.delivered == x.delivered
            && Queue(wants + Wants(ps), z, read) == Queue(wants, x, read) + ps
    decreases |ps|
  {
    hide Links.LinkOk, Links.Next, Queue;
    LaneReads(wants, x, read);
    if ps == [] {
      Unit(wants);
      Unit(Queue(wants, x, read));
      assert Wants(ps) == [];
    } else {
      var y := Links.Next(x, Links.Local(Sent(ps[0].bytes, ws[0])), opt);
      SendOne(x, ps[0].bytes, ws[0], opt);
      var more := wants + [ps[0].want];
      QueueGrows(wants, x, y, read, ps[0]);
      SendAllAppends(more, y, read, ps[1..], ws[1..], opt);
      assert Wants(ps) == [ps[0].want] + Wants(ps[1..]);
      Assoc(wants, [ps[0].want], Wants(ps[1..]));
      Split(ps, 1);
      Assoc(Queue(wants, x, read), [ps[0]], ps[1..]);
    }
  }

  /** A step of the session, or the transport at work: a write event or the arrival of some bytes. */
  datatype Step =
    | Act(e: Queues.Step, ws: seq<KernelWrite>)
    | UpMove(v: Links.Move) | DownMove(v: Links.Move)

  ghost predicate Transport(v: Links.Move) {
    v.Arrive? || (v.Local? && v.e.Writable?)
  }

  /** A message is handled when it has been delivered, whatever has become of later bytes. */
  ghost predicate Ready(n: Net, e: Queues.Step)
    requires NetOk(n)
  {
    match e
    case Key(t) => Queues.Enabled(Abs(n), e)
    case PumpFile => Alive(n.s) && n.s.pumping
    case ClientReads(_) => n.downRead < |n.down.delivered|
    case ServerReads(a) =>
      && Alive(n.s) && n.upRead < |n.up.delivered|
      && Legal(a) && (n.s.state == SLoggedIn ==> Queues.Path.WellFormed(n.s.path))
  }

  ghost function ClientTurnOf(n: Net, e: Queues.Step): ClientTurn
    requires NetOk(n) && Ready(n, e)
  {
    match e
    case Key(t) => Keyboard(n.c, t)
    case ClientReads(digest) => ClientOnMessage(n.c, n.down.delivered[n.downRead], digest)
    case _ => ClientTurn(n.c, [])
  }

  ghost function ServerTurnOf(n: Net, e: Queues.Step): ServerTurn
    requires NetOk(n) && Ready(n, e)
  {
    match e
    case ServerReads(a) => ServerOnMessage(n.s, n.up.delivered[n.upRead], a)
    case PumpFile => Pump(n.s)
    case _ => ServerTurn(n.s, [])
  }

  ghost predicate Enabled(n: Net, t: Step)
    requires NetOk(n)
  {
    match t
    case Act(e, ws) =>
      && Ready(n, e)
      && (if e.Key? || e.ClientReads? then Sendable(ClientTurnOf(n, e).out, ws)
          else Sendable(ServerTurnOf(n, e).out, ws))
    case UpMove(v) => Transport(v) && Links.Possible(n.up, v)
    case DownMove(v) => Transport(v) && Links.Possible(n.down, v)
  }

  ghost function Apply(n: Net, t: Step, opt: Options): Net
    requires NetOk(n) && Enabled(n, t)
  {
    match t
    case UpMove(v) => n.(up := Links.Next(n.up, v, opt))
    case DownMove(v) => n.(down := Links.Next(n.down, v, opt))
    case Act(e, ws) =>
      if e.Key? || e.ClientReads? then
        var r := ClientTurnOf(n, e);
        n.(c := r.c, up := SendAll(n.up, r.out, ws, opt), upWants := n.upWants + Wants(r.out),
           downRead := n.downRead + if e.ClientReads? then 1 else 0)
      else
        var r := ServerTurnOf(n, e);
        n.(s := r.s, down := SendAll(n.down, r.out, ws, opt), downWants := n.downWants + Wants(r.out),
           upRead := n.upRead + if e.ServerReads? then 1 else 0)
  }

  /** Write events and arriving bytes do not change what the session sees. */
  lemma LaneMoves<W>(wants: seq<W>, x: Link, read: nat, v: Links.Move, opt: Options)
    requires Lane(wants, x, read) && Transport(v) && Links.Possible(x, v)
    ensures var z := Links.Next(x, v, opt);
            && read <= |wants| && Lane(wants, z, read) && Queue(wants, z, read) == Queue(wants, x, read)
  {
    hide Links.LinkOk, Decode;
    Links.NextOk(x, v, opt);
    LaneReads(wants, x, read);
  }

  lemma MoveStutters(n: Net, t: Step, opt: Options)
    requires NetOk(n) && Enabled(n, t) && !t.Act?
    ensures NetOk(Apply(n, t, opt)) && Abs(Apply(n, t, opt)) == Abs(n)
  {
    hide Lane, Links.Next, Queue;
    match t
    case UpMove(v) => LaneMoves(n.upWants, n.up, n.upRead, v, opt);
    case DownMove(v) => LaneMoves(n.downWants, n.down, n.downRead, v, opt);
  }

  lemma NextRead<W>(wants: seq<W>, x: Link, read: nat)
    requires Lane(wants, x, read) && read < |x.delivered|
    ensures Lane(wants, x, read + 1)
  {
  }

  /** A session step over the connections is the same step over the queues. */
  lemma ActRefines(n: Net, e: Queues.Step, ws: seq<KernelWrite>, opt: Options)
    requires NetOk(n) && Enabled(n, Act(e, ws))
    ensures NetOk(Apply(n, Act(e, ws), opt))
    ensures Queues.Enabled(Abs(n), e)
    ensures Abs(Apply(n, Act(e, ws), opt)) == Queues.Apply(Abs(n), e)
  {
    hide Lane, Queue, Keyboard, ClientOnMessage, ServerOnMessage, Pump, SendAll;
    LaneReads(n.upWants, n.up, n.upRead);
    LaneReads(n.downWants, n.down, n.downRead);
    if e.Key? || e.ClientReads? {
      SendAllAppends(n.upWants, n.up, n.upRead, ClientTurnOf(n, e).out, ws, opt);
      if e.ClientReads? { NextRead(n.downWants, n.down, n.downRead); }
    } else {
      SendAllAppends(n.downWants, n.down, n.downRead, ServerTurnOf(n, e).out, ws, opt);
      if e.ServerReads? { NextRead(n.upWants, n.up, n.upRead); }
    }
  }

  // ---- Runs ----

  const OPEN: Link := Links.IDLE.(o := FRESH.(phase := Connected))

  const START := Net(Queues.START.c, Queues.START.s, OPEN, OPEN, [], [], 0, 0)

  ghost predicate Fitting(n: Net, t: Step)
    requires NetOk(n)
  {
    t.Act? && Queues.Enabled(Abs(n), t.e) ==> Queues.Supported(Abs(n), t.e)
  }

  ghost predicate Run(trace: seq<Net>, steps: seq<Step>, opt: Options) {
    && |trace| == |steps| + 1 && trace[0] == START
    && forall i :: 0 <= i < |steps| ==>
         && NetOk(trace[i]) && Enabled(trace[i], steps[i]) && trace[i + 1] == Apply(trace[i], steps[i], opt)
         && Fitting(trace[i], steps[i])
  }

  lemma OpenOk()
    ensures Links.LinkOk(OPEN)
  {
    hide Decode, Classify;
    LookShort([]);
    Unit(OPEN.pipe);
    assert Links.Reads(OPEN, []);
  }

  lemma StartOk()
    ensures NetOk(START) && Abs(START) == Queues.START
  {
    hide Links.LinkOk;
    OpenOk();
  }

  lemma {:induction false} RunKeepsInv(trace: seq<Net>, steps: seq<Step>, opt: Options, k: nat)
    requires Run(trace, steps, opt) && k < |trace|
    ensures NetOk(trace[k]) && Queues.Inv(Abs(trace[k]))
  {
    hide NetOk, Apply, Abs, Queues.Inv, Queues.Apply;
    if k == 0 {
      StartOk();
      Queues.InvStart();
    } else {
      RunKeepsInv(trace, steps, opt, k - 1);
      var n, t := trace[k - 1], steps[k - 1];
      if t.Act? {
        ActRefines(n, t.e, t.ws, opt);
        Queues.StepPreserves(Abs(n), t.e);
      } else {
        MoveStutters(n, t, opt);
      }
    }
  }

  ghost predicate Drained(n: Net) {
    && n.up.o.buffer == [] && n.up.pipe == [] && n.upRead == |n.up.delivered|
    && n.down.o.buffer == [] && n.down.pipe == [] && n.downRead == |n.down.delivered|
    && !n.s.pumping && Alive(n.s)
  }

  lemma DrainedIsQuiet(n: Net)
    requires NetOk(n) && Drained(n)
    ensures Protocol.Quiet(Abs(n))
  {
    hide Links.LinkOk, Classify;
    LaneReads(n.upWants, n.up, n.upRead);
    LaneReads(n.downWants, n.down, n.downRead);
    Links.LinkDelivers(n.up);
    Links.LinkDelivers(n.down);
  }

  /** No step of the session stops the server process. */
  ghost predicate Sound(n: Net, t: Step)
    requires NetOk(n)
  {
    t.Act? && Queues.Enabled(Abs(n), t.e) ==> Queues.Sound(Abs(n), t.e)
  }

  ghost predicate Agreed(n: Net) {
    && ((n.c.state == CInit && n.s.state == SInit) || (n.c.state == CLoggedIn && n.s.state == SLoggedIn))
    && n.s.stored == n.c.sent && n.c.fetched == n.s.offered
  }

  /** Over real links too, the server is alive exactly in the runs whose steps are sound. */
  lemma {:induction false} AliveIff(trace: seq<Net>, steps: seq<Step>, opt: Options, k: nat)
    requires Run(trace, steps, opt) && k < |trace|
    ensures Alive(trace[k].s) <==> forall i :: 0 <= i < k ==> NetOk(trace[i]) && Sound(trace[i], steps[i])
  {
    hide NetOk, Apply, Abs, Queues.Inv, Queues.Apply, Sound, Enabled, Fitting;
    if k > 0 {
      AliveIff(trace, steps, opt, k - 1);
      RunKeepsInv(trace, steps, opt, k - 1);
      AliveAfter(trace[k - 1], steps[k - 1], opt);
    }
  }

  lemma AliveAfter(n: Net, t: Step, opt: Options)
    requires NetOk(n) && Queues.Inv(Abs(n)) && Enabled(n, t) && Fitting(n, t)
    ensures Alive(Apply(n, t, opt).s) <==> Alive(n.s) && Sound(n, t)
  {
    hide NetOk, Queues.Inv, Queues.Apply, Queues.Sound, Enabled, Queues.Supported, Apply, Queue;
    if t.Act? {
      ActRefines(n, t.e, t.ws, opt);
      Protocol.StaysAlive(Abs(n), t.e);
    } else {
      MoveStutters(n, t, opt);
    }
  }

  /** Over any partial writes and any fragmentation: the next message either callback gets was sent for
      the state it is in; files arrive in order and unchanged; the server stays alive exactly in the
      runs whose steps are sound; and once all buffers are empty both sides agree and every file has arrived. */
  lemma SessionOverNetwork(trace: seq<Net>, steps: seq<Step>, opt: Options, k: nat)
    requires Run(trace, steps, opt) && k < |trace|
    ensures var n := trace[k];
            && NetOk(n) && |n.up.delivered| <= |n.upWants| && |n.down.delivered| <= |n.downWants|
            && (n.upRead < |n.up.delivered| ==> n.upWants[n.upRead] == n.s.state)
            && (n.downRead < |n.down.delivered| ==> n.downWants[n.downRead] == n.c.state)
            && n.s.stored <= n.c.sent && n.c.fetched <= n.s.offered
            && (Alive(n.s) <==> forall i :: 0 <= i < k ==> NetOk(trace[i]) && Sound(trace[i], steps[i]))
            && (Drained(n) ==> Agreed(n))
  {
    hide Queues.Inv, Links.LinkOk, Classify, Sound;
    RunKeepsInv(trace, steps, opt, k);
    AliveIff(trace, steps, opt, k);
    var n := trace[k];
    LaneReads(n.upWants, n.up, n.upRead);
    LaneReads(n.downWants, n.down, n.downRead);
    Protocol.InvReadsRight(Abs(n));
    Protocol.FilesInOrder(Abs(n));
    if Drained(n) {
      DrainedIsQuiet(n);
      Protocol.QuietMeansAgreement(Abs(n));
    }
  }

  // ---- Commands complete over the connections ----

  /** Bytes that the kernel has yet to take count twice, bytes it has yet to hand over once. */
  function Waiting(x: Link): nat {
    2 * |x.o.buffer| + |x.pipe|
  }

  /** A write event in which the kernel takes something, or an arrival. */
  ghost predicate Moves(x: Link, v: Links.Move) {
    Transport(v) && Links.Possible(x, v) && (v.Local? ==> v.e.w.Accepts? && v.e.w.upTo > 0 && x.o.writing)
  }

  /** A sound step other than a keyboard line that gets something done. */
  ghost predicate Productive(n: Net, t: Step)
    requires NetOk(n)
  {
    && Enabled(n, t) && Sound(n, t) && Fitting(n, t)
    && match t
       case Act(e, _) => !e.Key?
       case UpMove(v) => Moves(n.up, v)
       case DownMove(v) => Moves(n.down, v)
  }

  lemma MoveShrinks<W>(wants: seq<W>, x: Link, read: nat, v: Links.Move, opt: Options)
    requires Lane(wants, x, read) && Moves(x, v)
    ensures Waiting(Links.Next(x, v, opt)) < Waiting(x)
  {
    hide Frames, Decode, Links.Reads;
    if v.Local? {
      var n := Taken(v.e.w, |x.o.buffer|);
      assert n > 0;
      var z := HandleWrite(x.o, v.e.w, opt);
      assert z.buffer == x.o.buffer[n..] && z.wire == x.o.wire + x.o.buffer[..n];
      Cut(x.o.wire, x.o.buffer[..n]);
    }
  }

  ghost predicate Small<W>(ps: seq<Packet<W>>) {
    forall i :: 0 <= i < |ps| ==> |ps[i].bytes| <= MAX_PAYLOAD
  }

  lemma {:induction false} ChunksSmall(file: seq<byte>)
    ensures forall i :: 0 <= i < |Chunks(file)| ==> |Chunks(file)[i]| <= CHUNK
    decreases |file|
  {
    if file != [] {
      var n := ReadLen(file);
      ChunksSmall(file[n..]);
      assert forall i :: 0 < i < |Chunks(file)| ==> Chunks(file)[i] == Chunks(file[n..])[i - 1];
    }
  }

  lemma ClientOutSmall(c: Client, msg: Msg)
    ensures Small(ClientOnMessage(c, msg, []).out)
  {
    hide Chunks, Bytes.ReadHostInt;
    ChunksSmall(c.source);
  }

  lemma ServerOutSmall(s: Server, msg: Msg)
    requires |s.path| <= MAX_PAYLOAD && Legal(Protocol.MODEST)
    requires (s.state == SLoggedIn ==> Queues.Path.WellFormed(s.path))
    ensures Small(ServerOnMessage(s, msg, Protocol.MODEST).out)
  {
    hide Tokens.Tokenise, Queues.Path.Cd, Bytes.ReadHostInt, Queues.Registration.Unpack, RegisterFits, QueryFits, Where;
    Protocol.EmptyListing(Where(s));
  }

  lemma PumpOutSmall(s: Server)
    ensures Small(Pump(s).out)
  {
  }

  function Blocked(n: nat): (ws: seq<KernelWrite>)
    ensures |ws| == n && forall i :: 0 <= i < n ==> ws[i] == WouldBlock
  {
    seq(n, _ => WouldBlock)
  }

  /** With every byte delivered, one of the two sides has something to do. */
  lemma SomeoneCanAct(n: Net)
    requires NetOk(n) && Queues.Inv(Abs(n)) && Alive(n.s) && Protocol.Clear(Abs(n)) && !Drained(n)
    requires |n.s.path| <= MAX_PAYLOAD
    requires n.up.o.buffer == [] && n.up.pipe == [] && n.down.o.buffer == [] && n.down.pipe == []
    ensures exists t :: Productive(n, t)
  {
    hide Lane, Queues.Inv, Queue, Classify, Small, ClientOnMessage, ServerOnMessage, Pump, Transferable, Legal;
    hide Survives, Protocol.Clear, Protocol.Printable;
    LaneReads(n.upWants, n.up, n.upRead);
    LaneReads(n.downWants, n.down, n.downRead);
    if n.s.pumping {
      PumpOutSmall(n.s);
      CanAct(n, Queues.PumpFile);
    } else if n.downRead < |n.down.delivered| {
      ClientOutSmall(n.c, n.down.delivered[n.downRead]);
      ClientCanRead(n);
      CanAct(n, Queues.ClientReads([]));
    } else {
      Protocol.ModestIsLegal();
      PathIsOk(n);
      Protocol.ClearIsPrintable(Abs(n));
      Protocol.SurvivesIff(Abs(n));
      ServerOutSmall(n.s, n.up.delivered[n.upRead]);
      CanAct(n, Queues.ServerReads(Protocol.MODEST));
    }
  }

  lemma ClientCanRead(n: Net)
    requires NetOk(n) && Protocol.Clear(Abs(n)) && n.downRead < |n.down.delivered|
    ensures Queues.Enabled(Abs(n), Queues.ClientReads([])) ==> Queues.Supported(Abs(n), Queues.ClientReads([]))
  {
    hide Lane, Queue, Carriable, Sized, Bytes.ReadHostInt, Chunks;
  }

  lemma PathIsOk(n: Net)
    requires NetOk(n) && Queues.Inv(Abs(n)) && Alive(n.s)
    ensures n.s.state == SLoggedIn ==> Queues.Path.WellFormed(n.s.path)
  {
    hide Lane, Queue, Queues.Stage, Queues.Uploads, Queues.Downloads, Queues.Residue, Queues.Accounts;
  }

  lemma CanAct(n: Net, e: Queues.Step)
    requires NetOk(n) && Ready(n, e) && !e.Key?
    requires if e.ClientReads? then Small(ClientTurnOf(n, e).out) else Small(ServerTurnOf(n, e).out)
    requires Queues.Enabled(Abs(n), e) ==> Queues.Supported(Abs(n), e) && Queues.Sound(Abs(n), e)
    ensures exists t :: Productive(n, t)
  {
    hide Lane, Queue, ClientOnMessage, ServerOnMessage, Pump, Transferable, Legal, Queues.Supported, Queues.Sound, Abs;
    var ws := Blocked(if e.ClientReads? then |ClientTurnOf(n, e).out| else |ServerTurnOf(n, e).out|);
    assert Productive(n, Act(e, ws));
  }

  /** Some step gets something done, unless all is drained or the path has outgrown a frame. */
  lemma SomethingToDo(n: Net)
    requires NetOk(n) && Queues.Inv(Abs(n)) && Alive(n.s) && Protocol.Clear(Abs(n)) && !Drained(n)
    requires |n.s.path| <= MAX_PAYLOAD
    ensures exists t :: Productive(n, t)
  {
    hide Links.LinkOk, Queues.Inv, Queue, Classify;
    if n.up.o.buffer != [] || n.up.pipe != [] {
      LaneCanMove(n.upWants, n.up, n.upRead);
      var v :| Moves(n.up, v);
      assert Productive(n, UpMove(v));
    } else if n.down.o.buffer != [] || n.down.pipe != [] {
      LaneCanMove(n.downWants, n.down, n.downRead);
      var v :| Moves(n.down, v);
      assert Productive(n, DownMove(v));
    } else {
      SomeoneCanAct(n);
    }
  }

  lemma LaneCanMove<W>(wants: seq<W>, x: Link, read: nat)
    requires Lane(wants, x, read) && (x.o.buffer != [] || x.pipe != [])
    ensures exists v :: Moves(x, v)
  {
    hide Frames, Links.Reads;
    if x.pipe != [] {
      assert Moves(x, Links.Arrive(1));
    } else {
      assert Moves(x, Links.Local(Writable(Accepts(1))));
    }
  }

  /** Nothing that would get anything done is possible. */
  ghost predicate Halted(n: Net)
    requires NetOk(n)
  {
    forall t :: !Productive(n, t)
  }

  ghost predicate Good(n: Net) {
    NetOk(n) && Queues.Inv(Abs(n)) && Alive(n.s) && Protocol.Clear(Abs(n))
  }

  /** A scheduler that keeps picking productive steps as long as there are any. */
  ghost predicate Scheduler(pick: Net -> Step) {
    forall n :: Good(n) && !Halted(n) ==> Productive(n, pick(n))
  }

  ghost function Pick(n: Net): Step {
    if Good(n) && !Halted(n) then (var t :| Productive(n, t); t) else UpMove(Links.Arrive(0))
  }

  lemma SchedulerExists()
    ensures Scheduler(Pick)
  {
  }

  lemma StaysGood(n: Net, t: Step, opt: Options)
    requires Good(n) && Productive(n, t)
    ensures Good(Apply(n, t, opt))
  {
    hide Lane, Queues.Inv, Queues.Apply, Queues.Sound, Enabled, Queues.Supported, Apply, Queue, Moves, Ready;
    hide Protocol.Clear;
    AliveAfter(n, t, opt);
    if t.Act? {
      ActRefines(n, t.e, t.ws, opt);
      Queues.StepPreserves(Abs(n), t.e);
      Protocol.StaysClear(Abs(n), t.e);
    } else {
      MoveStutters(n, t, opt);
    }
  }

  /** What a productive step does to the measure of the session, and to the bytes under way. */
  lemma ProductiveDescends(n: Net, t: Step, opt: Options)
    requires Good(n) && Productive(n, t)
    ensures Good(Apply(n, t, opt))
    ensures var z := Apply(n, t, opt);
            var y, x := Abs(n), Abs(z);
            || Protocol.Rank(z.c.state) < Protocol.Rank(n.c.state)
            || (Protocol.Rank(z.c.state) == Protocol.Rank(n.c.state)
                && (|| |x.up| < |y.up|
                    || (|x.up| == |y.up|
                        && (|| Protocol.Work(z.s) < Protocol.Work(n.s)
                            || (Protocol.Work(z.s) == Protocol.Work(n.s)
                                && (|| |x.down| < |y.down|
                                    || (|x.down| == |y.down|
                                        && Waiting(z.up) + Waiting(z.down) < Waiting(n.up) + Waiting(n.down))))))))
  {
    hide Lane, Queues.Inv, Queues.Apply, Queues.Sound, Queues.Supported, Queue, Moves, Ready, SendAll, Links.Next;
    hide Waiting;
    StaysGood(n, t, opt);
    match t
    case Act(e, ws) =>
      ActRefines(n, e, ws, opt);
      Protocol.StepsDescend(Abs(n), e);
    case UpMove(v) => MoveStutters(n, t, opt); MoveShrinks(n.upWants, n.up, n.upRead, v, opt);
    case DownMove(v) => MoveStutters(n, t, opt); MoveShrinks(n.downWants, n.down, n.downRead, v, opt);
  }

  /** Where a scheduler ends up. That this function is total says that every schedule comes to an end. */
  ghost function Finish(n: Net, pick: Net -> Step, opt: Options): (z: Net)
    requires Good(n) && Scheduler(pick)
    ensures Good(z) && Halted(z)
    decreases Protocol.Rank(n.c.state), |Abs(n).up|, Protocol.Work(n.s), |Abs(n).down|, Waiting(n.up) + Waiting(n.down)
  {
    if Halted(n) then n else
      ProductiveDescends(n, pick(n), opt);
      Finish(Apply(n, pick(n), opt), pick, opt)
  }

  lemma {:induction false} FinishKeepsPromise(n: Net, pick: Net -> Step, opt: Options)
    requires Good(n) && Scheduler(pick) && Protocol.Decided(Abs(n))
    ensures var z := Finish(n, pick, opt); Protocol.SamePromise(Abs(n), Abs(z))
    decreases Protocol.Rank(n.c.state), |Abs(n).up|, Protocol.Work(n.s), |Abs(n).down|, Waiting(n.up) + Waiting(n.down)
  {
    hide NetOk, Queues.Inv, Queues.Apply, Queues.Sound, Enabled, Queues.Supported, Apply, Abs, Moves, Ready;
    if !Halted(n) {
      var t := pick(n);
      ProductiveDescends(n, t, opt);
      if t.Act? {
        ActRefines(n, t.e, t.ws, opt);
        Protocol.PromiseKept(Abs(n), t.e);
      } else {
        MoveStutters(n, t, opt);
      }
      FinishKeepsPromise(Apply(n, t, opt), pick, opt);
    }
  }

  /** From every state that sound steps reach, if what the user gave fits, under every schedule of write
      events, arrivals and callbacks, in whatever portions the bytes go: the pending command completes.
      Everything is drained, both sides agree, and the transfer under way has arrived; only a working
      directory whose name exceeds the longest payload can keep every answer from being sent. */
  lemma CommandsCompleteOverNetwork(trace: seq<Net>, steps: seq<Step>, opt: Options, k: nat, pick: Net -> Step)
    requires Run(trace, steps, opt) && k < |trace| && Scheduler(pick)
    requires forall i :: 0 <= i < k ==> NetOk(trace[i]) && Sound(trace[i], steps[i])
    requires NetOk(trace[k]) && Protocol.Clear(Abs(trace[k]))
    ensures Good(trace[k])
    ensures var n := trace[k]; var z := Finish(n, pick, opt);
            && (Drained(z) || |z.s.path| > MAX_PAYLOAD)
            && (Drained(z) ==> Agreed(z))
            && (Drained(z) && Protocol.Decided(Abs(n)) ==>
                  z.s.stored == Protocol.SentAtEnd(Abs(n)) && z.c.fetched == n.s.offered)
  {
    hide NetOk, Queues.Inv, Sound, Drained, Scheduler, Finish, Apply, Enabled, Fitting, Protocol.Clear;
    RunKeepsInv(trace, steps, opt, k);
    AliveIff(trace, steps, opt, k);
    var n := trace[k];
    var z := Finish(n, pick, opt);
    if !Drained(z) && |z.s.path| <= MAX_PAYLOAD { SomethingToDo(z); }
    if Drained(z) {
      DrainedIsQuiet(z);
      Protocol.QuietMeansAgreement(Abs(z));
    }
    if Protocol.Decided(Abs(n)) { FinishKeepsPromise(n, pick, opt); }
  }
}
