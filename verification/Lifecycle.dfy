/** The life of connections over several loops: `TcpServer`, `TcpConnection` and the functor queues
    between the base loop and the I/O loops. */
module Lifecycle {
  import opened Polling
  import opened Output

  type Id = nat     // the number at the end of a connection's name
  type LoopId = nat // 0 is the base loop, 1.. are the I/O loops

  /** Functors that loops queue on each other. */
  datatype Task = Establish(c: Id) | Remove(c: Id) | Destroy(c: Id) | CloseRun(c: Id)

  /** A connection object: its loop, `state_`, whether its channel is added to the loop and whether it
      has any interest, and how often each stage of its life was entered. */
  datatype Conn = Conn(
    loop: LoopId, phase: Phase, added: bool, interest: bool,
    established: nat, closed: nat, erased: nat, destroyed: nat)

  /** `table` is `connections_`, `conns` all objects ever made, `queues[l]` and `active[l]` the pending
      functors and the channels still to be handled of loop l. `ok` is false once an assertion of the
      source has failed. */
  datatype World = World(
    ioLoops: nat, next: nat, nextId: Id, table: set<Id>, conns: map<Id, Conn>,
    queues: seq<seq<Task>>, active: seq<set<Id>>, ok: bool)

  ghost predicate Shape(w: World) {
    && |w.queues| == |w.active| == w.ioLoops + 1
    && (forall c <- w.conns :: w.conns[c].loop <= w.ioLoops)
  }

  function Start(ioLoops: nat): World {
    World(ioLoops, 0, 1, {}, map[], seq(ioLoops + 1, _ => []), seq(ioLoops + 1, _ => {}), true)
  }

  function Check(w: World, cond: bool): World {
    w.(ok := w.ok && cond)
  }

  function Put(w: World, c: Id, k: Conn): World {
    w.(conns := w.conns[c := k])
  }

  function Queue(w: World, l: LoopId, t: Task): World
    requires l < |w.queues|
  {
    w.(queues := w.queues[l := w.queues[l] + [t]])
  }

  // ---- The functions of the source ----

  function ConnectEstablished(w: World, c: Id): World
    requires c in w.conns
  {
    var k := w.conns[c];
    Put(Check(w, k.phase == Connecting), c,
      k.(phase := Connected, added := true, interest := true, established := k.established + 1))
  }

  function RemoveConnectionInLoop(w: World, c: Id): World
    requires Shape(w) && c in w.conns
  {
    var k := w.conns[c];
    var v := Put(Check(w, c in w.table), c, k.(erased := k.erased + 1)).(table := w.table - {c});
    Queue(v, k.loop, Destroy(c))
  }

  /** The close callback, called on the connection's loop: on the base loop the removal runs at once,
      otherwise it is queued there. */
  function RemoveConnection(w: World, c: Id): World
    requires Shape(w) && c in w.conns
  {
    if w.conns[c].loop == 0 then RemoveConnectionInLoop(w, c) else Queue(w, 0, Remove(c))
  }

  /** `handleClose` up to the close callback. */
  function Disconnect(w: World, c: Id): World
    requires c in w.conns
  {
    var k := w.conns[c];
    Put(Check(w, k.phase in {Connected, Disconnecting}), c,
      k.(phase := Disconnected, interest := false, closed := k.closed + 1))
  }

  function HandleClose(w: World, c: Id): World
    requires Shape(w) && c in w.conns
  {
    RemoveConnection(Disconnect(w, c), c)
  }

  function ForceCloseInLoop(w: World, c: Id): World
    requires Shape(w) && c in w.conns
  {
    if w.conns[c].phase in {Connected, Disconnecting} then HandleClose(w, c) else w
  }

  /** `remove` asserts that all events are disabled and, in the poller, that the channel is known. */
  function ConnectDestroyed(w: World, c: Id): World
    requires c in w.conns
  {
    var k := w.conns[c];
    var k' := if k.phase == Connected then k.(phase := Disconnected, added := true, interest := false) else k;
    Put(Check(w, !k'.interest && k'.added), c, k'.(added := false, destroyed := k'.destroyed + 1))
  }

  function Exec(w: World, t: Task): World
    requires Shape(w) && t.c in w.conns
  {
    match t
    case Establish(c) => ConnectEstablished(w, c)
    case Remove(c) => RemoveConnectionInLoop(w, c)
    case Destroy(c) => ConnectDestroyed(w, c)
    case CloseRun(c) => ForceCloseInLoop(w, c)
  }

  function GetNextLoop(w: World): LoopId {
    if w.ioLoops == 0 then 0 else w.next + 1
  }

  function NextAfter(w: World): nat {
    if w.ioLoops == 0 || w.next + 1 >= w.ioLoops then 0 else w.next + 1
  }

  function NewConnection(w: World): World
    requires Shape(w) && GetNextLoop(w) <= w.ioLoops
  {
    var l := GetNextLoop(w);
    var c := w.nextId;
    var v := Put(w, c, Conn(l, Connecting, false, false, 0, 0, 0, 0)).(
      next := NextAfter(w),
      nextId := c + 1,
      table := w.table + {c});
    if l == 0 then ConnectEstablished(v, c) else Queue(v, l, Establish(c))
  }

  /** What reading the socket brings: data, end of stream, or an error. */
  datatype ReadResult = Data | EndOfStream | ReadError

  /** `handleEventWithGuard`: the close callback first, then the read callback. */
  function HandleEvent(w: World, c: Id, revents: set<Bit>, read: ReadResult): World
    requires Shape(w) && c in w.conns
  {
    var v := if HUP in revents && IN !in revents then HandleClose(w, c) else w;
    if revents * {IN, PRI, RDHUP} != {} && read == EndOfStream then HandleClose(v, c) else v
  }

  function ForceClose(w: World, c: Id): World
    requires Shape(w) && c in w.conns
  {
    var k := w.conns[c];
    if k.phase in {Connected, Disconnecting} then
      Queue(Put(w, c, k.(phase := Disconnecting)), k.loop, CloseRun(c))
    else w
  }

  function Shutdown(w: World, c: Id): World
    requires c in w.conns
  {
    var k := w.conns[c];
    if k.phase == Connected then Put(w, c, k.(phase := Disconnecting)) else w
  }

  // ---- Interleavings ----

  /** A loop polls, handles its active channels one by one, then runs its functors; the base loop also
      accepts. Calls of `forceClose` and `shutdown` may come at any time. */
  datatype Step =
    | Accept | Poll(l: LoopId, ready: set<Id>) | Handle(l: LoopId, c: Id, revents: set<Bit>, read: ReadResult)
    | RunTask(l: LoopId) | ForceCloseCall(c: Id) | ShutdownCall(c: Id)

  ghost predicate Enabled(w: World, e: Step)
    requires Shape(w)
  {
    match e
    case Accept => GetNextLoop(w) <= w.ioLoops
    case Poll(l, ready) =>
      && l <= w.ioLoops && w.active[l] == {}
      && forall c <- ready :: c in w.conns && w.conns[c].loop == l && w.conns[c].interest
    case Handle(l, c, _, _) => l <= w.ioLoops && c in w.active[l] && c in w.conns
    case RunTask(l) => l <= w.ioLoops && w.active[l] == {} && w.queues[l] != [] && w.queues[l][0].c in w.conns
    case ForceCloseCall(c) => c in w.conns
    case ShutdownCall(c) => c in w.conns
  }

  function Apply(w: World, e: Step): World
    requires Shape(w) && Enabled(w, e)
  {
    match e
    case Accept => NewConnection(w)
    case Poll(l, ready) => w.(active := w.active[l := ready])
    case Handle(l, c, revents, read) => HandleEvent(w.(active := w.active[l := w.active[l] - {c}]), c, revents, read)
    case RunTask(l) => Exec(w.(queues := w.queues[l := w.queues[l][1..]]), w.queues[l][0])
    case ForceCloseCall(c) => ForceClose(w, c)
    case ShutdownCall(c) => Shutdown(w, c)
  }

  /** Not both callbacks close: a hang-up without input carries no other bit that makes the channel
      read, or the read does not find the end of the stream. */
  predicate Tame(revents: set<Bit>, read: ReadResult) {
    HUP in revents && IN !in revents && (PRI in revents || RDHUP in revents) ==> read != EndOfStream
  }

  // ---- The invariant ----

  function Times(w: World, l: LoopId, t: Task): nat {
    if l < |w.queues| then multiset(w.queues[l])[t] else 0
  }

  datatype Stage = Waiting | Up | Down | Erased | Gone

  /** The stage that the counters say a connection has reached. */
  function StageOf(k: Conn): Stage {
    if k.destroyed > 0 then Gone
    else if k.erased > 0 then Erased
    else if k.closed > 0 then Down
    else if k.established > 0 then Up
    else Waiting
  }

  function B(b: bool): nat {
    if b then 1 else 0
  }

  /** Every stage was entered at most once and in order; flags, table and queues fit the stage: the
      functor that leads on is queued exactly once, on the right loop, and no other one is. A forced
      close is queued only for a connection that has been established. */
  ghost predicate Fits(w: World, c: Id)
    requires c in w.conns
  {
    var k := w.conns[c];
    var g := StageOf(k);
    && k.established == B(g != Waiting) && k.closed == B(g in {Down, Erased, Gone})
    && k.erased == B(g in {Erased, Gone}) && k.destroyed == B(g == Gone)
    && (match g
        case Waiting => k.phase == Connecting
        case Up => k.phase in {Connected, Disconnecting}
        case _ => k.phase == Disconnected)
    && k.added == (g in {Up, Down, Erased}) && k.interest == (g == Up)
    && (c in w.table <==> g in {Waiting, Up, Down})
    && Times(w, k.loop, Establish(c)) == B(g == Waiting)
    && Times(w, 0, Remove(c)) == B(g == Down)
    && Times(w, k.loop, Destroy(c)) == B(g == Erased)
    && (Times(w, k.loop, CloseRun(c)) > 0 ==> g != Waiting)
  }

  /** Functors are on the loop they belong to, and name existing connections. */
  ghost predicate Belongs(w: World, l: LoopId, t: Task) {
    t.c in w.conns && (if t.Remove? then l == 0 else w.conns[t.c].loop == l)
  }

  ghost predicate Placed(w: World)
    requires Shape(w)
  {
    forall l, i :: 0 <= l <= w.ioLoops && 0 <= i < |w.queues[l]| ==> Belongs(w, l, w.queues[l][i])
  }

  /** Channels still to be handled are on their own loop, and their connections are up. */
  ghost predicate ActiveUp(w: World)
    requires Shape(w)
  {
    forall l, c :: 0 <= l <= w.ioLoops && c in w.active[l] ==>
      c in w.conns && w.conns[c].loop == l && w.conns[c].interest
  }

  /** The loop that the connection numbered `c` gets: the I/O loops take turns. */
  function Turn(c: Id, n: nat): LoopId
    ensures n > 0 ==> 1 <= Turn(c, n) <= n
  {
    if n == 0 then 0 else if c <= 1 then 1 else if Turn(c - 1, n) >= n then 1 else Turn(c - 1, n) + 1
  }

  /** Connections are numbered from 1 without gaps, and dealt out to the I/O loops in turn. */
  ghost predicate Numbered(w: World) {
    && w.nextId >= 1 && w.table <= w.conns.Keys
    && (if w.ioLoops == 0 then w.next == 0 else w.next + 1 == Turn(w.nextId, w.ioLoops))
    && (forall c: Id :: c in w.conns <==> 1 <= c < w.nextId)
    && forall c <- w.conns :: w.conns[c].loop == Turn(c, w.ioLoops)
  }

  ghost predicate Inv(w: World) {
    && Shape(w) && w.ok && Placed(w) && ActiveUp(w) && Numbered(w)
    && forall c <- w.conns :: Fits(w, c)
  }

  // ---- Counting functors ----

  lemma QueueTimes(w: World, l: LoopId, t: Task)
    requires l < |w.queues|
    ensures forall k: LoopId, x: Task :: Times(Queue(w, l, t), k, x) == Times(w, k, x) + B(k == l && x == t)
  {
    assert multiset(w.queues[l] + [t]) == multiset(w.queues[l]) + multiset{t};
  }

  function Pop(w: World, l: LoopId): World
    requires l < |w.queues| && w.queues[l] != []
  {
    w.(queues := w.queues[l := w.queues[l][1..]])
  }

  lemma PopTimes(w: World, l: LoopId)
    requires l < |w.queues| && w.queues[l] != []
    ensures forall k: LoopId, x: Task :: Times(w, k, x) == Times(Pop(w, l), k, x) + B(k == l && x == w.queues[l][0])
  {
    var q := w.queues[l];
    assert q == [q[0]] + q[1..];
    assert multiset(q) == multiset{q[0]} + multiset(q[1..]);
  }

  lemma PopPlaced(w: World, l: LoopId)
    requires Shape(w) && Placed(w) && l <= w.ioLoops && w.queues[l] != []
    ensures Shape(Pop(w, l)) && Placed(Pop(w, l)) && Belongs(w, l, w.queues[l][0])
  {
    forall k, i | 0 <= k <= w.ioLoops && 0 <= i < |Pop(w, l).queues[k]|
      ensures Belongs(Pop(w, l), k, Pop(w, l).queues[k][i])
    {
      if k == l { assert Belongs(w, l, w.queues[l][i + 1]); } else { assert Belongs(w, k, w.queues[k][i]); }
    }
  }

  /** Changing one connection, but not its loop, and queueing at most one functor for it. */
  lemma StillPlaced(w: World, v: World, l: LoopId, t: Task)
    requires Shape(w) && Placed(w) && v.ioLoops == w.ioLoops && Shape(v)
    requires forall c <- w.conns :: c in v.conns && v.conns[c].loop == w.conns[c].loop
    requires v.queues == w.queues
             || (l <= w.ioLoops && v.queues == w.queues[l := w.queues[l] + [t]] && Belongs(v, l, t))
    ensures Placed(v)
  {
    forall k, i | 0 <= k <= v.ioLoops && 0 <= i < |v.queues[k]| ensures Belongs(v, k, v.queues[k][i]) {
      if i < |w.queues[k]| { assert Belongs(w, k, w.queues[k][i]); assert v.queues[k][i] == w.queues[k][i]; }
    }
  }

  /** A connection keeps fitting when neither it nor its functors change. */
  lemma StillFits(w: World, v: World, d: Id)
    requires d in w.conns && d in v.conns && v.conns[d] == w.conns[d] && Fits(w, d)
    requires d in v.table <==> d in w.table
    requires forall k: LoopId, x: Task :: x.c == d ==> Times(v, k, x) == Times(w, k, x)
    ensures Fits(v, d)
  {
  }

  lemma InvStart(ioLoops: nat)
    ensures Inv(Start(ioLoops))
  {
  }

  // ---- Every step keeps the invariant ----

  ghost predicate Idle(w: World, c: Id)
    requires Shape(w)
  {
    forall l :: 0 <= l <= w.ioLoops ==> c !in w.active[l]
  }

  /** Only functors of `c` were queued or taken away. */
  ghost predicate OthersQueued(w: World, v: World, c: Id) {
    forall l: LoopId, t: Task :: t.c != c ==> Times(v, l, t) == Times(w, l, t)
  }

  lemma OthersFit(w: World, v: World, c: Id)
    requires OthersQueued(w, v, c)
    requires forall d <- w.conns :: Fits(w, d)
    requires forall d <- w.conns :: d != c ==>
               d in v.conns && v.conns[d] == w.conns[d] && (d in v.table <==> d in w.table)
    ensures forall d <- w.conns :: d != c ==> Fits(v, d)
  {
    forall d <- w.conns | d != c ensures Fits(v, d) { StillFits(w, v, d); }
  }

  /** What one step does to one connection and its functors keeps the invariant as soon as that
      connection fits again. */
  lemma Changed(w: World, v: World, c: Id)
    requires Inv(w) && c in w.conns && Shape(v) && Placed(v) && v.ok
    requires v.ioLoops == w.ioLoops && v.next == w.next && v.nextId == w.nextId && v.active == w.active
    requires v.conns.Keys == w.conns.Keys && v.conns[c].loop == w.conns[c].loop
    requires forall d <- w.conns :: d != c ==> v.conns[d] == w.conns[d]
    requires v.table == w.table || v.table == w.table - {c}
    requires OthersQueued(w, v, c)
    requires Fits(v, c)
    requires v.conns[c].interest || Idle(w, c)
    ensures Inv(v)
  {
    hide Fits, Placed, OthersQueued;
    OthersFit(w, v, c);
  }

  lemma NoTask(w: World, l: LoopId, t: Task)
    requires Shape(w) && Placed(w) && t.c !in w.conns
    ensures Times(w, l, t) == 0
  {
    assert l <= w.ioLoops ==> forall i :: 0 <= i < |w.queues[l]| ==> Belongs(w, l, w.queues[l][i]);
  }

  lemma NewTurn(w: World)
    requires Numbered(w)
    ensures GetNextLoop(w) == Turn(w.nextId, w.ioLoops) && GetNextLoop(w) <= w.ioLoops
    ensures w.ioLoops > 0 ==> NextAfter(w) + 1 == Turn(w.nextId + 1, w.ioLoops)
  {
  }

  lemma AcceptNumbers(w: World)
    requires Inv(w)
    ensures GetNextLoop(w) <= w.ioLoops && Numbered(NewConnection(w)) && w.nextId !in w.conns
  {
    hide Turn, Fits, Placed, ActiveUp;
    NewTurn(w);
  }

  lemma AcceptPlaced(w: World)
    requires Inv(w) && GetNextLoop(w) <= w.ioLoops
    ensures Shape(NewConnection(w)) && Placed(NewConnection(w))
  {
    hide Fits, ActiveUp, Turn;
    StillPlaced(w, NewConnection(w), GetNextLoop(w), Establish(w.nextId));
  }

  lemma AcceptQueues(w: World)
    requires Inv(w) && GetNextLoop(w) <= w.ioLoops
    ensures var l, t, v := GetNextLoop(w), Establish(w.nextId), NewConnection(w);
            forall k: LoopId, x: Task :: Times(v, k, x) == Times(w, k, x) + B(l > 0 && k == l && x == t)
  {
    hide Turn, ActiveUp, Numbered, Placed, Fits;
    var l, t, v := GetNextLoop(w), Establish(w.nextId), NewConnection(w);
    QueueTimes(w, l, t);
    assert v.queues == if l == 0 then w.queues else Queue(w, l, t).queues;
  }

  lemma AcceptFits(w: World)
    requires Inv(w) && GetNextLoop(w) <= w.ioLoops && w.nextId !in w.conns
    ensures OthersQueued(w, NewConnection(w), w.nextId) && Fits(NewConnection(w), w.nextId)
  {
    hide Turn, ActiveUp, Numbered, Times;
    var l, c, v := GetNextLoop(w), w.nextId, NewConnection(w);
    AcceptQueues(w);
    NoTask(w, l, Establish(c));
    NoTask(w, 0, Remove(c));
    NoTask(w, l, Destroy(c));
    NoTask(w, l, CloseRun(c));
  }

  lemma AcceptPreserves(w: World)
    requires Inv(w) && Enabled(w, Accept)
    ensures Inv(NewConnection(w))
  {
    hide Numbered, Placed, Fits, Turn, OthersQueued;
    AcceptNumbers(w);
    AcceptPlaced(w);
    AcceptFits(w);
    OthersFit(w, NewConnection(w), w.nextId);
  }

  lemma PollPreserves(w: World, l: LoopId, ready: set<Id>)
    requires Inv(w) && Enabled(w, Poll(l, ready))
    ensures Inv(Apply(w, Poll(l, ready)))
  {
    hide Numbered, Fits, Placed;
    SameQueues(w, Apply(w, Poll(l, ready)));
  }

  /** The queues of `v` are those of `w` with one functor of `c` added. */
  lemma Added(w: World, v: World, l: LoopId, t: Task)
    requires Shape(w) && Shape(v) && Placed(w) && v.ioLoops == w.ioLoops && l <= w.ioLoops
    requires v.queues == w.queues[l := w.queues[l] + [t]] && Belongs(v, l, t)
    requires forall d <- w.conns :: d in v.conns && v.conns[d].loop == w.conns[d].loop
    ensures Placed(v) && OthersQueued(w, v, t.c)
    ensures forall k: LoopId, x: Task :: Times(v, k, x) == Times(w, k, x) + B(k == l && x == t)
  {
    QueueTimes(w, l, t);
    assert v.queues == Queue(w, l, t).queues;
    StillPlaced(w, v, l, t);
  }

  /** The queues of `v` are those of `w`. */
  lemma Kept(w: World, v: World)
    requires Shape(w) && Shape(v) && Placed(w) && v.ioLoops == w.ioLoops && v.queues == w.queues
    requires forall d <- w.conns :: d in v.conns && v.conns[d].loop == w.conns[d].loop
    ensures Placed(v) && forall k: LoopId, x: Task :: Times(v, k, x) == Times(w, k, x)
  {
    StillPlaced(w, v, 0, CloseRun(0));
  }

  /** Only `active` differs. */
  lemma SameQueues(w: World, v: World)
    requires Inv(w) && v == w.(active := v.active) && |v.active| == |w.active|
    ensures Shape(v) && v.ok && Placed(v) && Numbered(v) && forall c <- v.conns :: Fits(v, c)
  {
    hide Turn, Times, Fits, Placed;
    Kept(w, v);
    forall d <- v.conns ensures Fits(v, d) { StillFits(w, v, d); }
  }

  /** The queues of `v` are those of `w` without the functor of `c` at the head of queue `l`. */
  lemma Taken(w: World, l: LoopId)
    requires Shape(w) && Placed(w) && l <= w.ioLoops && w.queues[l] != []
    ensures Shape(Pop(w, l)) && Placed(Pop(w, l)) && Belongs(w, l, w.queues[l][0])
    ensures OthersQueued(w, Pop(w, l), w.queues[l][0].c)
    ensures forall k: LoopId, x: Task :: Times(w, k, x) == Times(Pop(w, l), k, x) + B(k == l && x == w.queues[l][0])
  {
    hide Times;
    PopPlaced(w, l);
    PopTimes(w, l);
  }

  lemma CloseFits(w: World, c: Id)
    requires Inv(w) && c in w.conns && StageOf(w.conns[c]) == Up
    ensures var v := HandleClose(w, c);
            v.ok && Shape(v) && Placed(v) && OthersQueued(w, v, c) && Fits(v, c)
  {
    if w.conns[c].loop == 0 { CloseFitsBase(w, c); } else { CloseFitsOther(w, c); }
  }

  lemma CloseFitsBase(w: World, c: Id)
    requires Inv(w) && c in w.conns && StageOf(w.conns[c]) == Up && w.conns[c].loop == 0
    ensures var v := HandleClose(w, c);
            v.ok && Shape(v) && Placed(v) && OthersQueued(w, v, c) && Fits(v, c)
  {
    hide Numbered, Times, Placed, ActiveUp, OthersQueued, Turn;
    assert Fits(w, c);
    Added(w, HandleClose(w, c), 0, Destroy(c));
  }

  lemma CloseFitsOther(w: World, c: Id)
    requires Inv(w) && c in w.conns && StageOf(w.conns[c]) == Up && w.conns[c].loop != 0
    ensures var v := HandleClose(w, c);
            v.ok && Shape(v) && Placed(v) && OthersQueued(w, v, c) && Fits(v, c)
  {
    hide Numbered, Times, Placed, ActiveUp, OthersQueued, Turn;
    assert Fits(w, c);
    Added(w, HandleClose(w, c), 0, Remove(c));
  }

  /** A connection that is up and whose channel is not waiting to be handled. */
  ghost predicate MayClose(w: World, c: Id) {
    Inv(w) && c in w.conns && StageOf(w.conns[c]) == Up && Idle(w, c)
  }

  lemma ClosePreserves(w: World, c: Id)
    requires MayClose(w, c)
    ensures Inv(HandleClose(w, c))
  {
    hide Numbered, Times, Placed, Turn, Fits, OthersQueued;
    CloseFits(w, c);
    Changed(w, HandleClose(w, c), c);
  }

  /** A connection that is registered is up. */
  lemma InterestMeansUp(w: World, c: Id)
    requires Inv(w) && c in w.conns && w.conns[c].interest
    ensures StageOf(w.conns[c]) == Up
  {
    assert Fits(w, c);
  }

  lemma HandlePreserves(w: World, l: LoopId, c: Id, revents: set<Bit>, read: ReadResult)
    requires Inv(w) && Enabled(w, Handle(l, c, revents, read)) && Tame(revents, read)
    ensures Inv(Apply(w, Handle(l, c, revents, read)))
  {
    hide Numbered, Placed, Fits, HandleClose;
    var u := w.(active := w.active[l := w.active[l] - {c}]);
    SameQueues(w, u);
    assert Inv(u);
    InterestMeansUp(w, c);
    assert Idle(u, c);
    ReadBits(revents);
    if HUP in revents && IN !in revents {
      ClosePreserves(u, c);
    } else if revents * {IN, PRI, RDHUP} != {} && read == EndOfStream {
      ClosePreserves(u, c);
    }
  }

  /** Which events take a connection down: a hang-up without input, and the end of the stream found by an
      event that makes the channel read. No other event changes it. */
  lemma EventClosesIff(w: World, l: LoopId, c: Id, revents: set<Bit>, read: ReadResult)
    requires Inv(w) && Enabled(w, Handle(l, c, revents, read)) && Tame(revents, read)
    ensures var v := Apply(w, Handle(l, c, revents, read));
            && v.conns.Keys == w.conns.Keys
            && if ClosingEvent(revents, read) then v.conns[c].closed == 1 && v.conns[c].phase == Disconnected
               else v.conns == w.conns && v.table == w.table && v.queues == w.queues
  {
    hide Turn, Placed, Numbered;
    var u := w.(active := w.active[l := w.active[l] - {c}]);
    InterestMeansUp(w, c);
    assert Fits(w, c);
    ReadBits(revents);
    ClosedOnce(u, c);
  }

  ghost predicate ClosingEvent(revents: set<Bit>, read: ReadResult) {
    || (HUP in revents && IN !in revents)
    || (read == EndOfStream && (IN in revents || PRI in revents || RDHUP in revents))
  }

  lemma ClosedOnce(w: World, c: Id)
    requires Shape(w) && c in w.conns
    ensures var v := HandleClose(w, c);
            && v.conns.Keys == w.conns.Keys
            && v.conns[c].closed == w.conns[c].closed + 1 && v.conns[c].phase == Disconnected
  {
  }

  /** A poll leaves the reported channels to be handled, and changes nothing else. */
  lemma PollReports(w: World, l: LoopId, ready: set<Id>)
    requires Shape(w) && Enabled(w, Poll(l, ready))
    ensures var v := Apply(w, Poll(l, ready));
            v.active[l] == ready && v.conns == w.conns && v.table == w.table && v.queues == w.queues
  {
  }

  /** Accepting adds one connection, under a new number, to the table, on the next loop in turn; it is
      established on the spot or has its establishment queued there. */
  lemma AcceptAdds(w: World)
    requires Inv(w)
    ensures Enabled(w, Accept)
    ensures var v, c := Apply(w, Accept), w.nextId;
            && c !in w.conns && v.conns.Keys == w.conns.Keys + {c} && v.table == w.table + {c}
            && v.conns[c].loop == Turn(c, w.ioLoops)
            && (forall d <- w.conns :: v.conns[d] == w.conns[d])
            && if w.ioLoops == 0 then v.conns[c].established == 1
               else Times(v, Turn(c, w.ioLoops), Establish(c)) == 1
  {
    hide Turn, Placed, ActiveUp;
    AcceptNumbers(w);
    NewTurn(w);
    AcceptQueues(w);
    NoTask(w, GetNextLoop(w), Establish(w.nextId));
  }

  /** The first connection goes to the first I/O loop. */
  lemma FirstTurn(n: nat)
    ensures Turn(1, n) == if n == 0 then 0 else 1
  {
  }

  /** A forced close of a connection that is up leaves its functor on its loop. */
  lemma ForceCloseQueues(w: World, c: Id)
    requires Inv(w) && c in w.conns
    ensures var v := Apply(w, ForceCloseCall(c));
            var up := w.conns[c].phase in {Connected, Disconnecting};
            && v.conns.Keys == w.conns.Keys && v.conns[c].loop == w.conns[c].loop
            && Times(v, w.conns[c].loop, CloseRun(c)) == Times(w, w.conns[c].loop, CloseRun(c)) + B(up)
  {
    hide Turn, Placed, ActiveUp, Numbered;
    QueueTimes(w, w.conns[c].loop, CloseRun(c));
    if w.conns[c].phase in {Connected, Disconnecting} {
      assert Apply(w, ForceCloseCall(c)).queues == Queue(w, w.conns[c].loop, CloseRun(c)).queues;
    }
  }

  lemma ForceClosePreserves(w: World, c: Id)
    requires Inv(w) && c in w.conns
    ensures Inv(ForceClose(w, c))
  {
    hide Numbered, Times, Placed, Turn, Fits, OthersQueued;
    var v := ForceClose(w, c);
    if w.conns[c].phase in {Connected, Disconnecting} {
      ForceCloseFits(w, c);
      Changed(w, v, c);
    }
  }

  lemma ForceCloseFits(w: World, c: Id)
    requires Inv(w) && c in w.conns && w.conns[c].phase in {Connected, Disconnecting}
    ensures var v := ForceClose(w, c);
            Shape(v) && Placed(v) && OthersQueued(w, v, c) && Fits(v, c) && v.conns[c].interest
  {
    hide Numbered, Times, Placed, Turn, ActiveUp, OthersQueued;
    assert Fits(w, c);
    Added(w, ForceClose(w, c), w.conns[c].loop, CloseRun(c));
  }

  lemma ShutdownPreserves(w: World, c: Id)
    requires Inv(w) && c in w.conns
    ensures Inv(Shutdown(w, c))
  {
    hide Numbered, Times, Placed, Turn;
    var v := Shutdown(w, c);
    if w.conns[c].phase == Connected {
      assert Fits(w, c);
      Kept(w, v);
      assert Fits(v, c);
      Changed(w, v, c);
    }
  }

  ghost predicate NextIs(w: World, l: LoopId, t: Task) {
    Inv(w) && l < |w.queues| && w.queues[l] != [] && w.queues[l][0] == t && t.c in w.conns && w.active[l] == {}
  }

  /** The functor called is the one that its connection was waiting for: its assertions hold. */
  lemma EstablishRuns(w: World, l: LoopId, c: Id)
    requires NextIs(w, l, Establish(c))
    ensures Inv(ConnectEstablished(Pop(w, l), c))
  {
    hide Numbered, Times, Placed, Turn;
    Taken(w, l);
    var u := Pop(w, l);
    var v := ConnectEstablished(u, c);
    Kept(u, v);
    assert Fits(w, c) && Times(w, l, Establish(c)) > 0;
    assert Fits(v, c);
    Changed(w, v, c);
  }

  lemma DestroyRuns(w: World, l: LoopId, c: Id)
    requires NextIs(w, l, Destroy(c))
    ensures Inv(ConnectDestroyed(Pop(w, l), c))
  {
    hide Numbered, Times, Placed, Turn;
    Taken(w, l);
    var u := Pop(w, l);
    var v := ConnectDestroyed(u, c);
    Kept(u, v);
    assert Fits(w, c) && Times(w, l, Destroy(c)) > 0;
    assert Fits(v, c);
    NotUpIdle(w, c);
    Changed(w, v, c);
  }

  lemma RemoveRuns(w: World, l: LoopId, c: Id)
    requires NextIs(w, l, Remove(c))
    ensures Shape(Pop(w, l)) && Inv(RemoveConnectionInLoop(Pop(w, l), c))
  {
    hide Numbered, Times, Placed, Turn;
    Taken(w, l);
    var u := Pop(w, l);
    var v := RemoveConnectionInLoop(u, c);
    Added(u, v, w.conns[c].loop, Destroy(c));
    assert Fits(w, c) && Times(w, l, Remove(c)) > 0;
    assert Fits(v, c);
    NotUpIdle(w, c);
    Changed(w, v, c);
  }

  lemma NotUpIdle(w: World, c: Id)
    requires Inv(w) && c in w.conns && !w.conns[c].interest
    ensures Idle(w, c)
  {
  }

  lemma CloseRuns(w: World, l: LoopId, c: Id)
    requires NextIs(w, l, CloseRun(c))
    ensures Shape(Pop(w, l)) && Inv(ForceCloseInLoop(Pop(w, l), c))
  {
    hide Numbered, Times, Placed, Turn, HandleClose;
    Taken(w, l);
    var u := Pop(w, l);
    assert Fits(w, c) && Belongs(w, l, CloseRun(c));
    assert Fits(u, c);
    assert Idle(w, c);
    Changed(w, u, c);
    if u.conns[c].phase in {Connected, Disconnecting} {
      ClosePreserves(u, c);
    }
  }

  ghost predicate Assumed(e: Step) {
    e.Handle? ==> Tame(e.revents, e.read)
  }

  lemma StepPreserves(w: World, e: Step)
    requires Inv(w) && Enabled(w, e) && Assumed(e)
    ensures Inv(Apply(w, e))
  {
    hide Numbered, Placed, Fits, ActiveUp;
    hide HandleClose, ConnectEstablished, ConnectDestroyed, RemoveConnectionInLoop, NewConnection;
    match e
    case Accept => AcceptPreserves(w);
    case Poll(l, ready) => PollPreserves(w, l, ready);
    case Handle(l, c, revents, read) => HandlePreserves(w, l, c, revents, read);
    case ForceCloseCall(c) => ForceClosePreserves(w, c);
    case ShutdownCall(c) => ShutdownPreserves(w, c);
    case RunTask(l) =>
      match w.queues[l][0]
      case Establish(c) => EstablishRuns(w, l, c);
      case Remove(c) => RemoveRuns(w, l, c);
      case Destroy(c) => DestroyRuns(w, l, c);
      case CloseRun(c) => CloseRuns(w, l, c);
  }

  // ---- Whole runs ----

  ghost predicate Run(ioLoops: nat, trace: seq<World>, steps: seq<Step>) {
    && |trace| == |steps| + 1 && trace[0] == Start(ioLoops)
    && forall i :: 0 <= i < |steps| ==>
         Shape(trace[i]) && Enabled(trace[i], steps[i]) && trace[i + 1] == Apply(trace[i], steps[i])
  }

  lemma {:induction false} RunKeepsInv(ioLoops: nat, trace: seq<World>, steps: seq<Step>, k: nat)
    requires Run(ioLoops, trace, steps) && k < |trace|
    requires forall i :: 0 <= i < k ==> Assumed(steps[i])
    ensures Inv(trace[k])
  {
    hide Inv, Apply;
    if k == 0 {
      InvStart(ioLoops);
    } else {
      RunKeepsInv(ioLoops, trace, steps, k - 1);
      StepPreserves(trace[k - 1], steps[k - 1]);
    }
  }

  lemma OkIsOver(w: World, e: Step)
    requires Shape(w) && Enabled(w, e) && !w.ok
    ensures !Apply(w, e).ok
  {
    if e.Handle? {
      CloseChecks(w.(active := w.active[e.l := w.active[e.l] - {e.c}]), e.c);
    }
  }

  lemma StepOkIff(w: World, e: Step)
    requires Inv(w) && Enabled(w, e)
    ensures Apply(w, e).ok <==> Assumed(e)
  {
    hide HandleClose, Fits, Placed, Numbered, ActiveUp;
    if e.Handle? { HandleFailsIff(w, e.l, e.c, e.revents, e.read); }
    if Assumed(e) {
      StepPreserves(w, e);
    }
  }

  lemma InvIsOk(w: World)
    requires Inv(w)
    ensures w.ok
  {
  }

  /** The assertions of the source hold in an interleaving exactly if it handles no hang-up without input
      that also makes the channel read while the read finds the end of the stream. */
  lemma {:induction false} AssertionsHoldIff(ioLoops: nat, trace: seq<World>, steps: seq<Step>, k: nat)
    requires Run(ioLoops, trace, steps) && k < |trace|
    ensures trace[k].ok <==> forall i :: 0 <= i < k ==> Assumed(steps[i])
  {
    hide Inv, Apply, Enabled, Shape, Assumed;
    if k > 0 {
      AssertionsHoldIff(ioLoops, trace, steps, k - 1);
      if trace[k - 1].ok {
        RunKeepsInv(ioLoops, trace, steps, k - 1);
        StepOkIff(trace[k - 1], steps[k - 1]);
      } else {
        OkIsOver(trace[k - 1], steps[k - 1]);
      }
    } else {
      InvStart(ioLoops);
      InvIsOk(trace[0]);
    }
  }

  /** Such interleavings exist: one connection on the base loop, and a hang-up that is reported together with
      the end of the stream. */
  lemma FailureReached()
    ensures exists trace: seq<World>, steps: seq<Step> :: Run(0, trace, steps) && |trace| == 4 && !trace[3].ok
  {
    hide Turn;
    var steps := [Accept, Poll(0, {1}), Handle(0, 1, {HUP, RDHUP}, EndOfStream)];
    var w1 := Apply(Start(0), steps[0]);
    var w2 := Apply(w1, steps[1]);
    ReadBits({HUP, RDHUP});
    var w3 := Apply(w2, steps[2]);
    var trace := [Start(0), w1, w2, w3];
    assert Run(0, trace, steps);
    assert !w3.ok;
  }

  /** In every interleaving, on any number of loops, no assertion fails: every connection is
      established, closed, erased from the table and destroyed at most once each and in this order,
      and the table never loses or overwrites an entry of a connection that is not closed. */
  lemma OnceInOrder(ioLoops: nat, trace: seq<World>, steps: seq<Step>, k: nat, c: Id)
    requires Run(ioLoops, trace, steps) && k < |trace|
    requires forall i :: 0 <= i < k ==> Assumed(steps[i])
    requires c in trace[k].conns
    ensures trace[k].ok
    ensures var d := trace[k].conns[c];
            && 1 >= d.established >= d.closed >= d.erased >= d.destroyed
            && (d.erased == 0 <==> c in trace[k].table)
            && (d.phase in {Connected, Disconnecting} <==> d.established == 1 && d.closed == 0)
            && (d.added <==> d.established == 1 && d.destroyed == 0)
  {
    RunKeepsInv(ioLoops, trace, steps, k);
    assert Fits(trace[k], c);
  }

  /** Connection `d` is still the same object on the same loop, no stage further back. */
  ghost predicate Later(w: World, v: World, d: Id)
    requires d in w.conns
  {
    && d in v.conns && v.conns[d].loop == w.conns[d].loop
    && v.conns[d].established >= w.conns[d].established && v.conns[d].closed >= w.conns[d].closed
    && v.conns[d].erased >= w.conns[d].erased && v.conns[d].destroyed >= w.conns[d].destroyed
  }

  lemma CloseLater(w: World, c: Id, d: Id)
    requires Shape(w) && c in w.conns && d in w.conns
    ensures Later(w, HandleClose(w, c), d) && Shape(HandleClose(w, c)) && c in HandleClose(w, c).conns
  {
  }

  lemma ExecLater(w: World, t: Task, d: Id)
    requires Shape(w) && t.c in w.conns && d in w.conns
    ensures Later(w, Exec(w, t), d)
  {
    hide HandleClose;
    CloseLater(w, t.c, d);
  }

  lemma StepLater(w: World, e: Step, d: Id)
    requires Inv(w) && Enabled(w, e) && d in w.conns
    ensures Later(w, Apply(w, e), d)
  {
    hide Turn, Fits, Placed, ActiveUp, HandleClose, Exec;
    match e
    case Handle(l, c, revents, read) =>
      var u := w.(active := w.active[l := w.active[l] - {c}]);
      CloseLater(u, c, d);
      CloseLater(HandleClose(u, c), c, d);
    case RunTask(l) => ExecLater(Pop(w, l), w.queues[l][0], d);
    case _ =>
  }

  /** Stages are never left backwards, and a connection never changes its loop. */
  lemma {:induction false} NeverBack(ioLoops: nat, trace: seq<World>, steps: seq<Step>, i: nat, j: nat, c: Id)
    requires Run(ioLoops, trace, steps) && i <= j < |trace|
    requires forall k :: 0 <= k < j ==> Assumed(steps[k])
    requires c in trace[i].conns
    ensures Later(trace[i], trace[j], c)
    decreases j
  {
    hide Inv, Apply;
    if i < j {
      NeverBack(ioLoops, trace, steps, i, j - 1, c);
      RunKeepsInv(ioLoops, trace, steps, j - 1);
      StepLater(trace[j - 1], steps[j - 1], c);
    }
  }

  // ---- What moves a connection on ----

  ghost predicate Runs(w: World, e: Step, t: Task)
    requires Shape(w) && Enabled(w, e)
  {
    e.RunTask? && w.queues[e.l][0] == t
  }

  /** The step takes the connection down: by an event, or by the functor of a forced close while it is up. */
  ghost predicate Closes(w: World, e: Step, c: Id)
    requires Shape(w) && Enabled(w, e) && c in w.conns
  {
    || (e.Handle? && e.c == c && ClosingEvent(e.revents, e.read))
    || (Runs(w, e, CloseRun(c)) && w.conns[c].phase in {Connected, Disconnecting})
  }

  ghost predicate Asks(e: Step, c: Id) {
    e == ForceCloseCall(c) || e == ShutdownCall(c)
  }

  /** Each stage is entered by its functor, the closing by what closes, and by nothing else; on the base loop
      the closing erases the entry as well. */
  ghost predicate MovesOn(w: World, e: Step, c: Id, k: Conn, n: Conn)
    requires Shape(w) && Enabled(w, e) && c in w.conns
  {
    && n.loop == k.loop
    && n.established == k.established + B(Runs(w, e, Establish(c)))
    && n.closed == k.closed + B(Closes(w, e, c))
    && n.erased == k.erased + B(Runs(w, e, Remove(c)) || (Closes(w, e, c) && k.loop == 0))
    && n.destroyed == k.destroyed + B(Runs(w, e, Destroy(c)))
    && (n.phase == Disconnecting <==>
          !Closes(w, e, c) && (k.phase == Disconnecting || (k.phase == Connected && Asks(e, c))))
  }

  lemma StepMoves(w: World, e: Step, c: Id)
    requires Inv(w) && Enabled(w, e) && Assumed(e) && c in w.conns
    ensures c in Apply(w, e).conns && MovesOn(w, e, c, w.conns[c], Apply(w, e).conns[c])
  {
    hide Turn, Placed, ActiveUp, Fits, Numbered, HandleClose, Exec, HandleEvent;
    match e
    case Accept => AcceptNumbers(w);
    case Handle(l, d, revents, read) => EventMoves(w, l, d, revents, read, c);
    case RunTask(l) => TaskMoves(w, l, c);
    case _ =>
  }

  lemma EventMoves(w: World, l: LoopId, d: Id, revents: set<Bit>, read: ReadResult, c: Id)
    requires Inv(w) && Enabled(w, Handle(l, d, revents, read)) && Tame(revents, read) && c in w.conns
    ensures var e := Handle(l, d, revents, read);
            c in Apply(w, e).conns && MovesOn(w, e, c, w.conns[c], Apply(w, e).conns[c])
  {
    hide Turn, Placed, Fits, Numbered;
    InterestMeansUp(w, d);
    UpMeans(w, d);
    ReadBits(revents);
  }

  lemma TaskMoves(w: World, l: LoopId, c: Id)
    requires Inv(w) && Enabled(w, RunTask(l)) && c in w.conns
    ensures c in Apply(w, RunTask(l)).conns && MovesOn(w, RunTask(l), c, w.conns[c], Apply(w, RunTask(l)).conns[c])
  {
    hide Turn, ActiveUp, Numbered, Placed, Fits;
    HeadFits(w, l);
  }

  /** A functor that is called finds its connection in the phase it was queued for. */
  lemma HeadFits(w: World, l: LoopId)
    requires Inv(w) && Enabled(w, RunTask(l))
    ensures var t := w.queues[l][0];
            && (t.Establish? ==> w.conns[t.c].phase == Connecting)
            && (t.Destroy? ==> w.conns[t.c].phase == Disconnected)
  {
    hide Turn, ActiveUp, Numbered;
    var t := w.queues[l][0];
    assert Belongs(w, l, t) && Fits(w, t.c);
    assert Times(w, l, t) > 0;
  }

  ghost predicate ClosedAt(w: World, e: Step, c: Id) {
    Shape(w) && Enabled(w, e) && c in w.conns && Closes(w, e, c)
  }

  ghost predicate AskedAt(w: World, e: Step, c: Id) {
    c in w.conns && w.conns[c].phase == Connected && Asks(e, c)
  }

  /** In every interleaving: a connection has been closed exactly if some event or forced close has closed it,
      and it is disconnecting exactly if, not closed yet, it was asked to shut down or to close while up. */
  lemma {:induction false} HistoryTells(ioLoops: nat, trace: seq<World>, steps: seq<Step>, k: nat, c: Id)
    requires Run(ioLoops, trace, steps) && k < |trace|
    requires forall i :: 0 <= i < k ==> Assumed(steps[i])
    requires c in trace[k].conns
    ensures var d := trace[k].conns[c];
            && (d.closed == 1 <==> exists i :: 0 <= i < k && ClosedAt(trace[i], steps[i], c))
            && (d.phase == Disconnecting <==>
                  d.closed == 0 && exists i :: 0 <= i < k && AskedAt(trace[i], steps[i], c))
  {
    hide Inv, Apply, Enabled, Closes;
    if k > 0 {
      var w, e := trace[k - 1], steps[k - 1];
      RunKeepsInv(ioLoops, trace, steps, k - 1);
      if c in w.conns {
        HistoryTells(ioLoops, trace, steps, k - 1, c);
        StepMoves(w, e, c);
        OpenWhileUp(w, c);
        RunKeepsInv(ioLoops, trace, steps, k);
        OpenWhileUp(trace[k], c);
      } else {
        NewOnly(w, e, c);
        forall i | 0 <= i < k ensures c !in trace[i].conns {
          if c in trace[i].conns { NeverBack(ioLoops, trace, steps, i, k - 1, c); }
        }
      }
    }
  }

  lemma OpenWhileUp(w: World, c: Id)
    requires Inv(w) && c in w.conns
    ensures w.conns[c].closed <= 1 && (w.conns[c].phase in {Connected, Disconnecting} ==> w.conns[c].closed == 0)
  {
    assert Fits(w, c);
  }

  /** A connection that was not there before has just been accepted. */
  lemma NewOnly(w: World, e: Step, c: Id)
    requires Inv(w) && Enabled(w, e) && c !in w.conns && c in Apply(w, e).conns
    ensures Apply(w, e).conns[c].closed == 0 && Apply(w, e).conns[c].phase != Disconnecting
  {
    hide Turn, Placed, Fits, Numbered, ActiveUp;
  }

  /** When no functor is queued, the table holds exactly the connections that are up, and all others
      have been destroyed and are out of the pollers. */
  lemma QuietTable(w: World)
    requires Inv(w) && forall l :: 0 <= l <= w.ioLoops ==> w.queues[l] == []
    ensures forall c <- w.conns ::
              if c in w.table then w.conns[c].phase in {Connected, Disconnecting} && w.conns[c].added
              else w.conns[c].destroyed == 1 && !w.conns[c].added
  {
    hide Turn, Placed, ActiveUp;
    forall c <- w.conns
      ensures if c in w.table then w.conns[c].phase in {Connected, Disconnecting} && w.conns[c].added
              else w.conns[c].destroyed == 1 && !w.conns[c].added
    {
      assert Fits(w, c);
    }
  }

  /** The assumption is exact: handling an event of a reachable state breaks an assertion if and only
      if the event is a hang-up without input that also makes the channel read, and the read finds
      the end of the stream. */
  lemma HandleFailsIff(w: World, l: LoopId, c: Id, revents: set<Bit>, read: ReadResult)
    requires Inv(w) && Enabled(w, Handle(l, c, revents, read))
    ensures !Apply(w, Handle(l, c, revents, read)).ok <==>
              HUP in revents && IN !in revents && (PRI in revents || RDHUP in revents) && read == EndOfStream
  {
    hide Turn, Placed, Fits, HandleClose;
    var u := w.(active := w.active[l := w.active[l] - {c}]);
    InterestMeansUp(w, c);
    UpMeans(w, c);
    CloseChecks(u, c);
    CloseLater(u, c, c);
    CloseChecks(HandleClose(u, c), c);
    ReadBits(revents);
  }

  lemma ReadBits(revents: set<Bit>)
    ensures revents * {IN, PRI, RDHUP} != {} <==> IN in revents || PRI in revents || RDHUP in revents
  {
    var s := revents * {IN, PRI, RDHUP};
    assert IN in revents ==> IN in s;
    assert PRI in revents ==> PRI in s;
    assert RDHUP in revents ==> RDHUP in s;
  }

  lemma UpMeans(w: World, c: Id)
    requires Inv(w) && c in w.conns && StageOf(w.conns[c]) == Up
    ensures w.conns[c].phase in {Connected, Disconnecting} && c in w.table
  {
    assert Fits(w, c);
  }

  lemma CloseChecks(w: World, c: Id)
    requires Shape(w) && c in w.conns
    ensures var v := HandleClose(w, c);
            && (v.ok <==> w.ok && w.conns[c].phase in {Connected, Disconnecting}
                          && (w.conns[c].loop == 0 ==> c in w.table))
            && c in v.conns && v.conns[c].phase == Disconnected
  {
  }

  /** Within `n` connections in a row no I/O loop is chosen twice. */
  lemma {:induction false} TurnsDiffer(c: Id, k: nat, n: nat)
    requires c >= 1 && k <= n && n > 0
    ensures Turn(c + k, n) == if Turn(c, n) + k <= n then Turn(c, n) + k else Turn(c, n) + k - n
    decreases k
  {
    if k > 0 { TurnsDiffer(c, k - 1, n); }
  }
}
