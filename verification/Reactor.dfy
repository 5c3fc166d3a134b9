/** The server's loops at work: the life of connections over functor queues that are real event loops,
    each with its batch, its pending functors, its event descriptor and threads that still owe a wakeup. */
module Reactor {
  import opened Seqs
  import L = Lifecycle
  import E = EventLoops

  type Loop = E.Loop<L.Task>

  /** `loops[l]` runs on thread `l`; its functors are those that queue `l` of the world holds. */
  datatype Reactor = Reactor(w: L.World, loops: seq<Loop>)

  function Start(ioLoops: nat): Reactor {
    Reactor(L.Start(ioLoops), seq(ioLoops + 1, _ => E.Begin([])))
  }

  /** `Polls` is a return of `poll`, `Does` something the world does on thread `who`, `Own` a step of the
      loop's own code, `Wakes` the second half of `queueInLoop` for another loop. */
  datatype Step =
    | Polls(l: L.LoopId, ready: set<L.Id>, wakeupActive: bool) | Does(e: L.Step, who: L.LoopId)
    | Own(l: L.LoopId, a: E.Act<L.Task>) | Wakes(who: L.LoopId, target: L.LoopId)

  /** The thread is not in the middle of `queueInLoop`. */
  ghost predicate Free(y: Reactor, l: L.LoopId) {
    l < |y.loops| && y.loops[l].place != E.MustWake && forall t :: 0 <= t < |y.loops| ==> l !in y.loops[t].owing
  }

  /** It is handling events or calling functors. */
  ghost predicate Working(y: Reactor, l: L.LoopId) {
    Free(y, l) && (y.loops[l].place.Handling? || y.loops[l].place == E.Calling)
  }

  ghost predicate Sane(y: Reactor) {
    L.Shape(y.w) && |y.loops| == |y.w.queues|
  }

  /** Connections are closed and shut down by calls on their own loop. */
  ghost predicate Enabled(y: Reactor, s: Step)
    requires Sane(y)
  {
    match s
    case Polls(l, ready, active) =>
      Free(y, l) && L.Enabled(y.w, L.Poll(l, ready)) && E.Enabled(y.loops[l], E.PollReturns(active))
    case Does(e, who) =>
      && Working(y, who) && L.Enabled(y.w, e)
      && (match e
          case Accept => who == 0 && y.loops[who].place.Handling?
          case Poll(_, _) => false
          case Handle(l, _, _, _) => who == l && y.loops[who].place.Handling?
          case RunTask(l) => who == l && y.loops[who].place == E.Calling && y.loops[who].batch != []
          case ForceCloseCall(c) => who == y.w.conns[c].loop
          case ShutdownCall(c) => who == y.w.conns[c].loop)
    case Own(l, a) =>
      && l < |y.loops| && E.Enabled(y.loops[l], a)
      && (a.CalleeWake? || (Free(y, l) && (a.ReadWakeup? || a.EndHandling? || a.Swap? || a.EndBatch? || a.Test?)))
      && (a.EndHandling? ==> y.w.active[l] == {})
    case Wakes(who, target) => target < |y.loops| && E.Enabled(y.loops[target], E.Wake(who))
  }

  /** How thread `who` hands a functor to loop `t`. */
  function Handing(x: Loop, t: L.LoopId, who: L.LoopId, f: L.Task): E.Act<L.Task> {
    if t != who then E.Push(who, f) else if x.place == E.Calling then E.CalleePush(f) else E.HandlerPush(f)
  }

  /** Loop `t` after what thread `who` did, when its functors have grown from `before` to `after`. */
  ghost function Handed(x: Loop, t: L.LoopId, who: L.LoopId, before: seq<L.Task>, after: seq<L.Task>): Loop
    requires if t == who then x.place.Handling? || x.place == E.Calling else who !in x.owing
  {
    if |after| <= |before| then x else E.Apply(x, Handing(x, t, who, after[|before|]))
  }

  ghost function HandAll(loops: seq<Loop>, who: L.LoopId, u: L.World, v: L.World): seq<Loop>
    requires |loops| == |u.queues| == |v.queues|
    requires who < |loops| && (loops[who].place.Handling? || loops[who].place == E.Calling)
    requires forall t :: 0 <= t < |loops| ==> who !in loops[t].owing
  {
    seq(|loops|, t requires 0 <= t < |loops| => Handed(loops[t], t, who, u.queues[t], v.queues[t]))
  }

  ghost function Apply(y: Reactor, s: Step): Reactor
    requires Sane(y) && Enabled(y, s)
    requires s.Does? ==> |L.Apply(y.w, s.e).queues| == |y.w.queues|
  {
    match s
    case Polls(l, ready, active) =>
      Reactor(L.Apply(y.w, L.Poll(l, ready)), y.loops[l := E.Apply(y.loops[l], E.PollReturns(active))])
    case Does(e, who) =>
      var v := L.Apply(y.w, e);
      if e.RunTask? then
        Reactor(v, HandAll(y.loops[who := E.Apply(y.loops[who], E.Call)], who, L.Pop(y.w, who), v))
      else Reactor(v, HandAll(y.loops, who, y.w, v))
    case Own(l, a) => y.(loops := y.loops[l := E.Apply(y.loops[l], a)])
    case Wakes(who, target) => y.(loops := y.loops[target := E.Apply(y.loops[target], E.Wake(who))])
  }

  ghost predicate Assumed(s: Step) {
    s.Does? ==> L.Assumed(s.e)
  }

  // ---- The invariant ----

  /** The functors of the loop are the queue of the world; its two invariants hold. */
  ghost predicate LoopOk(x: Loop, queue: seq<L.Task>, active: set<L.Id>) {
    && E.InOrder(x) && E.WakeInv(x) && !x.quit && x.place != E.Stopped
    && queue == x.batch + x.pending
    && (active != {} ==> x.place.Handling?)
  }

  ghost predicate Inv(y: Reactor) {
    && L.Inv(y.w) && Sane(y)
    && forall t :: 0 <= t < |y.loops| ==> LoopOk(y.loops[t], y.w.queues[t], y.w.active[t])
  }

  lemma InvStart(ioLoops: nat)
    ensures Inv(Start(ioLoops))
  {
    L.InvStart(ioLoops);
    Unit<L.Task>([]);
  }

  /** At most one functor more. */
  ghost predicate OneMore(before: seq<L.Task>, after: seq<L.Task>) {
    after == before || (|after| == |before| + 1 && after == before + [after[|before|]])
  }

  ghost predicate Grows(u: L.World, v: L.World) {
    && |v.queues| == |u.queues| && |v.active| == |u.active|
    && forall t :: 0 <= t < |u.queues| ==> OneMore(u.queues[t], v.queues[t])
  }

  lemma CloseGrows(w: L.World, c: L.Id)
    requires L.Shape(w) && c in w.conns
    ensures Grows(w, L.HandleClose(w, c)) && L.HandleClose(w, c).active == w.active
  {
  }

  lemma TaskGrows(w: L.World, t: L.Task)
    requires L.Shape(w) && t.c in w.conns
    ensures Grows(w, L.Exec(w, t)) && L.Exec(w, t).active == w.active
  {
    hide L.HandleClose;
    CloseGrows(w, t.c);
  }

  /** What the world does on one thread adds at most one functor to each queue. */
  lemma WorldGrows(w: L.World, e: L.Step)
    requires L.Inv(w) && L.Enabled(w, e) && L.Assumed(e) && !e.RunTask? && !e.Poll?
    ensures Grows(w, L.Apply(w, e))
    ensures forall t :: 0 <= t < |w.active| ==> L.Apply(w, e).active[t] <= w.active[t]
  {
    hide L.HandleClose, L.Fits, L.Placed, L.Numbered, L.ActiveUp;
    match e
    case Handle(l, c, revents, read) =>
      L.ReadBits(revents);
      CloseGrows(w.(active := w.active[l := w.active[l] - {c}]), c);
    case _ =>
  }

  /** Handing a functor over is a step of the loop that gets it. */
  lemma HandedOk(x: Loop, t: L.LoopId, who: L.LoopId, before: seq<L.Task>, after: seq<L.Task>, active: set<L.Id>)
    requires LoopOk(x, before, active) && OneMore(before, after)
    requires if t == who then x.place.Handling? || x.place == E.Calling else who !in x.owing
    ensures LoopOk(Handed(x, t, who, before, after), after, active)
  {
    hide E.InOrder, E.WakeInv;
    if |after| > |before| {
      var f := after[|before|];
      var a := Handing(x, t, who, f);
      E.ApplyInOrder(x, a);
      E.ApplyKeepsWake(x, a);
      Assoc(x.batch, x.pending, [f]);
    }
  }

  /** Calling the first of the batch takes it off the queue. */
  lemma CallOk(x: Loop, queue: seq<L.Task>)
    requires LoopOk(x, queue, {}) && x.place == E.Calling && x.batch != []
    ensures queue != [] && queue[0] == x.batch[0] && LoopOk(E.Apply(x, E.Call), queue[1..], {})
  {
    hide E.InOrder, E.WakeInv;
    E.ApplyInOrder(x, E.Call);
    E.ApplyKeepsWake(x, E.Call);
    Uncons(x.batch, x.pending);
  }

  /** The other steps leave the queue as it is. */
  lemma OwnOk(x: Loop, a: E.Act<L.Task>, queue: seq<L.Task>, active: set<L.Id>, active': set<L.Id>)
    requires LoopOk(x, queue, active) && E.Enabled(x, a)
    requires a.Wake? || a.CalleeWake? || a.PollReturns? || a.ReadWakeup? || a.EndHandling? || a.Swap?
             || a.EndBatch? || a.Test?
    requires active' != active ==> a.PollReturns?
    requires a.EndHandling? ==> active == {}
    ensures LoopOk(E.Apply(x, a), queue, active')
  {
    E.ApplyInOrder(x, a);
    E.ApplyKeepsWake(x, a);
    Unit(x.pending);
  }

  lemma TaskOk(y: Reactor, e: L.Step, who: L.LoopId)
    requires Inv(y) && Enabled(y, Does(e, who)) && e.RunTask?
    ensures |L.Apply(y.w, e).queues| == |y.w.queues| && Inv(Apply(y, Does(e, who)))
  {
    hide L.Inv, LoopOk, L.Exec, E.Apply, L.Fits;
    L.StepPreserves(y.w, e);
    var u := L.Pop(y.w, who);
    InvShape(y.w);
    TaskGrows(u, y.w.queues[who][0]);
    CallOk(y.loops[who], y.w.queues[who]);
    var z := Apply(y, Does(e, who));
    CallKeeps(y.loops[who]);
    InvShape(z.w);
    forall t | 0 <= t < |y.loops| ensures LoopOk(z.loops[t], z.w.queues[t], z.w.active[t]) {
      var x := if t == who then E.Apply(y.loops[who], E.Call) else y.loops[t];
      HandedOk(x, t, who, u.queues[t], z.w.queues[t], y.w.active[t]);
    }
  }

  lemma CallKeeps(x: Loop)
    requires E.Enabled(x, E.Call)
    ensures E.Apply(x, E.Call).place == x.place && E.Apply(x, E.Call).owing == x.owing
  {
  }

  lemma InvShape(w: L.World)
    requires L.Inv(w)
    ensures L.Shape(w)
  {
  }

  lemma WorldOk(y: Reactor, e: L.Step, who: L.LoopId)
    requires Inv(y) && Enabled(y, Does(e, who)) && L.Assumed(e) && !e.RunTask?
    ensures |L.Apply(y.w, e).queues| == |y.w.queues| && Inv(Apply(y, Does(e, who)))
  {
    hide L.Inv, LoopOk, L.Apply, E.Apply;
    L.StepPreserves(y.w, e);
    WorldGrows(y.w, e);
    var z := Apply(y, Does(e, who));
    InvShape(z.w);
    forall t | 0 <= t < |y.loops| ensures LoopOk(z.loops[t], z.w.queues[t], z.w.active[t]) {
      HandedOk(y.loops[t], t, who, y.w.queues[t], z.w.queues[t], y.w.active[t]);
      FewerOk(z.loops[t], z.w.queues[t], y.w.active[t], z.w.active[t]);
    }
  }

  lemma FewerOk(x: Loop, queue: seq<L.Task>, active: set<L.Id>, active': set<L.Id>)
    requires LoopOk(x, queue, active) && active' <= active
    ensures LoopOk(x, queue, active')
  {
  }

  lemma StepPreserves(y: Reactor, s: Step)
    requires Inv(y) && Enabled(y, s) && Assumed(s)
    ensures s.Does? ==> |L.Apply(y.w, s.e).queues| == |y.w.queues|
    ensures Inv(Apply(y, s))
  {
    hide L.Inv, LoopOk, E.Apply, E.Enabled, L.Exec, L.HandleEvent, L.NewConnection;
    match s
    case Polls(l, ready, active) =>
      L.StepPreserves(y.w, L.Poll(l, ready));
      OwnOk(y.loops[l], E.PollReturns(active), y.w.queues[l], y.w.active[l], ready);
    case Does(e, who) =>
      if e.RunTask? { TaskOk(y, e, who); } else { WorldOk(y, e, who); }
    case Own(l, a) => OwnOk(y.loops[l], a, y.w.queues[l], y.w.active[l], y.w.active[l]);
    case Wakes(who, t) => OwnOk(y.loops[t], E.Wake(who), y.w.queues[t], y.w.active[t], y.w.active[t]);
  }

  // ---- Every queued functor runs ----

  /** Something is left to finish what has begun: no new connection, event, timeout or call from outside. */
  ghost predicate Inside(s: Step) {
    match s
    case Polls(_, ready, active) => ready == {} && active
    case Does(e, _) => (e.Handle? || e.RunTask?) && L.Assumed(e)
    case _ => true
  }

  function Sum<T>(f: T -> nat, xs: seq<T>): nat {
    if xs == [] then 0 else f(xs[0]) + Sum(f, xs[1..])
  }

  lemma {:induction false} SumUpdate<T>(f: T -> nat, xs: seq<T>, l: nat, x: T)
    requires l < |xs|
    ensures Sum(f, xs[l := x]) + f(xs[l]) == Sum(f, xs) + f(x)
  {
    if l > 0 {
      SumUpdate(f, xs[1..], l - 1, x);
      assert xs[l := x][1..] == xs[1..][l - 1 := x];
    } else {
      assert xs[0 := x][1..] == xs[1..];
    }
  }

  lemma {:induction false} SumAppend<T>(f: T -> nat, xs: seq<T>, x: T)
    ensures Sum(f, xs + [x]) == Sum(f, xs) + f(x)
  {
    if xs == [] {
      Unit([x]);
      assert [x][1..] == [];
    } else {
      SumAppend(f, xs[1..], x);
      Uncons(xs, [x]);
    }
  }

  /** One more than what calling the functor can queue. */
  function TaskWeight(t: L.Task): nat {
    match t
    case Establish(_) => 1
    case Destroy(_) => 1
    case Remove(_) => 2
    case CloseRun(_) => 3
  }

  function QueueWeight(q: seq<L.Task>): nat {
    Sum(TaskWeight, q)
  }

  function Card(ids: set<L.Id>): nat {
    |ids|
  }

  function PlaceRank(p: E.Place): nat {
    match p
    case Polling => 0
    case Testing => 1
    case Calling => 2
    case Swapping => 3
    case Handling(active) => if active then 5 else 4
    case MustWake => 11
    case Stopped => 0
  }

  /** Steps that the loop can take before it blocks, or a bound on them. */
  function Turns(x: Loop): nat {
    10 * |x.owing| + (if x.counter > 0 && x.place != E.Handling(true) then 8 else 0) + PlaceRank(x.place)
  }

  lemma QueueWeighs(w: L.World, l: L.LoopId, t: L.Task)
    requires l < |w.queues|
    ensures Sum(QueueWeight, L.Queue(w, l, t).queues) == Sum(QueueWeight, w.queues) + TaskWeight(t)
  {
    SumUpdate(QueueWeight, w.queues, l, w.queues[l] + [t]);
    SumAppend(TaskWeight, w.queues[l], t);
  }

  lemma PopWeighs(w: L.World, l: L.LoopId)
    requires l < |w.queues| && w.queues[l] != []
    ensures Sum(QueueWeight, L.Pop(w, l).queues) + TaskWeight(w.queues[l][0]) == Sum(QueueWeight, w.queues)
  {
    SumUpdate(QueueWeight, w.queues, l, w.queues[l][1..]);
  }

  lemma CloseWeighs(w: L.World, c: L.Id)
    requires L.Shape(w) && c in w.conns
    ensures Sum(QueueWeight, L.HandleClose(w, c).queues) <= Sum(QueueWeight, w.queues) + 2
  {
    hide Sum;
    var v := L.Disconnect(w, c);
    QueueWeighs(v, 0, L.Remove(c));
    QueueWeighs(v, v.conns[c].loop, L.Destroy(c));
    assert L.HandleClose(w, c).queues == if v.conns[c].loop == 0 then L.Queue(v, 0, L.Destroy(c)).queues
                                         else L.Queue(v, 0, L.Remove(c)).queues;
  }

  /** Calling a functor queues less than it was worth. */
  lemma TaskWeighs(w: L.World, t: L.Task)
    requires L.Shape(w) && t.c in w.conns
    ensures Sum(QueueWeight, L.Exec(w, t).queues) < Sum(QueueWeight, w.queues) + TaskWeight(t)
  {
    hide Sum, L.HandleClose;
    CloseWeighs(w, t.c);
    QueueWeighs(w, w.conns[t.c].loop, L.Destroy(t.c));
    if t.Remove? {
      assert L.Exec(w, t).queues == L.Queue(w, w.conns[t.c].loop, L.Destroy(t.c)).queues;
    }
  }

  lemma OwnTurns(x: Loop, a: E.Act<L.Task>)
    requires E.Enabled(x, a) && !x.quit
    requires a.Wake? || a.CalleeWake? || a == E.PollReturns(true) || a.ReadWakeup? || a.EndHandling? || a.Swap?
             || a.EndBatch? || a.Test?
    ensures Turns(E.Apply(x, a)) < Turns(x)
  {
    if a.Wake? {
      assert |x.owing - {a.t}| == |x.owing| - 1;
    }
  }

  lemma HandleShrinks(w: L.World, l: L.LoopId, c: L.Id, revents: set<L.Polling.Bit>, read: L.ReadResult)
    requires L.Inv(w) && L.Enabled(w, L.Handle(l, c, revents, read)) && L.Assumed(L.Handle(l, c, revents, read))
    ensures Sum(Card, L.Apply(w, L.Handle(l, c, revents, read)).active) < Sum(Card, w.active)
  {
    hide L.HandleClose, L.Fits, L.Placed, L.Numbered, L.ActiveUp;
    var u := w.(active := w.active[l := w.active[l] - {c}]);
    L.ReadBits(revents);
    CloseGrows(u, c);
    SumUpdate(Card, w.active, l, w.active[l] - {c});
  }

  /** What is left to do: channels to handle, then functors to call, then turns to finish. */
  lemma InsideDescends(y: Reactor, s: Step)
    requires Inv(y) && Enabled(y, s) && Inside(s)
    ensures s.Does? ==> |L.Apply(y.w, s.e).queues| == |y.w.queues|
    ensures var z := Apply(y, s);
            var a, b := Sum(Card, y.w.active), Sum(Card, z.w.active);
            var p, q := Sum(QueueWeight, y.w.queues), Sum(QueueWeight, z.w.queues);
            b < a || (b == a && (q < p || (q == p && Sum(Turns, z.loops) < Sum(Turns, y.loops))))
  {
    hide L.Inv, LoopOk, E.Apply, E.Enabled, L.Exec, L.HandleEvent, Sum, Turns, QueueWeight, Card;
    StepPreserves(y, s);
    match s
    case Polls(l, _, _) =>
      SumUpdate(Card, y.w.active, l, {});
      LoopTurns(y, l, E.PollReturns(true));
    case Does(e, who) =>
      if e.RunTask? {
        InvShape(y.w);
        var u := L.Pop(y.w, who);
        PopWeighs(y.w, who);
        TaskWeighs(u, y.w.queues[who][0]);
        TaskGrows(u, y.w.queues[who][0]);
      } else {
        HandleShrinks(y.w, e.l, e.c, e.revents, e.read);
      }
    case Own(l, a) => LoopTurns(y, l, a);
    case Wakes(who, t) => LoopTurns(y, t, E.Wake(who));
  }

  lemma LoopTurns(y: Reactor, l: nat, a: E.Act<L.Task>)
    requires Inv(y) && l < |y.loops| && E.Enabled(y.loops[l], a)
    requires a.Wake? || a.CalleeWake? || a == E.PollReturns(true) || a.ReadWakeup? || a.EndHandling? || a.Swap?
             || a.EndBatch? || a.Test?
    ensures Sum(Turns, y.loops[l := E.Apply(y.loops[l], a)]) < Sum(Turns, y.loops)
  {
    hide Sum, L.Inv;
    assert LoopOk(y.loops[l], y.w.queues[l], y.w.active[l]);
    OwnTurns(y.loops[l], a);
    SumUpdate(Turns, y.loops, l, E.Apply(y.loops[l], a));
  }

  /** Every loop blocks in `poll` with nothing to wake it. */
  ghost predicate Resting(y: Reactor) {
    forall t :: 0 <= t < |y.loops| ==> LoopRests(y, t)
  }

  ghost predicate LoopRests(y: Reactor, t: nat)
    requires t < |y.loops|
  {
    y.loops[t].place == E.Polling && y.loops[t].counter == 0 && y.loops[t].owing == {}
  }

  /** At rest no functor has been forgotten: this is where no wakeup may be lost. */
  lemma RestingIsEmpty(y: Reactor)
    requires Inv(y) && Resting(y)
    ensures forall t :: 0 <= t < |y.loops| ==> y.w.queues[t] == []
  {
    hide L.Inv;
    forall t | 0 <= t < |y.loops| ensures y.w.queues[t] == [] {
      assert LoopRests(y, t) && LoopOk(y.loops[t], y.w.queues[t], y.w.active[t]);
    }
  }

  lemma SomeStep(y: Reactor)
    requires Inv(y) && !Resting(y)
    ensures exists s :: Enabled(y, s) && Inside(s)
  {
    hide L.Inv, LoopOk;
    if t, who :| 0 <= t < |y.loops| && who in y.loops[t].owing {
      assert Enabled(y, Wakes(who, t)) && Inside(Wakes(who, t));
    } else if t :| 0 <= t < |y.loops| && y.loops[t].place == E.MustWake {
      assert Enabled(y, Own(t, E.CalleeWake)) && Inside(Own(t, E.CalleeWake));
    } else {
      var t: nat :| t < |y.loops| && !LoopRests(y, t);
      assert Free(y, t);
      FreeLoopSteps(y, t);
    }
  }

  lemma FreeLoopSteps(y: Reactor, t: nat)
    requires Inv(y) && t < |y.loops| && !LoopRests(y, t) && Free(y, t) && y.loops[t].owing == {}
    ensures exists s :: Enabled(y, s) && Inside(s)
  {
    hide L.Fits, L.Numbered;
    var x := y.loops[t];
    assert LoopOk(x, y.w.queues[t], y.w.active[t]);
    if y.w.active[t] != {} {
      var c :| c in y.w.active[t];
      var s := Does(L.Handle(t, c, {}, L.Data), t);
      assert Enabled(y, s) && Inside(s);
    } else {
      var s := match x.place
        case Handling(active) => if active then Own(t, E.ReadWakeup) else Own(t, E.EndHandling)
        case Swapping => Own(t, E.Swap)
        case Calling => if x.batch == [] then Own(t, E.EndBatch) else Does(L.RunTask(t), t)
        case Testing => Own(t, E.Test)
        case _ => Polls(t, {}, true);
      if x.place == E.Calling && x.batch != [] {
        assert L.Belongs(y.w, t, y.w.queues[t][0]);
      }
      assert Enabled(y, s) && Inside(s);
    }
  }

  /** A scheduler that lets the threads finish what has begun. */
  ghost predicate Scheduler(pick: Reactor -> Step) {
    forall y :: Inv(y) && !Resting(y) ==> Enabled(y, pick(y)) && Inside(pick(y))
  }

  ghost function Pick(y: Reactor): Step {
    if Inv(y) && !Resting(y) then (SomeStep(y); var s :| Enabled(y, s) && Inside(s); s) else Wakes(0, 0)
  }

  lemma SchedulerExists()
    ensures Scheduler(Pick)
  {
  }

  lemma InsideKeeps(y: Reactor, s: Step)
    requires Inv(y) && Enabled(y, s) && Inside(s)
    ensures Assumed(s) && (s.Does? ==> |L.Apply(y.w, s.e).queues| == |y.w.queues|) && Inv(Apply(y, s))
  {
    hide Inv, Sane, Apply;
    StepPreserves(y, s);
  }

  /** Where the threads come to rest, in whatever order they are scheduled. */
  ghost function Settle(y: Reactor, pick: Reactor -> Step): (z: Reactor)
    requires Inv(y) && Scheduler(pick)
    ensures Inv(z) && Resting(z)
    decreases Sum(Card, y.w.active), Sum(QueueWeight, y.w.queues), Sum(Turns, y.loops)
  {
    if Resting(y) then y else
      InsideKeeps(y, pick(y));
      InsideDescends(y, pick(y));
      Settle(Apply(y, pick(y)), pick)
  }

  lemma StepLater(y: Reactor, s: Step, d: L.Id)
    requires Inv(y) && Enabled(y, s) && Assumed(s) && d in y.w.conns
    requires s.Does? ==> |L.Apply(y.w, s.e).queues| == |y.w.queues|
    ensures L.Later(y.w, Apply(y, s).w, d)
  {
    hide L.Inv, L.Apply, LoopOk, E.Apply, E.Enabled;
    match s
    case Polls(l, ready, _) => L.StepLater(y.w, L.Poll(l, ready), d);
    case Does(e, _) => L.StepLater(y.w, e, d);
    case _ =>
  }

  lemma {:induction false} SettleLater(y: Reactor, pick: Reactor -> Step, d: L.Id)
    requires Inv(y) && Scheduler(pick) && d in y.w.conns
    ensures L.Later(y.w, Settle(y, pick).w, d)
    decreases Sum(Card, y.w.active), Sum(QueueWeight, y.w.queues), Sum(Turns, y.loops)
  {
    hide L.Inv, LoopOk, Apply, Enabled, Inside;
    if !Resting(y) {
      var s := pick(y);
      InsideKeeps(y, s);
      InsideDescends(y, s);
      StepLater(y, s, d);
      SettleLater(Apply(y, s), pick, d);
    }
  }

  // ---- Forced closes ----

  /** A forced close is queued, or the connection has gone down. */
  ghost predicate Doomed(w: L.World, c: L.Id) {
    c in w.conns && (L.Times(w, w.conns[c].loop, L.CloseRun(c)) > 0 || w.conns[c].closed > 0)
  }

  lemma GrowsTimes(u: L.World, v: L.World, l: L.LoopId, t: L.Task)
    requires Grows(u, v)
    ensures L.Times(v, l, t) >= L.Times(u, l, t)
  {
    if l < |u.queues| {
      assert OneMore(u.queues[l], v.queues[l]);
    }
  }

  /** Calling the forced close of a connection leaves it down, if it was not already. */
  lemma CloseRunCloses(w: L.World, l: L.LoopId, c: L.Id)
    requires L.Inv(w) && l < |w.queues| && w.queues[l] != [] && w.queues[l][0] == L.CloseRun(c) && c in w.conns
    ensures L.Shape(L.Pop(w, l)) && L.ForceCloseInLoop(L.Pop(w, l), c).conns[c].closed > 0
  {
    assert L.Belongs(w, l, w.queues[l][0]);
    assert L.Fits(w, c);
    HeadCounts(w, l);
  }

  lemma HeadCounts(w: L.World, l: L.LoopId)
    requires l < |w.queues| && w.queues[l] != []
    ensures L.Times(w, l, w.queues[l][0]) > 0
  {
    L.PopTimes(w, l);
  }

  lemma StaysDoomed(w: L.World, e: L.Step, c: L.Id)
    requires L.Inv(w) && L.Enabled(w, e) && L.Assumed(e) && Doomed(w, c)
    ensures Doomed(L.Apply(w, e), c)
  {
    hide L.Inv, L.Times, L.HandleClose, L.Exec, L.HandleEvent, L.NewConnection;
    L.StepLater(w, e, c);
    InvShape(w);
    match e
    case Poll(_, _) =>
      SameTimes(w, L.Apply(w, e), w.conns[c].loop, L.CloseRun(c));
    case RunTask(l) =>
      var u := L.Pop(w, l);
      L.PopTimes(w, l);
      TaskGrows(u, w.queues[l][0]);
      GrowsTimes(u, L.Apply(w, e), w.conns[c].loop, L.CloseRun(c));
      if w.queues[l][0] == L.CloseRun(c) { CloseRunCloses(w, l, c); RunsClose(w, l, c); }
    case _ =>
      WorldGrows(w, e);
      GrowsTimes(w, L.Apply(w, e), w.conns[c].loop, L.CloseRun(c));
  }

  lemma SameTimes(w: L.World, v: L.World, l: L.LoopId, t: L.Task)
    requires v.queues == w.queues
    ensures L.Times(v, l, t) == L.Times(w, l, t)
  {
  }

  lemma RunsClose(w: L.World, l: L.LoopId, c: L.Id)
    requires L.Shape(w) && L.Enabled(w, L.RunTask(l)) && w.queues[l][0] == L.CloseRun(c)
    ensures L.Shape(L.Pop(w, l)) && L.Apply(w, L.RunTask(l)) == L.ForceCloseInLoop(L.Pop(w, l), c)
  {
    hide L.HandleClose;
  }

  lemma StepDoomed(y: Reactor, s: Step, c: L.Id)
    requires Inv(y) && Enabled(y, s) && Assumed(s) && Doomed(y.w, c)
    requires s.Does? ==> |L.Apply(y.w, s.e).queues| == |y.w.queues|
    ensures Doomed(Apply(y, s).w, c)
  {
    hide L.Inv, L.Apply, LoopOk, E.Apply, E.Enabled, Doomed;
    match s
    case Polls(l, ready, _) => StaysDoomed(y.w, L.Poll(l, ready), c);
    case Does(e, _) => StaysDoomed(y.w, e, c);
    case _ =>
  }

  lemma {:induction false} SettleDoomed(y: Reactor, pick: Reactor -> Step, c: L.Id)
    requires Inv(y) && Scheduler(pick) && Doomed(y.w, c)
    ensures Doomed(Settle(y, pick).w, c)
    decreases Sum(Card, y.w.active), Sum(QueueWeight, y.w.queues), Sum(Turns, y.loops)
  {
    hide L.Inv, LoopOk, Apply, Enabled, Inside, Doomed;
    if !Resting(y) {
      var s := pick(y);
      InsideKeeps(y, s);
      InsideDescends(y, s);
      StepDoomed(y, s, c);
      SettleDoomed(Apply(y, s), pick, c);
    }
  }

  ghost predicate Run(ioLoops: nat, trace: seq<Reactor>, steps: seq<Step>) {
    && |trace| == |steps| + 1 && trace[0] == Start(ioLoops)
    && forall i :: 0 <= i < |steps| ==>
         && Sane(trace[i]) && Enabled(trace[i], steps[i]) && Assumed(steps[i])
         && (steps[i].Does? ==> |L.Apply(trace[i].w, steps[i].e).queues| == |trace[i].w.queues|)
         && trace[i + 1] == Apply(trace[i], steps[i])
  }

  lemma {:induction false} RunKeepsInv(ioLoops: nat, trace: seq<Reactor>, steps: seq<Step>, k: nat)
    requires Run(ioLoops, trace, steps) && k < |trace|
    ensures Inv(trace[k])
  {
    hide Inv, Apply, Enabled, Assumed, Start;
    if k == 0 {
      InvStart(ioLoops);
    } else {
      RunKeepsInv(ioLoops, trace, steps, k - 1);
      StepPreserves(trace[k - 1], steps[k - 1]);
    }
  }

  /** From every reachable state, in whatever order the threads run on, every functor queued on any loop
      is called: at rest all queues are empty, a connection that was waiting has been established, and
      one that had gone down or whose forced close was queued has been closed, erased, destroyed and taken
      out of its poller. */
  lemma EveryFunctorRuns(ioLoops: nat, trace: seq<Reactor>, steps: seq<Step>, k: nat, pick: Reactor -> Step, c: L.Id)
    requires Run(ioLoops, trace, steps) && k < |trace| && Scheduler(pick)
    requires c in trace[k].w.conns
    ensures Inv(trace[k])
    ensures var z := Settle(trace[k], pick);
            && z.w.ok && (forall t :: 0 <= t < |z.w.queues| ==> z.w.queues[t] == [])
            && c in z.w.conns && z.w.conns[c].established == 1
            && (Doomed(trace[k].w, c) ==>
                  z.w.conns[c].destroyed == 1 && !z.w.conns[c].added && c !in z.w.table)
  {
    hide Scheduler, L.Later, L.Placed, L.Numbered, L.ActiveUp, LoopOk, Settle, Run, Doomed;
    RunKeepsInv(ioLoops, trace, steps, k);
    var y := trace[k];
    var z := Settle(y, pick);
    RestingIsEmpty(z);
    SettleLater(y, pick, c);
    LaterMeans(y.w, z.w, c);
    assert L.Fits(z.w, c);
    EmptyHasNone(z.w, z.w.conns[c].loop, L.Establish(c));
    EmptyHasNone(z.w, 0, L.Remove(c));
    EmptyHasNone(z.w, z.w.conns[c].loop, L.Destroy(c));
    EmptyHasNone(z.w, z.w.conns[c].loop, L.CloseRun(c));
    if Doomed(y.w, c) {
      SettleDoomed(y, pick, c);
      DoomedMeans(z.w, c);
    }
  }

  lemma DoomedMeans(w: L.World, c: L.Id)
    requires Doomed(w, c) && L.Times(w, w.conns[c].loop, L.CloseRun(c)) == 0
    ensures w.conns[c].closed > 0
  {
  }

  lemma LaterMeans(w: L.World, v: L.World, c: L.Id)
    requires c in w.conns && L.Later(w, v, c)
    ensures c in v.conns && v.conns[c].closed >= w.conns[c].closed
  {
  }

  lemma EmptyHasNone(w: L.World, l: L.LoopId, t: L.Task)
    requires forall k :: 0 <= k < |w.queues| ==> w.queues[k] == []
    ensures L.Times(w, l, t) == 0
  {
  }

  /** An event that takes a connection down, or a forced close of one that is up, leads to its removal: at rest,
      under every schedule, it is closed, destroyed, out of the table and out of its poller. */
  lemma ClosingEndsInRemoval(
    ioLoops: nat, trace: seq<Reactor>, steps: seq<Step>, k: nat, pick: Reactor -> Step, c: L.Id)
    requires Run(ioLoops, trace, steps) && k < |steps| && Scheduler(pick) && c in trace[k].w.conns
    requires steps[k].Does? && TakesDown(trace[k].w, steps[k].e, c)
    ensures Inv(trace[k + 1])
    ensures var z := Settle(trace[k + 1], pick);
            c in z.w.conns && z.w.conns[c].destroyed == 1 && !z.w.conns[c].added && c !in z.w.table
  {
    hide Scheduler, Settle, Doomed, L.Apply, L.Inv, LoopOk, Apply, L.Later;
    RunKeepsInv(ioLoops, trace, steps, k);
    RunKeepsInv(ioLoops, trace, steps, k + 1);
    var y, e := trace[k], steps[k].e;
    Dooms(y.w, e, c);
    DoesWorld(y, steps[k]);
    DoomedExists(trace[k + 1].w, c);
    EveryFunctorRuns(ioLoops, trace, steps, k + 1, pick, c);
  }

  lemma DoesWorld(y: Reactor, s: Step)
    requires Sane(y) && Enabled(y, s) && s.Does? && |L.Apply(y.w, s.e).queues| == |y.w.queues|
    ensures Apply(y, s).w == L.Apply(y.w, s.e)
  {
    hide L.Apply;
  }

  ghost predicate TakesDown(w: L.World, e: L.Step, c: L.Id)
    requires L.Shape(w)
  {
    || (e.Handle? && e.c == c && L.Enabled(w, e) && L.ClosingEvent(e.revents, e.read))
    || (e.ForceCloseCall? && e.c == c && c in w.conns
        && (w.conns[c].phase.Connected? || w.conns[c].phase.Disconnecting?))
  }

  lemma Dooms(w: L.World, e: L.Step, c: L.Id)
    requires L.Inv(w) && L.Enabled(w, e) && L.Assumed(e) && TakesDown(w, e, c)
    ensures Doomed(L.Apply(w, e), c)
  {
    hide L.Inv, L.Times, L.Fits;
    InvShape(w);
    match e
    case Handle(l, d, revents, read) => L.EventClosesIff(w, l, d, revents, read);
    case ForceCloseCall(d) => L.ForceCloseQueues(w, d);
    case _ =>
  }

  lemma DoomedExists(w: L.World, c: L.Id)
    requires Doomed(w, c)
    ensures c in w.conns
  {
  }
}
