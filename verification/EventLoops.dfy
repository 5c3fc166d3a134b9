/** `EventLoop`: functors handed over by any thread, and the event descriptor that wakes the loop. The
    type `F` of functors is arbitrary: nothing in the hand-over depends on what they do. */
module EventLoops {
  import opened Seqs

  type Thread = nat

  /** Where the loop thread is. `Handling(true)` still has the wakeup channel among the active ones;
      `MustWake` is between the push of a functor being called and its wakeup; `Testing` is before
      the test of `quit_`, where `loop` also starts. */
  datatype Place = Polling | Handling(wakeupActive: bool) | Swapping | Calling | MustWake | Testing | Stopped

  /** `pending` is `pendingFunctors_`, `counter` the event descriptor, `batch` the functors swapped out
      and not called yet, `owing` the other threads between a push (or storing `quit_`) and their wakeup.
      `history` lists all functors pushed, `executed` all called. */
  datatype Loop<F> = Loop(
    place: Place, pending: seq<F>, calling: bool, counter: nat, quit: bool, batch: seq<F>,
    owing: set<Thread>, history: seq<F>, executed: seq<F>)

  /** `before` are functors the loop's own thread queued before it called `loop`. */
  function Begin<F>(before: seq<F>): Loop<F> {
    Loop(Testing, before, false, 0, false, [], {}, before, [])
  }

  /** Atomic steps; a locked region is one step. The first three are taken by other threads at any
      time, the others by the loop thread where it is. */
  datatype Act<F> =
    | Push(t: Thread, f: F) | Wake(t: Thread) | SetQuit(t: Thread)
    | PollReturns(wakeupActive: bool) | ReadWakeup | HandlerPush(f: F) | HandlerQuit | EndHandling
    | Swap | Call | CalleePush(f: F) | CalleeWake | CalleeQuit | EndBatch | Test

  ghost predicate Enabled<F>(s: Loop<F>, a: Act<F>) {
    match a
    case Push(t, _) => t !in s.owing
    case Wake(t) => t in s.owing
    case SetQuit(t) => t !in s.owing
    case PollReturns(active) => s.place == Polling && (active ==> s.counter > 0)
    case ReadWakeup => s.place == Handling(true)
    case HandlerPush(_) => s.place.Handling?
    case HandlerQuit => s.place.Handling?
    case EndHandling => s.place == Handling(false)
    case Swap => s.place == Swapping
    case Call => s.place == Calling && s.batch != []
    case CalleePush(_) => s.place == Calling
    case CalleeWake => s.place == MustWake
    case CalleeQuit => s.place == Calling
    case EndBatch => s.place == Calling && s.batch == []
    case Test => s.place == Testing
  }

  function Pushed<F>(s: Loop<F>, f: F): Loop<F> {
    s.(pending := s.pending + [f], history := s.history + [f])
  }

  /** `queueInLoop` wakes if the caller is another thread or functors are being called. */
  function Apply<F>(s: Loop<F>, a: Act<F>): (r: Loop<F>)
    requires Enabled(s, a)
  {
    match a
    case Push(t, f) => Pushed(s, f).(owing := s.owing + {t})
    case Wake(t) => s.(counter := s.counter + 1, owing := s.owing - {t})
    case SetQuit(t) => s.(quit := true, owing := s.owing + {t})
    case PollReturns(active) => s.(place := Handling(active))
    case ReadWakeup => s.(place := Handling(false), counter := 0)
    case HandlerPush(f) => if s.calling then Pushed(s, f).(counter := s.counter + 1) else Pushed(s, f)
    case HandlerQuit => s.(quit := true)
    case EndHandling => s.(place := Swapping, calling := true)
    case Swap => s.(place := Calling, batch := s.pending, pending := [])
    case Call => s.(executed := s.executed + [s.batch[0]], batch := s.batch[1..])
    case CalleePush(f) => Pushed(s, f).(place := if s.calling then MustWake else Calling)
    case CalleeWake => s.(counter := s.counter + 1, place := Calling)
    case CalleeQuit => s.(quit := true)
    case EndBatch => s.(place := Testing, calling := false)
    case Test => s.(place := if s.quit then Stopped else Polling)
  }

  ghost predicate Run<F>(before: seq<F>, trace: seq<Loop<F>>, acts: seq<Act<F>>) {
    && |trace| == |acts| + 1 && trace[0] == Begin(before)
    && forall i :: 0 <= i < |acts| ==> Enabled(trace[i], acts[i]) && trace[i + 1] == Apply(trace[i], acts[i])
  }

  // ---- Once each, in order ----

  ghost predicate InOrder<F>(s: Loop<F>) {
    && s.history == s.executed + s.batch + s.pending
    && (s.place !in {Calling, MustWake} ==> s.batch == [])
    && (s.calling <==> s.place in {Swapping, Calling, MustWake})
  }

  lemma ApplyInOrder<F>(s: Loop<F>, a: Act<F>)
    requires InOrder(s) && Enabled(s, a)
    ensures InOrder(Apply(s, a))
  {
    match a
    case Swap =>
      Unit(s.executed);
      Unit(s.executed + s.pending);
    case Call =>
      Assoc(s.executed, [s.batch[0]], s.batch[1..]);
      Split(s.batch, 1);
      Assoc(s.executed, s.batch, s.pending);
    case Push(_, f) => Assoc(s.executed + s.batch, s.pending, [f]);
    case HandlerPush(f) => Assoc(s.executed + s.batch, s.pending, [f]);
    case CalleePush(f) => Assoc(s.executed + s.batch, s.pending, [f]);
    case _ =>
  }

  /** Every functor pushed is called once, in the order of the pushes: the history is always what has
      been called, then the rest of the current batch, then what is pending. */
  lemma {:induction false} FunctorsInOrder<F>(before: seq<F>, trace: seq<Loop<F>>, acts: seq<Act<F>>, k: nat)
    requires Run(before, trace, acts) && k < |trace|
    ensures InOrder(trace[k])
  {
    hide Apply;
    if k == 0 {
      Unit(before);
      Unit<F>([]);
    } else {
      FunctorsInOrder(before, trace, acts, k - 1);
      ApplyInOrder(trace[k - 1], acts[k - 1]);
    }
  }

  lemma ApplyKeepsBatch<F>(s: Loop<F>, a: Act<F>)
    requires Enabled(s, a) && a != Swap
    ensures Apply(s, a).executed + Apply(s, a).batch == s.executed + s.batch
  {
    if a == Call {
      Assoc(s.executed, [s.batch[0]], s.batch[1..]);
      Split(s.batch, 1);
    }
  }

  lemma {:induction false} BatchStays<F>(before: seq<F>, trace: seq<Loop<F>>, acts: seq<Act<F>>, i: nat, j: nat)
    requires Run(before, trace, acts) && i <= j < |trace|
    requires forall k :: i <= k < j ==> acts[k] != Swap
    ensures trace[j].executed + trace[j].batch == trace[i].executed + trace[i].batch
    decreases j
  {
    hide Apply;
    if i < j {
      BatchStays(before, trace, acts, i, j - 1);
      ApplyKeepsBatch(trace[j - 1], acts[j - 1]);
    }
  }

  /** One iteration calls exactly the functors pending at its swap, however many more are pushed
      meanwhile by other threads or by the functors called; those wait for the next iteration. */
  lemma IterationCallsBatch<F>(before: seq<F>, trace: seq<Loop<F>>, acts: seq<Act<F>>, i: nat, j: nat)
    requires Run(before, trace, acts) && i < j < |trace| && acts[i] == Swap && trace[j].place == Testing
    requires forall k :: i < k < j ==> acts[k] != Swap
    ensures trace[j].executed == trace[i].executed + trace[i].pending
    ensures trace[j].history == trace[i].executed + (trace[i].pending + trace[j].pending)
  {
    BatchStays(before, trace, acts, i + 1, j);
    FunctorsInOrder(before, trace, acts, j);
    Unit(trace[j].executed);
    Assoc(trace[i].executed, trace[i].pending, trace[j].pending);
  }

  // ---- No lost wakeup ----

  /** A loop that is about to block with something to do will be woken: its event descriptor is
      readable, or some thread is on its way to write it. */
  ghost predicate WillWake<F>(s: Loop<F>) {
    s.counter > 0 || s.owing != {}
  }

  ghost predicate NoLostWakeup<F>(s: Loop<F>) {
    s.place == Polling && (s.pending != [] || s.quit) ==> WillWake(s)
  }

  ghost predicate WakeInv<F>(s: Loop<F>) {
    && (s.place in {Calling, Testing, Polling} && s.pending != [] ==> WillWake(s))
    && (s.place == Polling && s.quit ==> WillWake(s))
    && (s.calling <==> s.place in {Swapping, Calling, MustWake})
  }

  lemma ApplyKeepsWake<F>(s: Loop<F>, a: Act<F>)
    requires WakeInv(s) && Enabled(s, a)
    ensures WakeInv(Apply(s, a))
  {
  }

  lemma {:induction false} RunKeepsWake<F>(trace: seq<Loop<F>>, acts: seq<Act<F>>, k: nat)
    requires Run([], trace, acts) && k < |trace|
    ensures WakeInv(trace[k])
  {
    hide Apply;
    if k > 0 {
      RunKeepsWake(trace, acts, k - 1);
      ApplyKeepsWake(trace[k - 1], acts[k - 1]);
    }
  }

  ghost predicate NeverLost<F(!new)>(before: seq<F>) {
    forall trace, acts, k: nat :: Run(before, trace, acts) && k < |trace| ==> NoLostWakeup(trace[k])
  }

  /** No wakeup is lost in any interleaving of any number of threads, for functors and for `quit`,
      exactly if the loop's own thread has queued nothing before it entered `loop`. */
  lemma NoLostWakeupIff<F(!new)>(before: seq<F>)
    ensures NeverLost(before) <==> before == []
  {
    if before == [] {
      forall trace, acts, k: nat | Run(before, trace, acts) && k < |trace| ensures NoLostWakeup(trace[k]) {
        RunKeepsWake(trace, acts, k);
      }
    } else {
      var s := Begin(before);
      var trace, acts := [s, Apply(s, Test)], [Test];
      assert Run(before, trace, acts);
      assert !NoLostWakeup(trace[1]);
    }
  }

  /** The event descriptor is written for functors of other threads and of functors being called, and for no
      others; the loop stops exactly when it finds `quit_` set. */
  lemma WakesIff<F>(s: Loop<F>, a: Act<F>)
    requires InOrder(s) && Enabled(s, a)
    ensures var r := Apply(s, a);
            && (r.counter > s.counter <==> a.Wake? || a.CalleeWake?)
            && (r.counter < s.counter <==> a.ReadWakeup? && s.counter > 0)
            && (a.Push? || a.SetQuit? ==> a.t in r.owing) && (a.CalleePush? ==> r.place == MustWake)
            && (r.quit <==> s.quit || a.SetQuit? || a.HandlerQuit? || a.CalleeQuit?)
            && (r.place == Stopped && s.place != Stopped <==> a.Test? && s.quit)
  {
  }

  // ---- The loop thread's own code ----

  ghost predicate Leads<F>(s: Loop<F>, acts: seq<Act<F>>, r: Loop<F>)
    decreases |acts|
  {
    if acts == [] then s == r else Enabled(s, acts[0]) && Leads(Apply(s, acts[0]), acts[1..], r)
  }

  /** Some steps of the interleaving lead from `s` to `r`. */
  ghost predicate Reaches<F(!new)>(s: Loop<F>, r: Loop<F>) {
    exists acts :: Leads(s, acts, r)
  }

  lemma Stays<F(!new)>(s: Loop<F>)
    ensures Reaches(s, s)
  {
    assert Leads(s, [], s);
  }

  lemma {:induction false} LeadsOn<F>(s: Loop<F>, acts: seq<Act<F>>, q: Loop<F>, a: Act<F>)
    requires Leads(s, acts, q) && Enabled(q, a)
    ensures Leads(s, acts + [a], Apply(q, a))
    decreases |acts|
  {
    hide Enabled, Apply;
    if acts == [] {
      Unit([a]);
      assert [a][1..] == [];
    } else {
      LeadsOn(Apply(s, acts[0]), acts[1..], q, a);
      Uncons(acts, [a]);
    }
  }

  /** One more step. */
  lemma Then<F(!new)>(s: Loop<F>, q: Loop<F>, a: Act<F>)
    requires Reaches(s, q) && Enabled(q, a)
    ensures Reaches(s, Apply(q, a))
  {
    hide Enabled, Apply, Leads;
    var acts :| Leads(s, acts, q);
    LeadsOn(s, acts, q, a);
  }

  lemma {:induction false} ThenAll<F(!new)>(s: Loop<F>, q: Loop<F>, acts: seq<Act<F>>, r: Loop<F>)
    requires Reaches(s, q) && Leads(q, acts, r)
    ensures Reaches(s, r)
    decreases |acts|
  {
    hide Enabled, Apply, Reaches;
    if acts != [] {
      Then(s, q, acts[0]);
      ThenAll(s, Apply(q, acts[0]), acts[1..], r);
    }
  }

  lemma Onward<F(!new)>(s: Loop<F>, q: Loop<F>, r: Loop<F>)
    requires Reaches(s, q) && Reaches(q, r)
    ensures Reaches(s, r)
  {
    hide Leads;
    var acts :| Leads(q, acts, r);
    ThenAll(s, q, acts, r);
  }

  /** The three callers of `queueInLoop`: another thread, a functor being called, an event handler. */
  lemma FromOutside<F(!new)>(s: Loop<F>, f: F)
    requires s.owing == {}
    ensures Reaches(s, Pushed(s, f).(counter := s.counter + 1))
  {
    Stays(s);
    Then(s, s, Push(0, f));
    Then(s, Apply(s, Push(0, f)), Wake(0));
  }

  lemma FromCallee<F(!new)>(s: Loop<F>, f: F)
    requires s.place == Calling && s.calling
    ensures Reaches(s, Pushed(s, f).(counter := s.counter + 1))
  {
    Stays(s);
    Then(s, s, CalleePush(f));
    Then(s, Apply(s, CalleePush(f)), CalleeWake);
  }

  lemma FromHandler<F(!new)>(s: Loop<F>, f: F)
    requires s.place == Handling(false) && !s.calling
    ensures Reaches(s, Pushed(s, f))
  {
    Stays(s);
    Then(s, s, HandlerPush(f));
  }

  /** Whatever the loop thread's code does between two tests of `quit_` cannot lose a wakeup. */
  lemma {:induction false} LeadsKeepsWake<F>(s: Loop<F>, acts: seq<Act<F>>, r: Loop<F>)
    requires WakeInv(s) && InOrder(s) && Leads(s, acts, r)
    ensures WakeInv(r) && InOrder(r)
    decreases |acts|
  {
    hide Enabled, Apply, WakeInv, InOrder;
    if acts != [] {
      ApplyKeepsWake(s, acts[0]);
      ApplyInOrder(s, acts[0]);
      LeadsKeepsWake(Apply(s, acts[0]), acts[1..], r);
    }
  }

  class EventLoop<F(!new)> {
    var pendingFunctors: seq<F>
    var callingPendingFunctors: bool
    var eventHandling: bool
    var counter: nat
    var quit: bool
    ghost var batch: seq<F>
    ghost var executed: seq<F>
    ghost var history: seq<F>

    ghost predicate Valid()
      reads this
    {
      && history == executed + batch + pendingFunctors
      && (!callingPendingFunctors ==> batch == [])
      && !(eventHandling && callingPendingFunctors)
    }

    /** The state as the interleaving model sees it, with the loop thread at `place`. */
    ghost function At(place: Place): Loop<F>
      reads this
    {
      Loop(place, pendingFunctors, callingPendingFunctors, counter, quit, batch, {}, history, executed)
    }

    /** The same for a call on the loop thread: out of a functor, or out of an event handler. */
    ghost function Here(): Loop<F>
      reads this
    {
      At(if callingPendingFunctors then Calling else Handling(false))
    }

    constructor ()
      ensures Valid() && history == [] && !callingPendingFunctors && !eventHandling && counter == 0 && !quit
    {
      pendingFunctors, callingPendingFunctors, eventHandling, counter, quit := [], false, false, 0, false;
      batch, executed, history := [], [], [];
    }

    method Wakeup()
      requires Valid()
      modifies `counter
      ensures Valid() && counter == old(counter) + 1
    {
      counter := counter + 1;
    }

    /** The handler of the wakeup channel: reading resets the event descriptor. */
    method HandleRead()
      requires Valid()
      modifies `counter
      ensures Valid() && counter == 0
    {
      counter := 0;
    }

    /** Another thread, or a functor being called, also wakes the loop; an event handler need not. */
    method QueueInLoop(cb: F, inLoopThread: bool)
      requires Valid()
      modifies `pendingFunctors, `counter, `history
      ensures Valid() && pendingFunctors == old(pendingFunctors) + [cb] && history == old(history) + [cb]
      ensures counter == old(counter) + if !inLoopThread || callingPendingFunctors then 1 else 0
      ensures !inLoopThread ==> forall p :: Reaches(old(At(p)), At(p))
      ensures inLoopThread ==> Reaches(old(Here()), Here())
    {
      hide Reaches;
      if !inLoopThread {
        forall p ensures Reaches(At(p), Pushed(At(p), cb).(counter := counter + 1)) { FromOutside(At(p), cb); }
      } else if callingPendingFunctors {
        FromCallee(Here(), cb);
      } else {
        FromHandler(Here(), cb);
      }
      Assoc(executed + batch, pendingFunctors, [cb]);
      pendingFunctors := pendingFunctors + [cb];
      history := history + [cb];
      if !inLoopThread || callingPendingFunctors {
        Wakeup();
      }
    }

    /** A call on the loop's own thread runs at once, and queues `queued`; any other is queued. */
    method RunInLoop(cb: F, inLoopThread: bool, queued: seq<F>) returns (ranNow: bool)
      requires Valid()
      modifies `pendingFunctors, `counter, `history
      ensures Valid() && ranNow == inLoopThread
      ensures pendingFunctors == old(pendingFunctors) + if inLoopThread then queued else [cb]
      ensures !inLoopThread ==> counter == old(counter) + 1
    {
      ranNow := inLoopThread;
      if inLoopThread {
        Invoke(queued);
      } else {
        QueueInLoop(cb, inLoopThread);
      }
    }

    /** Calling a functor that this time queues `queued`, itself possibly among them. */
    method Invoke(queued: seq<F>)
      requires Valid()
      modifies `pendingFunctors, `counter, `history
      ensures Valid() && pendingFunctors == old(pendingFunctors) + queued && history == old(history) + queued
      ensures counter == old(counter) + if callingPendingFunctors then |queued| else 0
      ensures Reaches(old(Here()), Here())
    {
      hide Reaches;
      Stays(Here());
      var i := 0;
      while i < |queued|
        invariant i <= |queued| && Valid()
        invariant pendingFunctors == old(pendingFunctors) + queued[..i]
        invariant history == old(history) + queued[..i]
        invariant counter == old(counter) + if callingPendingFunctors then i else 0
        invariant Reaches(old(Here()), Here())
      {
        ghost var here := Here();
        assert queued[..i + 1] == queued[..i] + [queued[i]];
        Assoc(old(pendingFunctors), queued[..i], [queued[i]]);
        Assoc(old(history), queued[..i], [queued[i]]);
        QueueInLoop(queued[i], true);
        Onward(old(Here()), here, Here());
        i := i + 1;
      }
      assert queued[..i] == queued;
    }

    /** What the first `n` functors of a batch queue, in order. */
    static ghost function Queued(queued: nat -> seq<F>, n: nat): seq<F> {
      if n == 0 then [] else Queued(queued, n - 1) + queued(n - 1)
    }

    /** The locked region: the pending functors become the batch. */
    method SwapOut() returns (functors: seq<F>)
      requires Valid() && !callingPendingFunctors && !eventHandling
      modifies `pendingFunctors, `callingPendingFunctors, `batch
      ensures Valid() && callingPendingFunctors && pendingFunctors == []
      ensures functors == old(pendingFunctors) && batch == functors
      ensures Reaches(old(At(Handling(false))), Here())
    {
      hide Reaches;
      ghost var start := At(Handling(false));
      Stays(start);
      Then(start, start, EndHandling);
      Then(start, Apply(start, EndHandling), Swap);
      functors := [];
      callingPendingFunctors := true;
      functors, pendingFunctors := pendingFunctors, functors;
      batch := functors;
      Unit(executed);
      Unit(executed + functors);
    }

    /** One round of the loop that follows. */
    method CallFirst(functor: F, queued: seq<F>)
      requires Valid() && callingPendingFunctors && batch != [] && batch[0] == functor
      modifies `pendingFunctors, `counter, `history, `batch, `executed
      ensures Valid() && batch == old(batch)[1..] && executed == old(executed) + [functor]
      ensures pendingFunctors == old(pendingFunctors) + queued
      ensures counter == old(counter) + |queued|
      ensures Reaches(old(Here()), Here())
    {
      hide Reaches;
      Stays(Here());
      Then(Here(), Here(), Call);
      Assoc(executed, [functor], batch[1..]);
      Split(batch, 1);
      executed, batch := executed + [functor], batch[1..];
      ghost var here := Here();
      Invoke(queued);
      Onward(old(Here()), here, Here());
    }

    /** The pending functors are swapped out and called, each once and in order, and the method ends
        even if all of them queue further ones, `queued(i)` by the functor at position `i`; these stay
        pending, and then the loop is woken. */
    method DoPendingFunctors(queued: nat -> seq<F>)
      requires Valid() && !callingPendingFunctors && !eventHandling
      modifies this
      ensures Valid() && !callingPendingFunctors && !eventHandling && quit == old(quit)
      ensures executed == old(executed) + old(pendingFunctors)
      ensures pendingFunctors == Queued(queued, |old(pendingFunctors)|)
      ensures counter == old(counter) + |pendingFunctors|
      ensures Reaches(old(At(Handling(false))), At(Testing))
    {
      hide Reaches, Apply, Enabled;
      ghost var start := At(Handling(false));
      var functors := SwapOut();
      var i := 0;
      assert functors[..0] == [];
      Unit(executed);
      while i < |functors|
        invariant i <= |functors| && Valid() && callingPendingFunctors && !eventHandling && quit == old(quit)
        invariant batch == functors[i..] && executed == old(executed) + functors[..i]
        invariant pendingFunctors == Queued(queued, i)
        invariant counter == old(counter) + |pendingFunctors|
        invariant Reaches(start, Here())
      {
        ghost var here := Here();
        Assoc(old(executed), functors[..i], [functors[i]]);
        assert functors[..i + 1] == functors[..i] + [functors[i]];
        CallFirst(functors[i], queued(i));
        Onward(start, here, Here());
        i := i + 1;
      }
      assert functors[..i] == functors;
      EndOfBatch(start, Here());
      callingPendingFunctors := false;
    }

    static lemma EndOfBatch(start: Loop<F>, s: Loop<F>)
      requires Reaches(start, s) && s.place == Calling && s.batch == []
      ensures Reaches(start, s.(place := Testing, calling := false))
    {
      hide Reaches;
      Then(start, s, EndBatch);
    }

    /** One turn of `loop` after `poll`: the handlers of the active channels queue `handled` in all,
        the wakeup channel being active or not; then the pending functors are called. */
    method Turn(wakeupActive: bool, handled: seq<F>, queued: nat -> seq<F>)
      requires Valid() && !callingPendingFunctors && !eventHandling && (wakeupActive ==> counter > 0)
      modifies this
      ensures Valid() && !callingPendingFunctors && !eventHandling
      ensures executed == old(executed) + (old(pendingFunctors) + handled)
      ensures pendingFunctors != [] ==> counter > 0
      ensures Reaches(old(At(Polling)), At(Testing))
    {
      hide Reaches;
      ghost var start := At(Polling);
      Stays(start);
      Then(start, start, PollReturns(wakeupActive));
      eventHandling := true;
      if wakeupActive {
        Then(start, At(Handling(true)), ReadWakeup);
        HandleRead();
      }
      var i := 0;
      assert handled[..0] == [];
      Unit(pendingFunctors);
      while i < |handled|
        invariant i <= |handled| && Valid() && eventHandling && executed == old(executed)
        invariant pendingFunctors == old(pendingFunctors) + handled[..i]
        invariant Reaches(start, Here())
      {
        ghost var here := Here();
        assert handled[..i + 1] == handled[..i] + [handled[i]];
        Assoc(old(pendingFunctors), handled[..i], [handled[i]]);
        QueueInLoop(handled[i], true);
        Onward(start, here, Here());
        i := i + 1;
      }
      assert handled[..i] == handled;
      eventHandling := false;
      ghost var here := Here();
      DoPendingFunctors(queued);
      Onward(start, here, At(Testing));
    }
  }
}
