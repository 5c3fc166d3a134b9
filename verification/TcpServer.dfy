/** `TcpServer` and `EventLoopThreadPool`: the table of connections and the dealing out of loops. */
module TcpServers {
  import opened Output
  import opened Lifecycle

  class EventLoopThreadPool {
    const loops: nat // how many I/O loops were started; loop 0 is the base loop
    var next: nat

    constructor (loops: nat)
      ensures this.loops == loops && next == 0
    {
      this.loops, next := loops, 0;
    }

    /** Round robin; without I/O loops everything runs on the base loop. */
    method NextLoop() returns (l: LoopId)
      requires loops > 0 ==> next < loops
      modifies this
      ensures l == (if loops == 0 then 0 else old(next) + 1) && l <= loops
      ensures loops > 0 ==> next < loops && (next == old(next) + 1 || (next == 0 && l == loops))
      ensures loops == 0 ==> next == old(next)
    {
      l := 0;
      if loops > 0 {
        l := next + 1;
        next := next + 1;
        if next >= loops {
          next := 0;
        }
      }
    }
  }

  class TcpServer {
    const pool: EventLoopThreadPool
    var nextConnId: Id
    var connections: set<Id>
    var objects: map<Id, Conn>
    var queues: seq<seq<Task>>
    var active: seq<set<Id>>
    ghost var ok: bool

    ghost function World(): World
      reads this, pool
    {
      Lifecycle.World(pool.loops, pool.next, nextConnId, connections, objects, queues, active, ok)
    }

    constructor (ioLoops: nat)
      ensures World() == Start(ioLoops) && Inv(World()) && fresh(pool)
    {
      pool := new EventLoopThreadPool(ioLoops);
      nextConnId, connections, objects := 1, {}, map[];
      queues, active, ok := seq(ioLoops + 1, _ => []), seq(ioLoops + 1, _ => {}), true;
      new;
      InvStart(ioLoops);
    }

    /** `runInLoop` on loop `target`, called on loop `here`: true if the caller is to run it at once. */
    method RunInLoop(target: LoopId, here: LoopId, t: Task) returns (now: bool)
      requires target < |queues|
      modifies `queues
      ensures now == (target == here)
      ensures World() == if now then old(World()) else Queue(old(World()), target, t)
    {
      now := target == here;
      if !now {
        queues := queues[target := queues[target] + [t]];
      }
    }

    /** The new name is not in the table, so no entry is overwritten. */
    method NewConnection() returns (c: Id)
      requires Inv(World())
      modifies this, pool
      ensures c == old(nextConnId) && c !in old(connections) && c !in old(objects)
      ensures World() == Lifecycle.NewConnection(old(World())) && Inv(World())
    {
      hide Inv, Turn;
      ghost var w := World();
      AcceptNumbers(w);
      PoolReady(w);
      var ioLoop := pool.NextLoop();
      c := nextConnId;
      nextConnId := nextConnId + 1;
      objects := objects[c := Conn(ioLoop, Connecting, false, false, 0, 0, 0, 0)];
      connections := connections + {c};
      var now := RunInLoop(ioLoop, 0, Establish(c));
      if now {
        ConnectEstablished(c);
      }
      AcceptPreserves(w);
    }

    static lemma PoolReady(w: World)
      requires Inv(w)
      ensures (w.ioLoops > 0 ==> w.next < w.ioLoops) && (w.ioLoops == 0 ==> w.next == 0)
      ensures w.nextId !in w.table && Shape(w)
    {
    }

    /** Called as the functor that the connection was waiting for, it keeps the invariant. */
    method ConnectEstablished(c: Id)
      requires c in objects
      modifies `objects, `ok
      ensures World() == Lifecycle.ConnectEstablished(old(World()), c)
      ensures forall w, l :: NextIs(w, l, Establish(c)) && old(World()) == Pop(w, l) ==> Inv(World())
    {
      hide Inv;
      forall w, l | NextIs(w, l, Establish(c)) && World() == Pop(w, l)
        ensures Inv(Lifecycle.ConnectEstablished(World(), c))
      {
        EstablishRuns(w, l, c);
      }
      ok := ok && objects[c].phase == Connecting;
      var k := objects[c];
      objects := objects[c :=
        k.(phase := Connected, added := true, interest := true, established := k.established + 1)];
    }

    /** The close callback of a connection, on that connection's loop. Called by a connection that has just
        gone down, it restores the invariant: one removal is under way or done. */
    method RemoveConnection(c: Id)
      requires Shape(World()) && c in objects
      modifies this
      ensures World() == Lifecycle.RemoveConnection(old(World()), c)
      ensures forall w :: MayClose(w, c) && old(World()) == Disconnect(w, c) ==> Inv(World())
    {
      hide Inv, Lifecycle.RemoveConnectionInLoop;
      forall w | MayClose(w, c) && World() == Disconnect(w, c)
        ensures Inv(Lifecycle.RemoveConnection(World(), c))
      {
        ClosePreserves(w, c);
      }
      var now := RunInLoop(0, objects[c].loop, Remove(c));
      if now {
        RemoveConnectionInLoop(c);
      }
    }

    /** Called as a queued functor, it keeps the invariant: the entry is there, and one destruction follows. */
    method RemoveConnectionInLoop(c: Id)
      requires Shape(World()) && c in objects
      modifies this
      ensures World() == Lifecycle.RemoveConnectionInLoop(old(World()), c)
      ensures forall w, l :: NextIs(w, l, Remove(c)) && old(World()) == Pop(w, l) ==> Inv(World())
    {
      hide Inv;
      forall w, l | NextIs(w, l, Remove(c)) && World() == Pop(w, l)
        ensures Inv(Lifecycle.RemoveConnectionInLoop(World(), c))
      {
        RemoveRuns(w, l, c);
      }
      ok := ok && c in connections;
      connections := connections - {c};
      var k := objects[c];
      objects := objects[c := k.(erased := k.erased + 1)];
      queues := queues[k.loop := queues[k.loop] + [Destroy(c)]];
    }
  }
}
