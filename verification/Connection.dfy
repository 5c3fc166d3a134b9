/** `TcpConnection`: framing and buffering over the real buffers and the registered channel. */
module Connection {
  import opened Bytes
  import opened Seqs
  import opened Framing
  import opened Buffers
  import opened Output
  import Polling

  class TcpConnection {
    var phase: Phase
    const channel: Polling.Channel
    const poller: Polling.EPollPoller
    const inputBuffer: Buffer
    const outputBuffer: Buffer
    const options: Options
    /** Functors queued on the connection's own loop, oldest first. */
    var notices: seq<Notice>
    /** Messages handed to the message callback, oldest first. */
    var delivered: seq<Msg>
    /** How often the close callback and the connection callback were called. */
    var closeCalls: nat
    var connectionCalls: nat
    ghost var wire: seq<byte>
    ghost var kept: seq<Msg>
    ghost var lost: seq<Msg>
    ghost var asked: bool
    ghost var shut: nat

    ghost predicate Valid()
      reads this, inputBuffer, inputBuffer.data, outputBuffer, outputBuffer.data, channel, poller, poller.live
    {
      && inputBuffer != outputBuffer && inputBuffer.data != outputBuffer.data
      && inputBuffer.Valid() && outputBuffer.Valid()
      && channel.poller == poller && poller.Valid() && channel in poller.live
      && channel.events <= {Polling.IN, Polling.PRI, Polling.OUT}
      && (phase in {Connected, Disconnecting} ==> Listening())
    }

    ghost predicate Listening()
      reads channel
    {
      channel.addedToLoop && {Polling.IN, Polling.PRI} <= channel.events
    }

    /** A connection that is up is in the kernel's list: for input always, and for output exactly while
        something is waiting to be written. */
    lemma KernelAsks()
      requires Valid() && Conserved(Sending()) && phase in {Connected, Disconnecting}
      ensures channel.fd in poller.kernel
      ensures poller.kernel[channel.fd].ptr == channel
      ensures poller.kernel[channel.fd].mask ==
              {Polling.IN, Polling.PRI} + if outputBuffer.Content() != [] then {Polling.OUT} else {}
    {
      assert poller.Agrees(channel);
      var m := channel.events;
      assert channel.IsWriting() <==> Polling.OUT in m by {
        if Polling.OUT in m { assert Polling.OUT in m * Polling.WRITE; }
      }
      if outputBuffer.Content() != [] {
        assert m == {Polling.IN, Polling.PRI} + {Polling.OUT};
      } else {
        assert m == {Polling.IN, Polling.PRI} + {};
      }
    }

    /** The sending half as the state machine of module `Output` sees it. */
    ghost function Sending(): Out
      requires outputBuffer.Valid()
      reads this, outputBuffer, outputBuffer.data, channel
    {
      Out(phase, outputBuffer.Content(), channel.IsWriting(), wire, kept, lost, asked, shut, notices)
    }

    ghost function Unparsed(): seq<byte>
      requires inputBuffer.Valid()
      reads inputBuffer, inputBuffer.data
    {
      inputBuffer.Content()
    }

    constructor (poller: Polling.EPollPoller, fd: int, options: Options)
      requires poller.Valid() && poller.FdFree(fd)
      modifies poller`live
      ensures Valid() && Sending() == FRESH && Unparsed() == [] && delivered == [] && closeCalls == 0
      ensures this.poller == poller && fresh(channel) && channel.fd == fd && !channel.addedToLoop
      ensures fresh(inputBuffer) && fresh(outputBuffer) && fresh(inputBuffer.data) && fresh(outputBuffer.data)
    {
      this.poller, this.options := poller, options;
      phase := Connecting;
      channel := new Polling.Channel(poller, fd);
      inputBuffer := new Buffer();
      outputBuffer := new Buffer();
      notices, delivered, closeCalls, connectionCalls := [], [], 0, 0;
      wire, kept, lost, asked, shut := [], [], [], false, 0;
    }

    /** The frame is put together in a buffer of its own: payload first, the length in front of it. */
    method MakeFrame(m: Msg) returns (frame: seq<byte>)
      requires |m| < MOD32
      ensures frame == Frame(m)
    {
      hide Bytes.Be32;
      var buf := new Buffer();
      buf.Append(m);
      Unit(m);
      buf.Prepend(Be32(|m|));
      frame := buf.RetrieveAsString(|m| + 4);
    }

    /** On another thread the frame goes into a functor. A `StringPiece` counts its bytes in an `int`. */
    method Send(m: Msg, w: KernelWrite, inLoopThread: bool)
      requires Valid() && 2 * |m| < MOD32
      modifies this, outputBuffer, outputBuffer.data, channel, poller
      ensures Valid()
      ensures Sending() == if inLoopThread then Output.Send(old(Sending()), m, w, options)
                           else SendElsewhere(old(Sending()), m)
      ensures Unparsed() == old(Unparsed()) && delivered == old(delivered) && closeCalls == old(closeCalls)
      ensures outputBuffer.data == old(outputBuffer.data) || fresh(outputBuffer.data)
    {
      hide Polling.EPollPoller.Valid, SendFrame;
      var frame := MakeFrame(m);
      if phase == Connected {
        if inLoopThread {
          SendInLoop(frame, m, w);
        } else {
          Queue(frame);
        }
      }
    }

    /** `runInLoop` from another thread, with `sendInLoop` on the frame. */
    method Queue(frame: seq<byte>)
      requires Valid() && |frame| >= 4
      modifies this`notices
      ensures Valid() && notices == old(notices) + [SendRequest(frame[4..])]
    {
      notices := notices + [SendRequest(frame[4..])];
    }

    /** Try a direct write if nothing is waiting; buffer what is left and ask for write events. The
        functor of a `SendRequest` calls it too. */
    method SendInLoop(data: seq<byte>, ghost m: Msg, w: KernelWrite)
      requires Valid() && |m| < MOD32 && data == Frame(m)
      modifies this, outputBuffer, outputBuffer.data, channel, poller
      ensures Valid() && Sending() == SendFrame(old(Sending()), m, w, options)
      ensures Unparsed() == old(Unparsed()) && delivered == old(delivered) && closeCalls == old(closeCalls)
      ensures outputBuffer.data == old(outputBuffer.data) || fresh(outputBuffer.data)
    {
      hide Frame, Polling.EPollPoller.Valid, Output.WriteDirectly, Output.KeepRest;
      if phase == Disconnected { return; }
      if !channel.IsWriting() && outputBuffer.writer - outputBuffer.reader == 0 {
        TryDirectly(data, m, w);
      } else {
        kept := kept + [m];
        KeepRest(data);
      }
    }

    /** Nothing is waiting: the frame is lost on a write error, otherwise what is not written is kept. */
    method TryDirectly(data: seq<byte>, ghost m: Msg, w: KernelWrite)
      requires Valid() && |m| < MOD32 && data == Frame(m)
      requires phase != Disconnected && Direct(Sending())
      modifies this, outputBuffer, outputBuffer.data, channel, poller
      ensures Valid() && Sending() == SendFrame(old(Sending()), m, w, options)
      ensures Unparsed() == old(Unparsed()) && delivered == old(delivered) && closeCalls == old(closeCalls)
      ensures outputBuffer.data == old(outputBuffer.data) || fresh(outputBuffer.data)
    {
      hide Frame, Polling.EPollPoller.Valid, Output.WriteDirectly, Output.KeepRest;
      if w == PeerGone {
        lost := lost + [m];
      } else {
        kept := kept + [m];
        WriteAndKeepRest(data, w);
      }
    }

    method WriteAndKeepRest(data: seq<byte>, w: KernelWrite)
      requires Valid()
      modifies this`wire, this`notices, outputBuffer, outputBuffer.data, channel, poller
      ensures outputBuffer.data == old(outputBuffer.data) || fresh(outputBuffer.data)
      ensures Valid() && Unparsed() == old(Unparsed())
      ensures var o := old(Sending());
              Sending() == Output.KeepRest(Output.WriteDirectly(o, data, w, options), data[Taken(w, |data|)..], options)
    {
      hide Polling.EPollPoller.Valid, Output.WriteDirectly, Output.KeepRest;
      var nwrote := WriteDirectly(data, w);
      KeepRest(data[nwrote..]);
    }

    method WriteDirectly(data: seq<byte>, w: KernelWrite) returns (nwrote: nat)
      requires Valid()
      modifies this`wire, this`notices
      ensures Valid() && nwrote == Taken(w, |data|)
      ensures Sending() == Output.WriteDirectly(old(Sending()), data, w, options)
    {
      hide Polling.EPollPoller.Valid;
      nwrote := 0;
      if w.Accepts? {
        nwrote := Taken(w, |data|);
        wire := wire + data[..nwrote];
        if nwrote == |data| && options.onComplete {
          notices := notices + [WriteComplete];
        }
      } else {
        assert data[..0] == [];
        Unit(wire);
      }
    }

    method KeepRest(rest: seq<byte>)
      requires Valid()
      modifies this`notices, outputBuffer, outputBuffer.data, channel, poller
      ensures outputBuffer.data == old(outputBuffer.data) || fresh(outputBuffer.data)
      ensures Valid() && Unparsed() == old(Unparsed())
      ensures Sending() == Output.KeepRest(old(Sending()), rest, options)
    {
      hide Polling.EPollPoller.Valid;
      if |rest| > 0 {
        var oldLen := outputBuffer.writer - outputBuffer.reader;
        if oldLen + |rest| >= options.mark && oldLen < options.mark && options.onHigh {
          notices := notices + [HighWater(oldLen + |rest|)];
        }
        outputBuffer.Append(rest);
        if !channel.IsWriting() {
          channel.EnableWriting();
          assert Polling.OUT in channel.events * Polling.WRITE;
        }
      }
    }

    method HandleWrite(w: KernelWrite)
      requires Valid()
      modifies this, outputBuffer, channel, poller
      ensures Valid() && Sending() == Output.HandleWrite(old(Sending()), w, options)
      ensures Unparsed() == old(Unparsed()) && delivered == old(delivered) && closeCalls == old(closeCalls)
      ensures outputBuffer.data == old(outputBuffer.data)
    {
      hide Polling.EPollPoller.Valid;
      if channel.IsWriting() {
        var n := Taken(w, outputBuffer.writer - outputBuffer.reader);
        if n > 0 {
          wire := wire + outputBuffer.Content()[..n];
          outputBuffer.Retrieve(n);
          if outputBuffer.writer - outputBuffer.reader == 0 {
            StopWriting();
          }
        }
      }
    }

    /** Everything is written: no more write events, and a pending shutdown goes ahead. */
    method StopWriting()
      requires Valid() && channel.IsWriting() && outputBuffer.Content() == []
      modifies this, channel, poller
      ensures Valid() && Unparsed() == old(Unparsed()) && delivered == old(delivered) && closeCalls == old(closeCalls)
      ensures Sending() == old(Sending()).(writing := false, shut := shut, notices := notices)
      ensures notices == Notify(old(notices), options.onComplete, WriteComplete)
      ensures shut == old(shut) + if phase == Disconnecting then 1 else 0
    {
      hide Polling.EPollPoller.Valid;
      channel.DisableWriting();
      if options.onComplete {
        notices := notices + [WriteComplete];
      }
      if phase == Disconnecting {
        ShutdownInLoop();
      }
    }

    method Shutdown()
      requires Valid()
      modifies this
      ensures Valid() && Sending() == Output.Shutdown(old(Sending()))
      ensures delivered == old(delivered) && closeCalls == old(closeCalls)
    {
      if phase == Connected {
        phase := Disconnecting;
        asked := true;
        ShutdownInLoop();
      }
    }

    method ShutdownInLoop()
      requires Valid()
      modifies this`shut
      ensures Valid() && Sending() == Output.ShutdownInLoop(old(Sending()))
    {
      if !channel.IsWriting() {
        shut := shut + 1;
      }
    }

    method ForceClose()
      requires Valid()
      modifies this
      ensures Valid() && Sending() == Output.ForceClose(old(Sending()))
      ensures delivered == old(delivered) && closeCalls == old(closeCalls)
    {
      if phase == Connected || phase == Disconnecting {
        phase := Disconnecting;
        notices := notices + [CloseRequest];
      }
    }

    method ForceCloseInLoop()
      requires Valid()
      modifies this, channel, poller
      ensures Valid() && Sending() == Output.ForceCloseInLoop(old(Sending()))
      ensures closeCalls == old(closeCalls) + if old(phase) in {Connected, Disconnecting} then 1 else 0
    {
      if phase == Connected || phase == Disconnecting {
        HandleClose();
      }
    }

    /** The source asserts that the connection is up. The close callback is called once. */
    method HandleClose()
      requires Valid() && phase in {Connected, Disconnecting}
      modifies this, channel, poller
      ensures Valid() && Sending() == Output.HandleClose(old(Sending()))
      ensures Unparsed() == old(Unparsed()) && delivered == old(delivered)
      ensures channel.events == {} && closeCalls == old(closeCalls) + 1 && connectionCalls == old(connectionCalls) + 1
    {
      phase := Disconnected;
      channel.DisableAll();
      connectionCalls := connectionCalls + 1;
      closeCalls := closeCalls + 1;
    }

    method ConnectEstablished()
      requires Valid() && phase == Connecting
      modifies this, channel, poller
      ensures Valid() && Sending() == Output.Establish(old(Sending()))
      ensures Unparsed() == old(Unparsed()) && delivered == old(delivered) && closeCalls == old(closeCalls)
      ensures connectionCalls == old(connectionCalls) + 1
      ensures channel.fd in poller.kernel && poller.kernel[channel.fd].ptr == channel
      ensures Polling.IN in poller.kernel[channel.fd].mask && Polling.PRI in poller.kernel[channel.fd].mask
    {
      phase := Connected;
      channel.EnableReading();
      connectionCalls := connectionCalls + 1;
    }

    /** `connectDestroyed`: the channel leaves the poller; the caller has established the connection
        before and it is up, or closed with all events disabled. */
    method ConnectDestroyed()
      requires Valid() && channel.addedToLoop
      requires phase == Connected || (phase == Disconnected && channel.IsNoneEvent())
      modifies this, channel, poller
      ensures Valid() && Sending() == Output.Destroy(old(Sending())) && phase == Disconnected
      ensures !channel.addedToLoop && channel.fd !in poller.channels && channel.fd !in poller.kernel
    {
      if phase == Connected {
        phase := Disconnected;
        channel.DisableAll();
        connectionCalls := connectionCalls + 1;
      }
      channel.Remove();
    }

    /** A read event: take what the socket holds, deliver every complete message in it, keep the rest.
        The loop ends because each round removes a whole frame. `overrun` reports that the guard let
        a frame through whose length makes the 32-bit sum wrap; the source then reads past the buffer. */
    method HandleRead(outcome: ReadOutcome) returns (n: int, overrun: bool)
      requires Valid() && (outcome == Waiting([]) ==> phase in {Connected, Disconnecting})
      modifies this, inputBuffer, inputBuffer.data, channel, poller
      ensures Valid() && (inputBuffer.data == old(inputBuffer.data) || fresh(inputBuffer.data))
      ensures n < 0 <==> outcome.Failed?
      ensures outcome.Waiting? ==> 0 <= n <= |outcome.bytes| && (n == 0 <==> outcome.bytes == [])
      ensures outcome.Waiting? && n > 0 ==>
                var d := Decode(old(Unparsed()) + outcome.bytes[..n]);
                && Unparsed() == d.rest && delivered == old(delivered) + d.msgs
                && (overrun <==> Classify(d.rest) == Overrun)
                && Sending() == old(Sending()) && closeCalls == old(closeCalls)
      ensures n == 0 ==> Sending() == Output.HandleClose(old(Sending())) && closeCalls == old(closeCalls) + 1
      ensures n < 0 ==> Sending() == old(Sending()) && closeCalls == old(closeCalls)
      ensures n <= 0 ==> Unparsed() == old(Unparsed()) && delivered == old(delivered) && !overrun
    {
      hide Polling.EPollPoller.Valid, Classify, Decode;
      overrun := false;
      n := inputBuffer.ReadFd(outcome);
      if n > 0 {
        overrun := DeliverFrames();
      } else if n == 0 {
        Unit(old(Unparsed()));
        HandleClose();
      }
    }

    method DeliverFrames() returns (overrun: bool)
      requires Valid()
      modifies this`delivered, inputBuffer
      ensures Valid() && Sending() == old(Sending()) && inputBuffer.data == old(inputBuffer.data)
      ensures var d := Decode(old(Unparsed()));
              && Unparsed() == d.rest && delivered == old(delivered) + d.msgs
              && (overrun <==> Classify(d.rest) == Overrun)
    {
      hide Bytes.ReadBe32, Classify, Decode, Polling.EPollPoller.Valid;
      overrun := false;
      ghost var was := Decode(Unparsed());
      ghost var got: seq<Msg> := [];
      Unit(delivered);
      Unit(was.msgs);
      if |Unparsed()| < 4 { LookShort(Unparsed()); }
      while inputBuffer.writer - inputBuffer.reader >= 4
        invariant Valid() && Sending() == old(Sending()) && inputBuffer.data == old(inputBuffer.data)
        invariant delivered == old(delivered) + got && !overrun
        invariant was == Decoded(got + Decode(Unparsed()).msgs, Decode(Unparsed()).rest)
        invariant |Unparsed()| < 4 ==> Classify(Unparsed()) == Short && Decode(Unparsed()) == Decoded([], Unparsed())
        decreases |Unparsed()|
      {
        var len := PeekLength();
        Look(Unparsed(), len, (4 + len) % MOD32);
        var readable := inputBuffer.writer - inputBuffer.reader;
        if readable >= (4 + len) % MOD32 {
          if readable < 4 + len {
            overrun := true;
            break;
          }
          var msg := TakeMessage(len);
          Assoc(old(delivered), got, [msg]);
          Assoc(got, [msg], Decode(Unparsed()).msgs);
          got := got + [msg];
          if |Unparsed()| < 4 { LookShort(Unparsed()); }
        } else {
          break;
        }
      }
      Unit(got);
    }

    method PeekLength() returns (len: nat)
      requires Valid() && |Unparsed()| >= 4
      ensures len == ReadBe32(Unparsed())
    {
      hide Bytes.ReadBe32;
      var header := inputBuffer.data[inputBuffer.reader..inputBuffer.reader + 4];
      len := ReadBe32(header);
      assert Unparsed()[..4] == header[..4];
      HeaderOnly(Unparsed(), header);
    }

    method TakeMessage(len: nat) returns (msg: Msg)
      requires Valid() && 4 + len <= |Unparsed()|
      modifies this`delivered, inputBuffer
      ensures Valid() && Sending() == old(Sending()) && inputBuffer.data == old(inputBuffer.data)
      ensures msg == old(Unparsed())[4..4 + len] && Unparsed() == old(Unparsed())[4 + len..]
      ensures delivered == old(delivered) + [msg]
    {
      hide Polling.EPollPoller.Valid;
      Slide(Unparsed(), 4, len);
      inputBuffer.Retrieve(4);
      msg := inputBuffer.data[inputBuffer.reader..inputBuffer.reader + len];
      inputBuffer.Peeks(len);
      delivered := delivered + [msg];
      inputBuffer.Retrieve(len);
    }
  }
}
