/** `Channel` and `EPollPoller`: three views of one registration, kept in agreement. */
module Polling {

  /** The poll bits, as a set where the source has a bit mask. */
  datatype Bit = IN | PRI | OUT | HUP | RDHUP | ERR | NVAL

  const READ: set<Bit> := {IN, PRI}
  const WRITE: set<Bit> := {OUT}

  datatype Index = New | Added | Deleted
  datatype Op = ADD | MOD | DEL

  /** One entry of the kernel's interest list. */
  datatype Interest = Interest(ptr: Channel, mask: set<Bit>)

  class Channel {
    const fd: int
    const poller: EPollPoller
    var events: set<Bit>
    var revents: set<Bit>
    var index: Index
    var addedToLoop: bool

    constructor (poller: EPollPoller, fd: int)
      requires poller.Valid() && poller.FdFree(fd)
      modifies poller`live
      ensures poller.Valid() && poller.live == old(poller.live) + {this}
      ensures this.poller == poller && this.fd == fd && events == {} && index == New && !addedToLoop
    {
      this.fd, this.poller := fd, poller;
      events, revents, index, addedToLoop := {}, {}, New, false;
      new;
      poller.live := poller.live + {this};
    }

    predicate IsNoneEvent()
      reads this
    {
      events == {}
    }

    predicate IsWriting()
      reads this
    {
      events * WRITE != {}
    }

    predicate IsReading()
      reads this
    {
      events * READ != {}
    }

    /** The registration of this channel and of no other is brought up to date with its mask. */
    method Update()
      requires poller.ValidBut(this)
      modifies this`addedToLoop, this`index, poller`channels, poller`kernel, poller`refused
      ensures poller.Valid() && addedToLoop
    {
      addedToLoop := true;
      poller.UpdateChannel(this);
    }

    method EnableReading()
      requires poller.Valid() && this in poller.live
      modifies this, poller
      ensures poller.Valid() && poller.live == old(poller.live) && events == old(events) + {IN, PRI} && addedToLoop
      ensures revents == old(revents)
    {
      events := events + READ;
      Update();
    }

    method DisableReading()
      requires poller.Valid() && this in poller.live
      modifies this, poller
      ensures poller.Valid() && poller.live == old(poller.live) && events == old(events) - {IN, PRI} && addedToLoop
      ensures revents == old(revents)
    {
      events := events - READ;
      Update();
    }

    method EnableWriting()
      requires poller.Valid() && this in poller.live
      modifies this, poller
      ensures poller.Valid() && poller.live == old(poller.live) && events == old(events) + {OUT} && addedToLoop
      ensures revents == old(revents)
    {
      events := events + WRITE;
      Update();
    }

    method DisableWriting()
      requires poller.Valid() && this in poller.live
      modifies this, poller
      ensures poller.Valid() && poller.live == old(poller.live) && events == old(events) - {OUT} && addedToLoop
      ensures revents == old(revents)
    {
      events := events - WRITE;
      Update();
    }

    method DisableAll()
      requires poller.Valid() && this in poller.live
      modifies this, poller
      ensures poller.Valid() && poller.live == old(poller.live) && events == {} && addedToLoop
      ensures revents == old(revents)
    {
      events := {};
      Update();
    }

    /** The caller must have disabled all events and must have registered the channel before. */
    method Remove()
      requires poller.Valid() && this in poller.live && IsNoneEvent() && addedToLoop
      modifies this, poller
      ensures poller.Valid() && poller.live == old(poller.live)
      ensures index == New && !addedToLoop && events == {} && fd !in poller.channels && fd !in poller.kernel
    {
      addedToLoop := false;
      poller.RemoveChannel(this);
    }

    /** The destructor: the object may go once it is no longer added to the loop. */
    method Release()
      requires poller.Valid() && this in poller.live && !addedToLoop
      modifies poller`live
      ensures poller.Valid() && poller.live == old(poller.live) - {this} && poller.FdFree(fd)
      ensures !(fd in poller.channels)
    {
      poller.live := poller.live - {this};
    }
  }

  class EPollPoller {
    var channels: map<int, Channel>
    /** The kernel's interest list behind `epollfd_`, changed by `epoll_ctl` only. */
    var kernel: map<int, Interest>
    /** How many `epoll_ctl` calls the kernel has refused (EEXIST, ENOENT). */
    ghost var refused: nat
    /** The channel objects of this loop that exist; their descriptors are distinct. */
    ghost var live: set<Channel>

    /** Index, map and kernel list tell the same story about `c`, the kernel mask apart. */
    ghost predicate Placed(c: Channel)
      reads this, c
    {
      && (c.index == New <==> c.fd !in channels)
      && (c.index == Added <==> c.fd in kernel)
      && (c.fd in kernel ==> kernel[c.fd].ptr == c)
    }

    ghost predicate Agrees(c: Channel)
      reads this, c
    {
      && Placed(c)
      && (c.addedToLoop <==> c.index != New)
      && (c.fd in kernel ==> kernel[c.fd].mask == c.events)
      && (c.index == Deleted ==> c.events == {})
    }

    ghost predicate Maps()
      reads this, live
    {
      && (forall c <- live :: c.poller == this)
      && (forall c <- live, d <- live :: c.fd == d.fd ==> c == d)
      && (forall fd <- channels :: channels[fd] in live && channels[fd].fd == fd)
      && (forall fd <- kernel :: fd in channels)
      && refused == 0
    }

    ghost predicate Valid()
      reads this, live
    {
      Maps() && forall c <- live :: Agrees(c)
    }

    /** All agree but `c`, whose mask or flag has just been changed. */
    ghost predicate ValidBut(c: Channel)
      reads this, live
    {
      Maps() && c in live && Placed(c) && forall d <- live :: d != c ==> Agrees(d)
    }

    ghost predicate FdFree(fd: int)
      reads this, live
    {
      forall c <- live :: c.fd != fd
    }

    constructor ()
      ensures Valid() && live == {} && channels == map[] && kernel == map[]
    {
      channels, kernel, refused, live := map[], map[], 0, {};
    }

    /** `update`: `epoll_ctl`, which adds what is absent and changes or deletes what is present. */
    method Control(op: Op, c: Channel)
      modifies `kernel, `refused
      ensures if op == ADD <==> c.fd in old(kernel)
              then refused == old(refused) + 1 && kernel == old(kernel)
              else refused == old(refused)
                   && kernel == if op == DEL then old(kernel) - {c.fd} else old(kernel)[c.fd := Interest(c, c.events)]
    {
      if op == ADD <==> c.fd in kernel {
        refused := refused + 1;
      } else if op == DEL {
        kernel := kernel - {c.fd};
      } else {
        kernel := kernel[c.fd := Interest(c, c.events)];
      }
    }

    /** Registers, changes or suspends `c` according to its index and mask, and never asks the kernel
        for something it refuses. */
    method UpdateChannel(c: Channel)
      requires ValidBut(c) && c.addedToLoop
      modifies `channels, `kernel, `refused, c`index
      ensures Valid()
      ensures c.index == if old(c.index) == Added && c.events == {} then Deleted else Added
      ensures channels == old(channels)[c.fd := c]
      ensures forall fd :: fd != c.fd ==> (fd in kernel <==> fd in old(kernel))
    {
      if c.index == New || c.index == Deleted {
        if c.index == New {
          assert c.fd !in channels;
          channels := channels[c.fd := c];
        } else {
          assert c.fd in channels && channels[c.fd] == c;
        }
        c.index := Added;
        Control(ADD, c);
      } else {
        assert c.fd in channels && channels[c.fd] == c && c.index == Added;
        if c.events == {} {
          Control(DEL, c);
          c.index := Deleted;
        } else {
          Control(MOD, c);
        }
      }
    }

    method RemoveChannel(c: Channel)
      requires ValidBut(c) && c.index != New && c.events == {} && !c.addedToLoop
      modifies `channels, `kernel, `refused, c`index
      ensures Valid() && c.index == New
      ensures channels == old(channels) - {c.fd} && c.fd !in kernel
    {
      assert c.fd in channels && channels[c.fd] == c;
      channels := channels - {c.fd};
      if c.index == Added {
        Control(DEL, c);
      }
      c.index := New;
    }

    method HasChannel(c: Channel) returns (b: bool)
      requires Valid() && c in live
      ensures b == (c.index != New) == c.addedToLoop
    {
      b := c.fd in channels && channels[c.fd] == c;
    }

    /** What `epoll_wait` reports: registered descriptors, each once, with the bits that are ready. */
    ghost predicate Reported(ready: seq<(int, set<Bit>)>)
      reads this
    {
      && (forall i :: 0 <= i < |ready| ==> ready[i].0 in kernel)
      && (forall i, j :: 0 <= i < j < |ready| ==> ready[i].0 != ready[j].0)
    }

    /** `c` is the registered object of the descriptor reported, and has been told the bits. */
    ghost predicate Told(c: Channel, report: (int, set<Bit>))
      reads this, c
    {
      c.addedToLoop && c.fd == report.0 && c.fd in channels && channels[c.fd] == c && c.revents == report.1
    }

    /** The active channels are the registered objects of the descriptors reported, in order, each
        told its bits. The source's assertions against the map hold. */
    method FillActiveChannels(ready: seq<(int, set<Bit>)>, active: seq<Channel>) returns (all: seq<Channel>)
      requires Valid() && Reported(ready)
      modifies live`revents
      ensures Valid()
      ensures |all| == |active| + |ready| && all[..|active|] == active
      ensures forall j :: |active| <= j < |all| ==> all[j] in live && Told(all[j], ready[j - |active|])
    {
      all := active;
      var i := 0;
      while i < |ready|
        invariant i <= |ready| && Valid() && Reported(ready)
        invariant |all| == |active| + i && all[..|active|] == active
        invariant forall j :: |active| <= j < |all| ==> all[j] in live && Told(all[j], ready[j - |active|])
      {
        var fd := ready[i].0;
        assert fd in channels && channels[fd] in live && Agrees(channels[fd]);
        var c := kernel[fd].ptr;
        assert c == channels[fd];
        forall j | |active| <= j < |all| ensures all[j] != c {
          assert ready[j - |active|].0 != fd;
        }
        c.revents := ready[i].1;
        all := all + [c];
        i := i + 1;
      }
    }
  }
}
