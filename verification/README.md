# A verified model of the net-disk server and its client

The repository is a file server and its command-line client on top of a small reactor library. This
project models both in Dafny, in four layers that are proved one by one and then joined:

1. **Bytes.** `Buffers` is the growing byte buffer, in place on an array. `Framing` is the
   four-byte length prefix, `Output` the sending half of a connection as a state machine, `Connection`
   the class that runs it over real buffers and a registered channel. `EndToEnd` joins a sending half, the
   bytes on their way and a receiving half.
2. **Session.** `Session` holds the two state machines: registration, two-step login, commands with one
   operand, uploads (`puts`, the client sends everything and goes on) and downloads (`gets`, the server
   pumps, the client acknowledges). `ServerSession` and `ClientSession` are the same machines as the
   classes that update connection fields. `System` joins them by two FIFO queues and proves an invariant;
   `Protocol` draws the theorems about whole runs from it; `Network` shows that the session over real
   connections, with partial writes and arbitrary fragmentation, is a run of the session over FIFO queues.
   `Intents` states what each step does in the words of the protocol: what was typed, what database and file
   system answered, what the other side then reads back. `Observer` carries this over whole runs: one who sees
   the inputs and the states, but no message, knows what both sides have.
   `Limits` and `Strays` say where the code stops meeting its promise, and exactly when: runs that stop the
   server process, and runs with files that do not come through.
3. **Event loop.** `EventLoops` is the hand-over of functors between threads and the conditional wakeup,
   as interleaved atomic steps, and the loop's own methods, each of which is shown to be a sequence of
   those steps. `Polling` keeps a channel's index, the poller's map and the kernel's interest list in
   agreement.
4. **Life cycle.** `Lifecycle` follows every connection over the base loop and the I/O loops through
   their functor queues; `TcpServers` is the server's table and the round robin of loops. `Reactor` puts
   the event loops of layer 3 under those queues and proves that every functor queued is called.

`Tokens`, `Path`, `Home`, `Listing`, `Registration` and `Transfer` are the command line, the `cd` path and
where it leads, the directory listing, the registration message and the cutting of files; `Bytes` and `Seqs` hold integers in memory, C strings and sequence laws.

## How to read it

- Nothing on the wire tells what kind a message is. In the session model a message carries, next to its
  bytes, the state in which its sender means it to be read (`want`). No receiver looks at it; the main
  theorem, `Protocol.NoMisreading`, says that it always equals the state the receiver is in.
- The lists `asked`, `sent`, `offered`, `stored`, `fetched` and `cds` in the two sessions are records for the
  theorems. `Observer.RunAgrees` shows that `asked`, `sent`, `offered` and `cds` are what the user typed and the
  file system answered; `stored` and `fetched` are the bytes written, up to the last message of each transfer
  (`Intents.ServerStores`, `Intents.ClientWorks`).
- What the kernel, the file system, the database, `crypt` and the user do are parameters: `KernelWrite`
  and `ReadOutcome` (any partial write, any read, any error), `Answers` (database and directory results),
  `Typed` (the line and what the prompts ask for), `digest` (the result of `crypt`).
- Raw integers in memory are little-endian two's complement of 4 and 8 bytes, as on x86-64. A read past
  the end of a short message yields zeros in the model; `Protocol.NoMisreading` gives the lengths that rule
  such a read out in reachable states.
- Some preconditions restrict inputs. A file that is empty or holds a NUL byte does not come through
  (`Transfer.Carriable`): `Strays.AgreementIff` shows over whole runs that this is exact. `Tokens.HasWord` (a
  keyboard line that is not blank): trimming a blank line calls `back()` on an empty string
  (`Tokens.BlankIff`). `Lifecycle.Assumed` is the exact condition under which the assertions of the life
  cycle hold (`Lifecycle.AssertionsHoldIff`). Payloads of at most 2^32-5 bytes: `Framing.NeverOverrunsIff` is
  exact. `Registration.Fits` (account fields shorter than 2^31 bytes) is not exact: an over-long last field is
  clipped by `substr` and still read back. The client's own fields are far shorter: a name from an array of
  128 bytes, a salt of 11, a digest of 86.
- The server process can be stopped in two ways, and no step of the server follows either. If it reads the
  acknowledgement of a download before the last run of `handleGets`, it destroys a channel that is still
  registered, and the assertion at `server/src/Channel.cc:26` fails (`torn`). And a handler may throw, read a
  directory that could not be opened, or print or copy past one of its arrays, which is undefined from there
  (`crashed`; `Session.Survives` lists what each handler needs). A step that does neither is `System.Sound`;
  `Protocol.AliveIff` says over whole runs that this is exact, `Limits.TornReached`, `Limits.LongNameStops` and
  `Limits.MissingDirectoryStops` that such runs exist within what the client accepts. Completion
  (`Protocol.EveryCommandCompletes`, `Network.CommandsCompleteOverNetwork`) is proved for sound schedules,
  which exist whenever the account or user name that the user gave fits its query (`Protocol.Clear`).
- What a functor does is seen by its loop as the functors it queues, any number and itself included
  (`EventLoops`); what it does to connections is joined to that in `Reactor`.
- `Typed.line` is what `fgets` has left once the newline is cut off. The model takes any byte string there,
  the source at most 126 bytes.
- Where comment and code disagree the code is followed: the comment at `server/src/TcpConnection.h:94`
  says that `0` means login and `1` registration; the code has it the other way round on both sides.
- The command table of `readme.md` says that `cd ..` enters the parent directory. The code keeps the
  operand of `cd` as it was typed, so going back is exact only for operands without a slash
  (`Path.UndoIff`); for these the path is a stack of names (`Path.HistoryRefinesStack`), otherwise a list of
  components (`Home.HistoryRefinesList`).
- Section 1.1 of `readme.md` says that a user sees only his own files. `Home.HistoryStaysIff` says exactly for
  which histories of `cd` the working directory stays inside the user's own; links in the file system and
  slashes in the operands of other commands are left aside.

## Model

| member | source | states |
|---|---|---|
| Bytes.Be32RoundTrip | server/src/TcpConnection.cc:80-81 | the length that `send` writes with `htobe32` is the one `be32toh` reads, for every 32-bit value |
| Bytes.Be32Digits | server/src/TcpConnection.cc:80-81 | network order: each further digit of the length stands behind the others, from four zeros for zero |
| Bytes.ReadBe32Inverse | server/src/TcpConnection.cc:286-288 | re-encoding the length read gives the four header bytes back, so no header is ambiguous |
| Bytes.HostIntRoundTrip | server/src/EchoServer_unittest.cc:119-120 | an `int` or `long` sent as raw memory is read back unchanged through a cast of `c_str()`, negative values included and whatever bytes follow |
| Bytes.LeDigits | server/src/EchoServer_unittest.cc:119-120 | host order: each further digit of a raw integer stands in front of the others |
| Bytes.HostIntSpells | server/src/EchoServer_unittest.cc:90-98 | a negative raw integer is spelled as the one larger by 256 to the width, zero is all zeros and -1 all 255 |
| Bytes.CStr | client/src/EchoClient_unittest.cc:154-155 | `string(buf)` is the part before the first NUL: all of the bytes exactly if there is no NUL |
| Buffers.Buffer.constructor | server/src/Buffer.h:27-35 | a new buffer is empty, with the prepend area in front and the size asked for behind |
| Buffers.Buffer.Retrieve | server/src/Buffer.h:92-103 | drops exactly the first `len` readable bytes; emptying resets both indices |
| Buffers.Buffer.RetrieveAll | server/src/Buffer.h:132-136 | empties the buffer and gives the prepend area back |
| Buffers.Buffer.RetrieveAsString | server/src/Buffer.h:143-149 | returns the first `len` bytes and leaves the others |
| Buffers.Buffer.Append | server/src/Buffer.h:161-180 | the content grows at the end by exactly the bytes given, whether the array is kept, compacted or grown; over any sequence of calls the size stays within max(base, 2P+7), P the peak of readable bytes |
| Buffers.Buffer.Write | server/src/Buffer.h:164-165 | the copy into the tail together with `hasWritten`: nothing readable changes, the new bytes follow |
| Buffers.Buffer.Unwrite | server/src/Buffer.h:194-198 | takes back exactly the last `len` bytes |
| Buffers.Buffer.Prepend | server/src/Buffer.h:200-206 | the content grows at the front by the bytes given, in the same array |
| Buffers.Buffer.Shrink | server/src/Buffer.h:208-215 | same content in a fresh array, with at least `reserve` bytes to spare and its exact size |
| Buffers.Buffer.MakeSpace | server/src/Buffer.h:236-255 | which branch is taken and what it does: content kept, room for `len`, prepend area restored when moved; the assertion of the moving branch follows from the test; a grown array stays below twice the wanted content plus 8 |
| Buffers.Buffer.Resize | server/src/Buffer.h:241 | growing the vector keeps the old elements and the indices |
| Buffers.Buffer.MoveToFront | server/src/Buffer.h:248-250 | the overlapping forward copy moves the readable bytes intact |
| Buffers.Buffer.ReadFd | server/src/Buffer.cc:13-45 | appends exactly the first n bytes waiting on the socket, n being all of them unless 64 KiB or more were taken; an error changes nothing; the spill buffer keeps the order |
| Framing.Look | server/src/TcpConnection.cc:285-296 | one round of the loop in `handleRead`: stop, overrun, or deliver one message and go on with the rest |
| Framing.OverrunIff | server/src/TcpConnection.cc:288-289 | the guard passes a frame that is not there yet exactly if the announced length exceeds 2^32-5 (the 32-bit sum wraps) and the frame is incomplete |
| Framing.DecodeWhole | server/src/TcpConnection.cc:289-294 | a complete frame at the front is delivered whatever follows it |
| Framing.DecodeAppend | server/src/TcpConnection.cc:285-296 | parsing may stop anywhere and resume from what is left in `inputBuffer_` |
| Framing.FragmentationIndependent | server/src/TcpConnection.cc:278-297 | for every stream on which no wrapped length check lets a frame through early (`Framing.NeverOverrunsIff`) and every split of it into reads, the messages and the leftover are those of parsing the stream in one piece |
| Framing.DecodeReprints | server/src/TcpConnection.cc:285-296 | framing the delivered messages again and adding the leftover restores the stream byte for byte |
| Framing.DecodeUnique | server/src/TcpConnection.cc:285-297 | any way of reading a stream as frames and an unfinished tail is the way it is parsed |
| Framing.DecodePartial | server/src/TcpConnection.cc:289-295 | a proper part of a frame that `send` can produce delivers nothing and never wraps |
| Framing.DecodePrefix | server/src/TcpConnection.cc:285-297 | whatever part of a sent stream has arrived, the messages found are the first ones sent, and all of them once everything is there |
| Framing.NeverOverrunsIff | server/src/TcpConnection.cc:285-296 | no way of cutting a stream into reads makes the loop read past its buffer exactly if the stream announces no length above 2^32-5 |
| Output.StepConserves | server/src/TcpConnection.cc:106-159 | every event of the sending half keeps: bytes written + `outputBuffer_` = frames taken over, and write interest is set exactly while bytes are buffered |
| Output.SendConserves | server/src/TcpConnection.cc:117-158 | the same for `sendInLoop` under every result of the direct write |
| Output.WriteConserves | server/src/TcpConnection.cc:310-347 | the same for `handleWrite` under every partial write |
| Output.RunConserves | server/src/TcpConnection.cc:76-200 | the same in every state of every run, any mix of events and kernel answers |
| Output.SendFate | server/src/TcpConnection.cc:76-159 | a message is refused unless the connection is up, lost whole exactly on EPIPE or ECONNRESET of a direct write, and otherwise taken over whole |
| Output.SendWrites | server/src/TcpConnection.cc:106-158 | which bytes go where: a frame sent while something waits goes behind it, otherwise what the kernel does not take of it waits |
| Output.WriteTakes | server/src/TcpConnection.cc:310-320 | a write event hands the kernel what waits, from the front, as far as it takes it |
| Output.RequestIff | server/src/TcpConnection.cc:89-97 | a send on another thread leaves one functor with its message exactly if the connection is up, and touches nothing else |
| Output.RequestFate | server/src/TcpConnection.cc:106-143 | when that functor runs, its message is dropped after the disconnection, lost if the direct write fails for good, and taken over otherwise |
| Output.StepGraceful | server/src/TcpConnection.cc:161-180 | the write side is closed at most once, only with an empty buffer and as soon as that holds after `shutdown`; every event but a late queued frame keeps this |
| Output.ShutdownHappens | server/src/TcpConnection.cc:161-180 | `shutdown` of a connection that is up closes the write side at once exactly if nothing waits |
| Output.ShutdownFinishes | server/src/TcpConnection.cc:321-332 | otherwise the write event that takes the last byte closes it |
| Output.DownIff | server/src/TcpConnection.cc:182-276 | which events take a connection down and which leave it up; a forced close leaves one functor |
| Output.ShutdownFinal | server/src/TcpConnection.cc:321-332 | over whole runs without such a late frame: once the write side is closed, every message taken over has been written in full and nothing is written or taken over any more |
| Output.ShutdownFinalIff | server/src/TcpConnection.cc:161-180 | exact over whole runs: from the moment the write side is closed nothing is written, taken over or closed again if and only if no late frame comes |
| Output.LateReached | server/src/TcpConnection.cc:89-97 | concrete failure: an empty message queued by another thread before `shutdown` is written after the write side was closed |
| Output.QueuedAfterShutdown | server/src/TcpConnection.cc:89-97 | exact for one event: after the closing of the write side, written bytes, messages taken over and number of closings stay as they are unless another thread's frame arrives before the disconnection and its write does not fail for good; bytes are written exactly if the kernel takes one of such a frame |
| Output.HighWaterIff | server/src/TcpConnection.cc:144-152 | a high-water notice is queued exactly by an event that lifts the buffered bytes from below the mark to the mark or above |
| Output.HighWaterEdges | server/src/TcpConnection.cc:146-152 | between two high-water notices of a run the buffered bytes were below the mark |
| Output.WriteCompleteIff | server/src/TcpConnection.cc:121-128 | a write-complete notice is queued exactly when the kernel has just taken bytes and nothing is left to write |
| Connection.TcpConnection.constructor | server/src/TcpConnection.cc:24-50 | a new connection is the initial state of the sending half, with an unregistered channel and empty buffers |
| Connection.TcpConnection.Send | server/src/TcpConnection.cc:76-99 | `send`, over the real buffers and the real channel, is the `Send` step of the proved state machine on the loop thread and queues the frame on any other; the receiving half is untouched |
| Connection.TcpConnection.MakeFrame | server/src/TcpConnection.cc:78-81 | appending the payload to a fresh buffer and prepending its length gives the frame |
| Connection.TcpConnection.Queue | server/src/TcpConnection.cc:89-97 | a send on another thread leaves exactly one functor with the payload, for the `Queued` event |
| Connection.TcpConnection.SendInLoop | server/src/TcpConnection.cc:106-159 | `sendInLoop` on one frame is the `SendFrame` step |
| Connection.TcpConnection.TryDirectly | server/src/TcpConnection.cc:117-158 | with nothing waiting, the frame is lost whole on EPIPE or ECONNRESET, and otherwise written or kept byte for byte |
| Connection.TcpConnection.WriteDirectly | server/src/TcpConnection.cc:117-141 | the direct write: bytes taken, and the notice if they were all |
| Connection.TcpConnection.KeepRest | server/src/TcpConnection.cc:144-158 | the rest goes to the output buffer, with the high-water notice and write interest |
| Connection.TcpConnection.WriteAndKeepRest | server/src/TcpConnection.cc:117-158 | both together lose no byte between the wire and the buffer |
| Connection.TcpConnection.HandleWrite | server/src/TcpConnection.cc:310-347 | a write event is the `HandleWrite` step, in place on the same array |
| Connection.TcpConnection.StopWriting | server/src/TcpConnection.cc:321-332 | with everything written: no more write events, the notice, and the pending shutdown |
| Connection.TcpConnection.Shutdown | server/src/TcpConnection.cc:161-170 | `shutdown` on the loop thread is the `Shutdown` step |
| Connection.TcpConnection.ShutdownInLoop | server/src/TcpConnection.cc:172-180 | closes the write side unless a write is outstanding |
| Connection.TcpConnection.ForceClose | server/src/TcpConnection.cc:182-190 | queues one close request and starts disconnecting, or does nothing |
| Connection.TcpConnection.ForceCloseInLoop | server/src/TcpConnection.cc:192-200 | closes exactly if the connection is still up, calling the close callback once |
| Connection.TcpConnection.HandleClose | server/src/TcpConnection.cc:349-362 | under the source's assertion: all events disabled in the poller, both callbacks once, buffers kept |
| Connection.TcpConnection.ConnectEstablished | server/src/TcpConnection.cc:254-263 | under the source's assertion: connected, callback once, and the kernel has the descriptor in its list with IN and PRI |
| Connection.TcpConnection.KernelAsks | server/src/TcpConnection.cc:144-158 | while a connection is up the kernel watches its descriptor for IN and PRI, and for OUT exactly while bytes are waiting to be written |
| Connection.TcpConnection.ConnectDestroyed | server/src/TcpConnection.cc:265-276 | the channel leaves the poller's map and the kernel list |
| Connection.TcpConnection.HandleRead | server/src/TcpConnection.cc:278-308 | a read event delivers the messages of the reference parse of old leftover + bytes read and keeps its rest; end of stream closes; an error changes nothing |
| Connection.TcpConnection.DeliverFrames | server/src/TcpConnection.cc:285-296 | the loop: messages and leftover are those of the reference parse; it ends because every round removes a whole frame |
| Connection.TcpConnection.PeekLength | server/src/TcpConnection.cc:286-288 | reads the big-endian length at the front without consuming it |
| Connection.TcpConnection.TakeMessage | server/src/TcpConnection.cc:290-293 | delivers exactly the payload and consumes header and payload |
| EndToEnd.WireGrows | server/src/TcpConnection.cc:120-123 | bytes the kernel has taken are never taken back |
| EndToEnd.NextOk | server/src/TcpConnection.cc:278-347 | every event at the sender and every arrival keeps: what was read is a prefix of what was written, and the receiver's state is its parse |
| EndToEnd.RunOk | server/src/TcpConnection.cc:76-347 | the same in every state of every run |
| EndToEnd.LinkDelivers | server/src/TcpConnection.cc:285-296 | delivered messages are a prefix of those taken over; with nothing buffered or in flight they are all of them |
| EndToEnd.DeliveredInOrder | server/src/TcpConnection.cc:76-347 | over any partial writes, fragmentation and write errors, delivered messages are, in order and uncut, the first of those `sendInLoop` took over, and all of them once every buffer is empty |
| Polling.Channel.constructor | server/src/Channel.cc:10-21 | a new channel is unknown to poller and kernel and keeps all registrations in agreement |
| Polling.Channel.Update | server/src/Channel.cc:39-43 | brings map, index and kernel mask of this channel back into agreement |
| Polling.Channel.EnableReading | server/src/Channel.h:41 | adds IN and PRI, nothing else, and the three views agree |
| Polling.Channel.DisableReading | server/src/Channel.h:42 | removes the read bits, nothing else, and the three views agree |
| Polling.Channel.EnableWriting | server/src/Channel.h:43 | adds the write bit, nothing else, and the three views agree |
| Polling.Channel.DisableWriting | server/src/Channel.h:44 | removes the write bit, nothing else, and the three views agree |
| Polling.Channel.DisableAll | server/src/Channel.h:45 | clears the mask, and the three views agree |
| Polling.Channel.Remove | server/src/Channel.cc:45-50 | under the source's assertion the channel is out of index, map and kernel list |
| Polling.Channel.Release | server/src/Channel.cc:23-31 | the destructor's assertion: a channel not added to the loop is not in the map |
| Polling.EPollPoller.constructor | server/src/EPollPoller.cc:19-28 | an empty poller is in agreement |
| Polling.EPollPoller.Control | server/src/EPollPoller.cc:150-169 | `epoll_ctl`: ADD of a present or MOD/DEL of an absent descriptor is refused and counted, otherwise the kernel list changes at that descriptor only |
| Polling.EPollPoller.UpdateChannel | server/src/EPollPoller.cc:86-127 | all assertions hold, no call is refused, and afterwards every channel's index, map entry and kernel entry with mask agree |
| Polling.EPollPoller.RemoveChannel | server/src/EPollPoller.cc:129-148 | all assertions hold, no call is refused, and the descriptor is gone from map and kernel list |
| Polling.EPollPoller.HasChannel | server/src/EPollPoller.cc:171-176 | the map lookup answers what index and `addedToLoop_` say |
| Polling.EPollPoller.FillActiveChannels | server/src/EPollPoller.cc:69-84 | the assertions against the map hold, and the active list is the registered objects of the reported descriptors, in order, each told its bits |
| Tokens.SkipSpaces | server/src/EchoServer_unittest.cc:113 | the loop stops at the first character that is not a space |
| Tokens.PushWord | server/src/EchoServer_unittest.cc:114 | the loop collects exactly the run up to the next space |
| Tokens.TokeniseIff | server/src/EchoServer_unittest.cc:110-116 | any cut of a line into maximal runs of spaces and words is the cut the loops find |
| Tokens.TokeniseWords | client/src/TcpConnection.cc:477-485 | against a definition of the list of words without indices: command and parameter are the first two words, and the last index stops short exactly if there is a third |
| Tokens.TokenisePrinted | server/src/EchoServer_unittest.cc:113-116 | a command, one space and an operand are read back as that command and operand |
| Tokens.TokeniseWord | server/src/EchoServer_unittest.cc:113-116 | a single word is a command without operand |
| Tokens.SingleWord | client/src/TcpConnection.cc:467-471 | the comparison of a whole trimmed line with a word is the comparison of its list of words |
| Tokens.TrimKeepsWord | client/src/TcpConnection.cc:462-464 | trimming a line that is not blank leaves something without a space at either end |
| Tokens.TrimKeepsWords | client/src/TcpConnection.cc:462-464 | and loses no word of the line |
| Tokens.BlankIff | client/src/TcpConnection.cc:463 | the trimming loop runs out of characters exactly for a blank line |
| Path.Cd | server/src/EchoServer_unittest.cc:126-148 | the path keeps beginning and ending with a slash, so `back()` is never called on an empty string |
| Path.PopToSlash | server/src/EchoServer_unittest.cc:136 | the popping loop stops at the last slash and does not empty a string that has one |
| Path.PopExact | server/src/EchoServer_unittest.cc:133-137 | `..` removes exactly what follows the slash before the last |
| Path.CdRefinesStack | server/src/EchoServer_unittest.cc:126-148 | `cd` with an operand without slash is push, pop, clear or nothing on a stack of names |
| Path.HistoryRefinesStack | server/src/EchoServer_unittest.cc:91 | after any history of such commands since login the string spells the stack |
| Path.CdAllOneMore | server/src/EchoServer_unittest.cc:126-148 | the path after a history of `cd` commands and one more is that one applied to the path after the history |
| Path.UndoIff | server/src/EchoServer_unittest.cc:133-146 | `cd x` then `cd ..` comes back exactly if x holds no slash |
| Home.CdRefinesList | server/src/EchoServer_unittest.cc:126-148 | for every operand, slashes included, `cd` moves the path string as it moves a list of components |
| Home.HistoryRefinesList | server/src/EchoServer_unittest.cc:91-146 | after any history of `cd` commands since login the string spells that list |
| Home.HomeIff | readme.md:42 | with its `..` components resolved the path stays inside the directory it starts from, whatever that is, exactly if no part of it leads above the start |
| Home.StepStaysIff | server/src/EchoServer_unittest.cc:140-146 | one `cd` keeps the path inside exactly if its operand does not climb further than the path has come |
| Home.HistoryStaysIff | server/src/EchoServer_unittest.cc:126-148 | exact over all histories: the user stays inside his own directory, as the manual promises, if and only if no `cd` that is carried out climbs further than the path has come |
| Home.LeavesHome | server/src/EchoServer_unittest.cc:140-146 | concrete failure: `cd ../b` from the user's own directory is carried out and leads to the directory of user b |
| Registration.RoundTrip | server/src/EchoServer_unittest.cc:206-213 | unpacking what the client packs gives the same name, salt and digest, for all byte strings shorter than 2^31 |
| Registration.PackLayout | client/src/TcpConnection.cc:419-424 | where the fields stand: three lengths of four bytes, then name, salt and digest in this order |
| Registration.UnpackIff | server/src/EchoServer_unittest.cc:206-213 | what any message of at least 12 bytes is read as, negative lengths included: `substr` does not throw exactly if the fields begin between the third length and the end, and then gives these parts |
| Listing.MyLs | server/src/dirOp.cc:40-61 | the loop builds the listing, or stops where `readdir` gets no directory or a line or path does not fit the array of 288 bytes |
| Listing.OnlyNewlineDropped | server/src/dirOp.cc:59 | what `pop_back` takes off the listing is the newline after the last entry |
| Listing.OneEntry | server/src/dirOp.cc:40-61 | the listing of one entry spells its printed fields, a space and its name |
| Listing.EntryAppends | server/src/dirOp.cc:40-61 | entries stand in the order read: a further one is added on a line of its own, unless it is `.` or `..` |
| Listing.StopsIff | server/src/dirOp.cc:40-61 | exact: `ls` stops the process if and only if the directory cannot be opened or the path or line of an entry other than `.` and `..` does not fit 288 bytes with the final NUL |
| Transfer.ChunksCarry | client/src/EchoClient_unittest.cc:147-159 | the pieces sent are the file exactly if it holds no NUL byte, and then none is empty; otherwise bytes are missing |
| Transfer.ChunkSizes | client/src/EchoClient_unittest.cc:147-159 | a file without NUL goes out in pieces of 8191 bytes, of which the last alone may be shorter |
| Transfer.ClosesAtLast | server/src/EchoServer_unittest.cc:187-194 | a receiver owed what the pieces hold is open before the last of them and closed after it |
| Transfer.StaysOpen | server/src/EchoServer_unittest.cc:188-193 | a receiver owed more than it gets never leaves its transfer state |
| Transfer.TransferEndsIff | client/src/EchoClient_unittest.cc:181-196 | the receiver leaves its transfer state exactly for files that are not empty and hold no NUL |
| Transfer.EmptyFileStalls | client/src/EchoClient_unittest.cc:153-159 | concrete failure: an empty file sends nothing and the receiver waits |
| Transfer.NulFileStalls | client/src/EchoClient_unittest.cc:154-155 | concrete failure: a file of one NUL byte is sent as an empty message and the receiver waits |
| ServerSession.SplitCommand | server/src/EchoServer_unittest.cc:110-116 | the four loops in sequence are the tokeniser |
| ServerSession.GoUp | server/src/EchoServer_unittest.cc:134-137 | the loop for `..` ends and yields the parent of the path model |
| ServerSession.Connection.constructor | server/src/TcpConnection.cc:32 | a new server session is in its initial state |
| ServerSession.Connection.OnMessage | server/src/EchoServer_unittest.cc:59-204 | the message callback, updating the connection's fields, is one step of the server machine of the protocol theorems: whole new state, all replies, and whether the handler survives; what that step does is stated by `Intents.ServerAnswers`, `Intents.ServerTalks` and `Intents.ServerStores` from the words and answers alone |
| ServerSession.Connection.HandleCommand | server/src/EchoServer_unittest.cc:100-180 | the same for one command of a logged-in user, `ls` in a directory that cannot be listed included; what that step does is stated by `Intents.ServerAnswers` from the words and answers alone |
| ServerSession.Connection.HandleOperand | server/src/EchoServer_unittest.cc:109-179 | the commands with an operand; what that step does is stated by `Intents.ServerAnswers` from the words and answers alone |
| ServerSession.Connection.HandleLs | server/src/EchoServer_unittest.cc:105-107 | `ls` sends the listing of the user's directory, or stops the process |
| ServerSession.Connection.BeginPuts | server/src/EchoServer_unittest.cc:149-156 | an upload is granted exactly for a name that does not exist |
| ServerSession.Connection.BeginGets | server/src/EchoServer_unittest.cc:157-178 | a download is granted exactly for a name that exists and is no directory, and its size is the result |
| ServerSession.Connection.LookUpSalt | server/src/EchoServer_unittest.cc:71-80 | the user name is kept and answered with the salt; the query and its result must fit their arrays |
| ServerSession.Connection.CheckSecret | server/src/EchoServer_unittest.cc:81-99 | the digest is compared with the stored one; the query and its result must fit their arrays |
| ServerSession.Connection.HandleDialogue | server/src/EchoServer_unittest.cc:62-99 | registration and login are steps of the server machine |
| ServerSession.Connection.HandleCd | server/src/EchoServer_unittest.cc:126-148 | the path moves as the path model says, the command is recorded, and the reply is -1 only for a directory that cannot be opened |
| ServerSession.Connection.AwaitFile | server/src/EchoServer_unittest.cc:181-186 | the size of an upload is read and the client told to go on |
| ServerSession.Connection.EndGets | server/src/EchoServer_unittest.cc:195-202 | an acknowledgement ends the download and the pump's channel, anything else changes nothing |
| ServerSession.Connection.ChangeDirectory | server/src/EchoServer_unittest.cc:126-148 | the `cd` branch moves the path as the path model says, and reports -1 only for a directory that cannot be opened |
| ServerSession.Connection.StoreData | server/src/EchoServer_unittest.cc:187-194 | one data message of an upload |
| ServerSession.Connection.HandleRegister | server/src/EchoServer_unittest.cc:206-223 | registers the account that the message unpacks to and replies once, if the insert statement fits its array; otherwise, and where `substr` throws, the process is stopped |
| ServerSession.SubStr | server/src/EchoServer_unittest.cc:211-213 | throws exactly for a position beyond the end, and yields at most what is there |
| ServerSession.ReadFields | server/src/EchoServer_unittest.cc:207-213 | the three length reads and the three `substr` calls, in order, are the unpacking function whose round trip is proved |
| ServerSession.Connection.HandleGets | server/src/TcpConnection.cc:370-383 | one run of the pump: next piece, count, or removal of the channel |
| ClientSession.TrimLine | client/src/TcpConnection.cc:462-464 | the two trimming loops never look at an empty string and leave the trimmed line |
| ClientSession.SplitLine | client/src/TcpConnection.cc:477-485 | the five loops in sequence are the tokeniser, stopping index included |
| ClientSession.SendFile | client/src/EchoClient_unittest.cc:147-159 | the read-and-send loop ends and sends the pieces of the file |
| ClientSession.Connection.constructor | client/src/TcpConnection.cc:39 | a new client session is in its initial state |
| ClientSession.Connection.HandleKeyboardInput | client/src/TcpConnection.cc:441-579 | a keyboard line, updating the connection's fields, is one step of the client machine of the protocol theorems; what it sends and keeps is stated by `Intents.KeyOpens` and `Intents.KeySends` from what is typed alone |
| ClientSession.Connection.HandleCommandLine | client/src/TcpConnection.cc:458-576 | a trimmed line is refused or sent exactly as the judgement of `System.JudgeIff` says, and the client then waits for its answer |
| ClientSession.Connection.AnswerToPuts | client/src/EchoClient_unittest.cc:130-143 | refused, or the file's size is announced |
| ClientSession.Connection.GoAhead | client/src/EchoClient_unittest.cc:144-166 | the whole file is sent in its pieces and the client goes on |
| ClientSession.Connection.AnswerToGets | client/src/EchoClient_unittest.cc:167-180 | refused, or the client gets ready to count the announced size |
| ClientSession.Connection.HandleDialogue | client/src/EchoClient_unittest.cc:72-109 | the answers during registration and login are steps of the client machine; what it does is stated by `Intents.ClientTalks` |
| ClientSession.Connection.OnMessage | client/src/EchoClient_unittest.cc:66-198 | the message callback is one step of that machine: whole new state and all messages sent; what it does is stated by `Intents.ClientTalks` and `Intents.ClientWorks` |
| ClientSession.Connection.StoreData | client/src/EchoClient_unittest.cc:181-196 | one data message of a download, with the acknowledgement at the end |
| System.JudgeIff | client/src/TcpConnection.cc:466-575 | a line is sent exactly if its list of words is a command with its operand (none for `pwd` and `ls`, optional for `cd`), a local file being there for `puts` and not there for `gets`; the server finds the same operand |
| System.JudgeAgrees | client/src/TcpConnection.cc:466-575 | every line the client sends is a known request to the server, of the kind whose reply the client now waits for |
| System.InvStart | server/src/TcpConnection.cc:32 | the joint invariant holds at the start |
| System.DialogueStarts | client/src/TcpConnection.cc:443-457 | opening registration or login keeps the joint invariant, with two messages in flight for two successive server states |
| System.RequestStarts | client/src/TcpConnection.cc:458-576 | an accepted command keeps the joint invariant even when it is sent behind unread upload data or an unread acknowledgement |
| System.KeyPreserves | client/src/TcpConnection.cc:441-579 | every keyboard line keeps the invariant |
| System.UploadStarts | client/src/EchoClient_unittest.cc:144-166 | keeps the joint invariant: the client's whole upload is in flight when it goes on |
| System.DownloadStarts | client/src/EchoClient_unittest.cc:167-180 | keeps the joint invariant: the announced size is what is in flight plus what the server has not read |
| System.DownloadReads | client/src/EchoClient_unittest.cc:181-196 | keeps the joint invariant: a data message moves bytes from flight to the file; after the last one only the acknowledgement is left |
| System.DialogueReply | client/src/EchoClient_unittest.cc:72-109 | keeps the joint invariant: a registration or login reply takes the client to the state the server is in |
| System.CommandReply | client/src/EchoClient_unittest.cc:110-129 | keeps the joint invariant: the reply to a plain command ends the wait in agreement |
| System.PutsReply | client/src/EchoClient_unittest.cc:130-143 | keeps the joint invariant: the reply to `puts` ends the wait, or starts an upload the server is ready for |
| System.ClientReadsPreserves | client/src/EchoClient_unittest.cc:66-198 | every message the client reads keeps the invariant |
| System.UploadReads | server/src/EchoServer_unittest.cc:187-194 | keeps the joint invariant: upload data, with a later command possibly behind it, is taken as data and nothing else is |
| System.AckReads | server/src/EchoServer_unittest.cc:195-202 | keeps the joint invariant: the acknowledgement, with a later command possibly behind it, ends the download |
| System.ResidueReads | server/src/EchoServer_unittest.cc:187-202 | keeps the joint invariant: both together: what is left of a finished transfer is read before the next command |
| System.RequestReads | server/src/EchoServer_unittest.cc:100-180 | keeps the joint invariant: a request is answered in the format and for the state the client waits in, when its handler survives |
| System.AnswerFits | server/src/EchoServer_unittest.cc:100-180 | the answer to a request is of the kind and format the client's state waits for |
| System.DownloadOffered | server/src/EchoServer_unittest.cc:157-178 | keeps the joint invariant: an accepted `gets` announces the size of the file the pump starts on |
| System.PacketUnpacks | server/src/EchoServer_unittest.cc:206-213 | the registration message in flight unpacks to the account asked for last |
| System.RegistrationReads | server/src/EchoServer_unittest.cc:67-70 | keeps the joint invariant: reading the message appends the account, if the insert statement fits its array |
| System.ModeReads | server/src/EchoServer_unittest.cc:62-66 | keeps the joint invariant: the first message chooses the dialogue the client is in |
| System.NameReads | server/src/EchoServer_unittest.cc:71-80 | keeps the joint invariant: the answer to a user name tells the client the server's state |
| System.SecretReads | server/src/EchoServer_unittest.cc:81-99 | keeps the joint invariant: the answer to the digest tells the client the server's state |
| System.UploadSizeReads | server/src/EchoServer_unittest.cc:181-186 | keeps the joint invariant: the server learns the size of exactly the file the client will send |
| System.HandlerStops | server/src/EchoServer_unittest.cc:71-99 | a handler that does not survive its message leaves nothing in flight and the client waiting for the answer |
| System.ServerReadsPreserves | server/src/EchoServer_unittest.cc:59-204 | every message the server reads keeps the invariant |
| System.NextChunk | server/src/TcpConnection.cc:370-383 | for a file without NUL the next message is the bytes just read, not empty, and the count stays the unread length |
| System.PumpWhileReceiving | server/src/TcpConnection.cc:370-383 | keeps the joint invariant: a piece moves bytes from the unread part into flight, sizes and content conserved |
| System.PumpBeforeAnnounced | server/src/TcpConnection.cc:370-383 | keeps the joint invariant: the same while the size reply is still unread |
| System.PumpPreserves | server/src/TcpConnection.cc:370-383 | every run of the pump keeps the invariant |
| System.StepPreserves | server/src/EchoServer_unittest.cc:59-204 | every step of either side keeps the invariant |
| Protocol.RunKeepsInv | server/src/EchoServer_unittest.cc:59-204 | it holds in every reachable state of client, server and both queues |
| Protocol.InvReadsRight | client/src/EchoClient_unittest.cc:66-198 | the invariant makes the head of each queue fit its reader |
| Protocol.NoMisreading | server/src/EchoServer_unittest.cc:59-204 | in every reachable state the next message for either side was produced for the state that side is in, in the format it reads: no command is taken for file data, no data for a command, no reply in the wrong wait state, no read past the end of a message |
| Protocol.RequestsAnsweredOnce | server/src/EchoServer_unittest.cc:100-179 | every request gets exactly one (first) reply, meant for the state the client waits in, if its handler survives, and none if it does not |
| Protocol.QuietMeansAgreement | client/src/EchoClient_unittest.cc:66-198 | with both queues drained, the pump at rest and the server process alive, the two states correspond, no wait state is left, and all files and accounts have arrived unchanged and in order |
| Protocol.FilesInOrder | server/src/EchoServer_unittest.cc:187-194 | completed uploads are always the first files sent, completed downloads the first offered, byte for byte |
| Protocol.AccountsInOrder | server/src/EchoServer_unittest.cc:206-213 | the accounts registered are the first of those asked for, field by field; `Observer.WhatUserGets` compares them with what was typed |
| Protocol.DirectoryIsHistory | server/src/EchoServer_unittest.cc:91-148 | the working directory is where the `cd` commands since the last login lead: the list of components they leave, and a stack of names if no operand had a slash; `Observer.WhatUserGets` takes the commands from the words typed and the answers of the file system |
| Protocol.RepliesReadBack | server/src/EchoServer_unittest.cc:102-178 | the client reads back from each reply the result the server got, or the listing; `puts` and `gets` are granted exactly if the server enters the transfer state |
| Protocol.LoginIff | server/src/EchoServer_unittest.cc:81-99 | both sides end up logged in exactly if the digest sent equals the one stored, and the server then takes the client for the user it named; `Intents.LoginStep` starts from the digest given to the client |
| Protocol.DownloadConserved | server/src/TcpConnection.cc:370-383 | during a download: announced size = counted by client + in flight + unread by server, and the bytes in these places, in order, are the file |
| Protocol.AckOnlyAtEnd | client/src/EchoClient_unittest.cc:186-192 | the client acknowledges exactly on the message that ends the download, when nothing is left to send or in flight |
| Protocol.UploadConserved | server/src/EchoServer_unittest.cc:187-194 | during an upload `file_size` is the number of bytes still in flight, and the server returns to commands exactly at the last data message |
| Protocol.StepsDescend | server/src/EchoServer_unittest.cc:59-204 | every step but a keyboard line lowers a well-founded measure |
| Protocol.SomeStep | client/src/EchoClient_unittest.cc:66-198 | no deadlock: while the server is alive, what the user gave fits and anything is in flight, some sound step can be taken |
| Protocol.TornStep | server/src/EchoServer_unittest.cc:195-202 | a step destroys the pump's channel while it is registered exactly if it reads the acknowledgement before the pump's last run |
| Protocol.CrashStep | server/src/EchoServer_unittest.cc:71-99 | a step stops the server in a handler exactly if that handler does not survive its message |
| Protocol.AckIsNext | server/src/EchoServer_unittest.cc:195-202 | what the server reads during a download is the acknowledgement, and the file is used up |
| Protocol.StaysAlive | server/src/EchoServer_unittest.cc:195-202 | one step leaves the server alive exactly if it is sound: neither that, nor a handler that throws, reads a directory that is not there, or prints or copies past an array |
| Protocol.AliveIff | server/src/EchoServer_unittest.cc:59-223 | exact over whole runs: the server is alive if and only if every step was sound |
| Protocol.ReadsAccount | server/src/EchoServer_unittest.cc:206-216 | the account the server is about to print is the one the client asked for last |
| Protocol.ReadsName | server/src/EchoServer_unittest.cc:71-75 | the name it looks up is the one the client gave |
| Protocol.KnowsUser | server/src/EchoServer_unittest.cc:81-85 | and so is the one it has kept |
| Protocol.SurvivesIff | server/src/EchoServer_unittest.cc:71-99 | some answers of database and file system let the server survive a message exactly if the account or name that the user gave fits the query |
| Protocol.ClearIsPrintable | server/src/EchoServer_unittest.cc:206-216 | what a client can check before it sends (61 + name + salt + digest below 256 for an account, 47 + name below 256 for a login) is enough for that |
| Protocol.StaysClear | client/src/EchoClient_unittest.cc:66-198 | nothing but the keyboard brings new demands |
| Protocol.SchedulerExists | client/src/EchoClient_unittest.cc:66-198 | there are sound schedules for every such state, so the completion theorems are not empty |
| Protocol.Settle | client/src/EchoClient_unittest.cc:66-198 | if what the user gave fits, every sound schedule comes to rest (totality of the function), in a quiet state with the server alive |
| Protocol.ClientKeepsPromise | client/src/EchoClient_unittest.cc:130-196 | no message the client reads changes which files will have been sent and offered in the end |
| Protocol.ServerKeepsPromise | server/src/EchoServer_unittest.cc:181-202 | nor does anything the server reads once the request is answered |
| Protocol.PromiseKept | client/src/EchoClient_unittest.cc:130-196 | the same for every step but a keyboard line |
| Protocol.SettleKeepsPromise | client/src/EchoClient_unittest.cc:130-196 | hence it is the same at rest, under every schedule |
| Protocol.GrantedArrives | server/src/EchoServer_unittest.cc:149-178 | under every sound schedule a granted `puts` ends with its file stored and a granted `gets` with its file fetched, and nothing else is stored or fetched |
| Protocol.EveryCommandCompletes | client/src/EchoClient_unittest.cc:66-198 | from every state that sound steps reach, if what the user gave fits, under every sound schedule, the pending command completes after finitely many steps: both sides agree, the upload under way is the last file stored, the download under way the last fetched, byte for byte |
| Intents.KeyOpens | client/src/TcpConnection.cc:403-455 | from what is typed: "0" sends that and the account as typed, and records it; "1" sends that and the name typed, and keeps it; nothing else sends |
| Intents.KeySends | client/src/TcpConnection.cc:458-576 | from the words typed: a line is sent exactly for a command with its operand, whole, without the spaces around it, and the client then waits for the answer to that command; a `puts` keeps the content named |
| Intents.HandlersNeed | server/src/EchoServer_unittest.cc:71-99 | exact, in the lengths of the texts printed: which messages stop the server in their handler |
| Intents.ServerAnswers | server/src/EchoServer_unittest.cc:100-180 | a command by its words: only `cd` moves the user, by its second word; only `puts` and `gets` change the state, exactly if granted; what the reply reads as for each command; nothing else changes |
| Intents.ServerTalks | server/src/EchoServer_unittest.cc:62-99 | the dialogue: the account registered is the one asked for last, the salt replied is the one in the database for the name given, and login leads to the root with no `cd` behind, exactly with the digest stored |
| Intents.ServerStores | server/src/EchoServer_unittest.cc:181-202 | transfers on the server: the size counted is that of the file to come, what is stored are the bytes read, and the acknowledgement ends a download |
| Intents.ClientTalks | client/src/EchoClient_unittest.cc:72-109 | the dialogue on the client: a salt is answered with the whole digest given, and both sides then stand as the answers say |
| Intents.ClientWorks | client/src/EchoClient_unittest.cc:110-196 | commands and transfers on the client: the size announced reads back as that of the file, the pieces sent join to it, and a download is acknowledged at the size announced |
| Intents.RegistrationEndToEnd | client/src/TcpConnection.cc:403-427 | from the keyboard to the database: after "0" and an account typed, the server has registered that very account, field by field, and answers with the result; or the statement was too long, exactly at 256 bytes, and the server is stopped |
| Intents.LoginBegins | server/src/EchoServer_unittest.cc:71-80 | from the keyboard: after "1" and a name typed, the server keeps that name and the client gets the salt of the database; without one both start again |
| Intents.LoginStep | server/src/EchoServer_unittest.cc:81-99 | from the digest given to the client: both sides end up logged in, the server at the root, with no `cd` behind and with the name given, exactly if it is the digest stored, and otherwise both start again |
| Observer.StepAgrees | server/src/EchoServer_unittest.cc:59-204 | what an observer notes who sees the inputs and the states of both sides, but no message (accounts, names, words, contents and digests typed, files offered, `cd` lines answered) stays what both sides have, through every step |
| Observer.RunAgrees | server/src/EchoServer_unittest.cc:59-204 | hence in every run |
| Observer.WhatUserGets | client/src/EchoClient_unittest.cc:66-198 | in every reachable state: accounts registered are the first of those typed, files stored the first of those named to `puts`, files fetched the first of those the server has, and all of them once nothing is on its way; the directory is where the `cd` lines since login lead, for the user typed at login |
| Observer.CommandsServed | server/src/EchoServer_unittest.cc:100-180 | in every run each command is carried out and answered as its words were typed, in the directory that the earlier `cd` lines led to, for the user typed |
| Observer.LoginServed | server/src/EchoServer_unittest.cc:81-99 | in every run a login succeeds exactly if the digest made of the password typed last is the one stored |
| Observer.FilesServed | server/src/EchoServer_unittest.cc:149-178 | in every run, under every sound schedule that follows, a granted `puts` ends with the content typed stored, a granted `gets` with the file of the server fetched, and all earlier files are still there, in order |
| Limits.UploadCounts | server/src/EchoServer_unittest.cc:187-194 | for any data messages at all, the server's upload state is the counter that only closes at zero |
| Limits.DownloadCounts | client/src/EchoClient_unittest.cc:181-196 | the same for the client's download state |
| Limits.UploadReturnsIff | client/src/EchoClient_unittest.cc:144-166 | after the client's whole upload the server is back to commands exactly if the file is not empty and holds no NUL |
| Limits.EmptyUploadMisreads | server/src/EchoServer_unittest.cc:187-194 | after an empty upload the server stores the next command as file data and does not answer |
| Limits.PumpAllSends | server/src/TcpConnection.cc:370-383 | the pump sends the pieces of the file and then removes its channel |
| Limits.DownloadReturnsIff | client/src/EchoClient_unittest.cc:167-196 | after everything the server pumps, the client is back to commands exactly if the file is not empty and holds no NUL |
| Limits.TornIff | server/src/EchoServer_unittest.cc:195-202 | over whole runs: the server is stopped by the assertion in the channel's destructor exactly if some acknowledgement was read before the pump's last run |
| Limits.CrashedIff | server/src/EchoServer_unittest.cc:71-99 | over whole runs: the server is stopped in a handler exactly if some account or user name overran its query, some result of the database its array, some unpacking threw, or some listing failed |
| Limits.CrashedIsFrozen | client/src/EchoClient_unittest.cc:72-129 | from then on no step changes anything: the client waits for ever |
| Limits.LongNameStops | server/src/EchoServer_unittest.cc:215-216 | concrete failure: registering a user name of 120 bytes, which the client accepts, stops the server |
| Limits.MissingDirectoryStops | server/src/dirOp.cc:42-46 | concrete failure: `ls` in a directory that is gone stops the server |
| Limits.AckCanWait | server/src/TcpConnection.cc:375-379 | in that situation the last run of the pump is possible, sends nothing, and makes reading the acknowledgement safe |
| Limits.LoginReached | server/src/EchoServer_unittest.cc:81-99 | a concrete run from the start to a logged-in user |
| Limits.DownloadReached | server/src/EchoServer_unittest.cc:157-178 | its continuation by `gets` of a file of one byte |
| Limits.FetchReached | client/src/EchoClient_unittest.cc:167-196 | its continuation until the client has acknowledged |
| Limits.TornReached | server/src/Channel.cc:23-31 | concrete failure: that run, continued by the server reading the acknowledgement, ends with empty queues and the server stopped |
| Strays.UploadLeaves | client/src/EchoClient_unittest.cc:130-143 | the upload of a file that is empty or holds a NUL byte begins like any other |
| Strays.DownloadLeaves | server/src/EchoServer_unittest.cc:157-178 | and so does its download |
| Strays.StaysAstray | server/src/EchoServer_unittest.cc:181-202 | no step of either side ever brings such a transfer back |
| Strays.RunStays | server/src/EchoServer_unittest.cc:59-204 | a run with files of any kind keeps the joint invariant exactly until such a transfer begins |
| Strays.AgreementIff | client/src/EchoClient_unittest.cc:66-198 | exact over whole runs: whenever nothing is in flight and the server is alive, both sides agree if and only if every file whose transfer began was not empty and held no NUL byte |
| Strays.EmptyUploadReached | server/src/EchoServer_unittest.cc:187-194 | concrete failure: after the upload of an empty file the next command is stored as file data and the client waits for ever |
| Network.LaneReads | server/src/TcpConnection.cc:285-296 | the next delivered message is the head of the abstract queue |
| Network.SendOne | server/src/TcpConnection.cc:76-99 | one `send` on an open link takes the message over whole |
| Network.SendAllAppends | server/src/TcpConnection.cc:76-159 | sending several messages appends them to the abstract queue, whatever the kernel does |
| Network.LaneMoves | server/src/TcpConnection.cc:310-347 | write events and arriving bytes do not change the abstract queue |
| Network.MoveStutters | server/src/TcpConnection.cc:278-347 | transport steps leave the abstract session as it is |
| Network.ActRefines | server/src/EchoServer_unittest.cc:59-204 | a session step over real links is the same step over FIFO queues |
| Network.RunKeepsInv | server/src/EchoServer_unittest.cc:59-204 | in every state of every run over real links the abstract session satisfies the joint invariant |
| Network.SessionOverNetwork | server/src/TcpConnection.cc:76-347 | over any partial writes and fragmentation: no message is read in a wrong state, files arrive in order and unchanged, the server is alive exactly if every step was sound, and once all buffers are empty both sides agree |
| Network.AliveIff | server/src/EchoServer_unittest.cc:59-223 | over real links too, the server is alive exactly in the runs whose steps are sound |
| Network.MoveShrinks | server/src/TcpConnection.cc:315-320 | a write event in which the kernel takes something, or an arrival, leaves fewer bytes to move |
| Network.SomethingToDo | server/src/TcpConnection.cc:278-347 | no deadlock over real links: if what the user gave fits, some productive step exists unless everything is drained or the working directory no longer fits a frame |
| Network.ProductiveDescends | server/src/TcpConnection.cc:278-347 | every productive step lowers a well-founded measure of session and bytes |
| Network.SchedulerExists | server/src/TcpConnection.cc:278-347 | there are such schedules |
| Network.Finish | server/src/TcpConnection.cc:278-347 | every schedule of productive steps comes to an end (totality of the function) |
| Network.FinishKeepsPromise | client/src/EchoClient_unittest.cc:130-196 | the end has the files promised at the start |
| Network.CommandsCompleteOverNetwork | server/src/TcpConnection.cc:76-347 | from every state that sound steps reach, if what the user gave fits, under every schedule of write events, arrivals and sound callbacks, in whatever portions the bytes go, the pending command completes: all is drained, both sides agree, the transfer under way has arrived; only a working directory longer than a payload can stop it |
| EventLoops.ApplyInOrder | server/src/EventLoop.cc:195-210 | every atomic step keeps: pushed = executed + rest of batch + pending |
| EventLoops.FunctorsInOrder | server/src/EventLoop.cc:124-135 | in every interleaving of any number of threads each functor pushed is called once, in push order |
| EventLoops.BatchStays | server/src/EventLoop.cc:200-208 | between two swaps nothing joins or leaves the functors being called |
| EventLoops.IterationCallsBatch | server/src/EventLoop.cc:195-210 | one iteration calls exactly what was pending at its swap; what is pushed meanwhile waits for the next |
| EventLoops.ApplyKeepsWake | server/src/EventLoop.cc:124-135 | every atomic step keeps the wakeup invariant |
| EventLoops.RunKeepsWake | server/src/EventLoop.cc:67-101 | it holds in every state of every interleaving |
| EventLoops.NoLostWakeupIff | server/src/EventLoop.cc:67-135 | a loop about to block with functors pending or `quit_` set is woken, in every interleaving, exactly if nothing was queued by its own thread before `loop` was entered |
| EventLoops.WakesIff | server/src/EventLoop.cc:103-135 | exact for one step: the event descriptor is written by wakeups and reset by reading alone, and the loop stops exactly when it finds `quit_` set |
| EventLoops.LeadsKeepsWake | server/src/EventLoop.cc:88-96 | a turn of the loop thread's code keeps order and wakeup invariants |
| EventLoops.EventLoop.constructor | server/src/EventLoop.cc:32-56 | a new loop has no functors and an unread event descriptor at zero |
| EventLoops.EventLoop.Wakeup | server/src/EventLoop.cc:175-183 | makes the event descriptor readable |
| EventLoops.EventLoop.HandleRead | server/src/EventLoop.cc:185-193 | resets the event descriptor |
| EventLoops.EventLoop.QueueInLoop | server/src/EventLoop.cc:124-135 | appends, wakes for another thread or during functors and only then, and is a sequence of steps of the interleaving model |
| EventLoops.EventLoop.RunInLoop | server/src/EventLoop.cc:112-122 | at once on the loop's thread, queued with a wakeup otherwise |
| EventLoops.EventLoop.Invoke | server/src/EventLoop.cc:205-208 | a functor that queues others, any list at any call and itself included, appends them in order, with a wakeup each while functors are called |
| EventLoops.EventLoop.SwapOut | server/src/EventLoop.cc:197-203 | the locked swap: batch is what was pending |
| EventLoops.EventLoop.CallFirst | server/src/EventLoop.cc:205-208 | one round: the first of the batch is called, the rest stays |
| EventLoops.EventLoop.DoPendingFunctors | server/src/EventLoop.cc:195-210 | ends even if functors queue themselves again; calls what was pending once each in order; what they queued stays pending with a wakeup; is a sequence of steps of the interleaving model |
| EventLoops.EventLoop.Turn | server/src/EventLoop.cc:88-96 | functors queued by event handlers are called in the same iteration without a wakeup; a turn never ends with functors pending and no wakeup; it is a sequence of steps of the interleaving model |
| Lifecycle.InvStart | server/src/TcpServer.cc:24 | the invariant over table, objects and functor queues holds at the start, for any number of loops |
| Lifecycle.AcceptPreserves | server/src/TcpServer.cc:62-88 | accepting keeps it: a fresh name, no table entry overwritten, established exactly once |
| Lifecycle.AcceptNumbers | server/src/TcpServer.cc:65-69 | names are consecutive and unused, and the loop is the next in turn |
| Lifecycle.AcceptAdds | server/src/TcpServer.cc:62-88 | accepting adds one connection under a new name to the table, on the next loop in turn, established on the spot without I/O loops and with its establishment queued there otherwise; no other connection changes |
| Lifecycle.PollPreserves | server/src/EventLoop.cc:78-79 | a poll, which reports only connections with interest, keeps the invariant |
| Lifecycle.PollReports | server/src/EventLoop.cc:78-79 | the channels left to handle are those reported, and nothing else changes |
| Lifecycle.ClosePreserves | server/src/TcpConnection.cc:349-362 | closing keeps it: the assertion holds and exactly one removal follows, at once on the base loop or queued |
| Lifecycle.HandlePreserves | server/src/Channel.cc:69-100 | handling an event keeps it for exactly the events of `Lifecycle.HandleFailsIff` that break no assertion; which events close is stated by `Lifecycle.EventClosesIff` |
| Lifecycle.EventClosesIff | server/src/Channel.cc:69-100 | exact: an event takes its connection down, once, if and only if it is a hang-up without IN, or IN, PRI or RDHUP whose read finds the end of the stream; any other leaves connections, table and functors as they are |
| Lifecycle.HandleFailsIff | server/src/Channel.cc:73-94 | an event breaks an assertion exactly if it is a hang-up without IN, with PRI or RDHUP, whose read finds the end of the stream |
| Lifecycle.ForceClosePreserves | server/src/TcpConnection.cc:182-190 | a forced close at any time keeps it |
| Lifecycle.ForceCloseQueues | server/src/TcpConnection.cc:182-190 | a forced close of a connection that is up leaves one functor on its loop, any other none |
| Lifecycle.ShutdownPreserves | server/src/TcpConnection.cc:161-170 | a shutdown at any time keeps it |
| Lifecycle.EstablishRuns | server/src/TcpConnection.cc:254-263 | the queued establishment finds the connection connecting, as asserted |
| Lifecycle.RemoveRuns | server/src/TcpServer.cc:96-106 | the queued removal finds exactly one table entry, as asserted, and queues exactly one destruction on the right loop |
| Lifecycle.DestroyRuns | server/src/TcpConnection.cc:265-276 | the queued destruction finds a registered channel without interest, as asserted |
| Lifecycle.CloseRuns | server/src/TcpConnection.cc:192-200 | a queued forced close does nothing to a connection closed meanwhile |
| Lifecycle.StepPreserves | server/src/TcpServer.cc:62-106 | every step of every loop keeps the invariant |
| Lifecycle.RunKeepsInv | server/src/TcpServer.cc:62-106 | it holds in every interleaving |
| Lifecycle.StepOkIff | server/src/Channel.cc:69-100 | from a reachable state the source's assertions survive a step exactly if it is not such an event |
| Lifecycle.AssertionsHoldIff | server/src/TcpServer.cc:62-106 | exact over whole runs: all assertions hold in an interleaving if and only if it contains no such event |
| Lifecycle.FailureReached | server/src/Channel.cc:73-94 | concrete failure: one connection on the base loop and a hang-up reported together with the end of the stream |
| Lifecycle.OnceInOrder | server/src/TcpServer.cc:62-106 | in every interleaving without an event that breaks an assertion, each connection is established, closed, erased and destroyed at most once each and in this order; it is in the table exactly until erased |
| Lifecycle.NeverBack | server/src/TcpServer.cc:62-106 | a connection never goes back a stage and never changes its loop |
| Lifecycle.StepMoves | server/src/TcpConnection.cc:161-276 | what moves a connection on, step by step: each stage is entered exactly by its functor, the closing exactly by a closing event or a forced close while up, and it is disconnecting exactly once asked and not closed |
| Lifecycle.HistoryTells | server/src/TcpConnection.cc:161-276 | over whole interleavings: a connection has been closed if and only if some event or forced close closed it, and is disconnecting if and only if it is not closed and was asked to shut down or to close while up |
| Lifecycle.QuietTable | server/src/TcpServer.cc:96-106 | with no functor queued the table holds exactly the connections that are up, and all others are destroyed and out of the pollers |
| Lifecycle.TurnsDiffer | server/src/EventLoopThreadPool.cc:45-62 | the I/O loops are dealt out in a cycle: n connections in a row get n different loops |
| Lifecycle.FirstTurn | server/src/EventLoopThreadPool.cc:45-62 | the first connection gets the first I/O loop, or the base loop if there is none |
| TcpServers.EventLoopThreadPool.constructor | server/src/EventLoopThreadPool.cc:10-17 | the pool starts at its first loop |
| TcpServers.EventLoopThreadPool.NextLoop | server/src/EventLoopThreadPool.cc:45-62 | the next loop in the cycle, or the base loop if there is no other |
| TcpServers.TcpServer.constructor | server/src/TcpServer.cc:13-28 | a new server is the start of the life-cycle model and satisfies its invariant |
| TcpServers.TcpServer.RunInLoop | server/src/EventLoop.cc:112-122 | at once on the calling loop, otherwise queued there |
| TcpServers.TcpServer.NewConnection | server/src/TcpServer.cc:62-88 | under the invariant: the name is unused in table and objects, the step is the one of the model, and the invariant is kept |
| TcpServers.TcpServer.ConnectEstablished | server/src/TcpConnection.cc:254-263 | the establishing step of the model; called as the functor it is queued as, it keeps the invariant, so its assertion holds |
| TcpServers.TcpServer.RemoveConnection | server/src/TcpServer.cc:90-94 | removal at once from the base loop, or queued there; called by a connection that has just gone down, it restores the invariant |
| TcpServers.TcpServer.RemoveConnectionInLoop | server/src/TcpServer.cc:96-106 | erases the entry and queues one destruction on the connection's loop; called as the functor it is queued as, it keeps the invariant, so the entry was there |
| Reactor.InvStart | server/src/TcpServer.cc:24 | table, connections and all event loops start in agreement |
| Reactor.WorldGrows | server/src/TcpServer.cc:62-106 | what one thread does for a connection queues at most one functor on each loop |
| Reactor.HandedOk | server/src/EventLoop.cc:124-135 | handing a functor to a loop, from the same or another thread, is a step of that loop's interleaving model |
| Reactor.CallOk | server/src/EventLoop.cc:205-208 | calling the next functor of a batch takes the head off the connection model's queue |
| Reactor.OwnOk | server/src/EventLoop.cc:75-97 | the other steps of a loop leave that queue as it is |
| Reactor.StepPreserves | server/src/EventLoop.cc:67-135 | every step of every thread keeps the connection invariant, the order and wakeup invariants of every loop, and the equality of loop functors and queues |
| Reactor.RunKeepsInv | server/src/EventLoop.cc:67-135 | they hold in every state of every interleaving of the server's threads without an event that breaks an assertion |
| Reactor.RestingIsEmpty | server/src/EventLoop.cc:75-97 | when all loops block with nothing to wake them, no functor is queued anywhere |
| Reactor.SomeStep | server/src/EventLoop.cc:67-101 | no deadlock: unless all loops block, some thread can go on |
| Reactor.InsideDescends | server/src/EventLoop.cc:67-101 | every step that finishes something begun lowers a well-founded measure |
| Reactor.SchedulerExists | server/src/EventLoop.cc:67-101 | there are schedules of such steps for every state |
| Reactor.Settle | server/src/EventLoop.cc:67-101 | every such schedule comes to rest (totality of the function) |
| Reactor.SettleLater | server/src/TcpServer.cc:90-106 | on the way no connection goes back a stage |
| Reactor.SettleDoomed | server/src/TcpConnection.cc:182-200 | a queued forced close is carried out on the way, unless the connection went down before |
| Reactor.EveryFunctorRuns | server/src/TcpServer.cc:62-106 | from every reachable state, in whatever order the threads run on, every queued functor is called: waiting connections are established, and those that had gone down or whose forced close was queued are closed, erased, destroyed and out of their poller |
| Reactor.ClosingEndsInRemoval | server/src/TcpServer.cc:90-106 | an event that takes a connection down, or a forced close of one that is up, ends under every schedule with the connection destroyed, out of the table and out of its poller |

## Left out

- Connection.TcpConnection.Shutdown: called on the loop thread; the source marks the missing compare-and-swap for other threads.
- Connection.TcpConnection.HandleRead: the message callback is a list of delivered messages handled after the read event, so a callback that closes the connection in the middle of a batch is not nested; beyond a wrapped length check (`overrun`) the C++ reads past its buffer and the model stops.
- Connection.TcpConnection.HandleClose: connection and close callbacks are counted, not called; what the close callback does is in Lifecycle.
- Protocol.NoMisreading: for regular files that do not change during a transfer and are not empty and free of NUL; runs with other files are covered by Strays.
- Protocol.AliveIff: an `open` or `stat` that fails after the name was found, a database row without a value, and entries that are neither file nor directory are not modelled.
- Network.SessionOverNetwork: connections stay up and no write fails with EPIPE or ECONNRESET; Output.SendFate says what such a failure loses. A server that is stopped ends the run.
- EventLoops.NoLostWakeupIff: the event descriptor counts without bound; its saturation near 2^64 and failing reads and writes of it are not modelled, nor a `quit` that comes before `loop` resets `quit_`.
- Lifecycle.OnceInOrder: connection names are their numbers, which do not wrap around; ownership by `shared_ptr` and `tie` is left out, connection objects are kept for ever; `forceClose` and `shutdown` are called on the connection's own loop.
- The SQL texts count by their lengths; what the database makes of them is arbitrary, and so is what the file system makes of a path. The fields of a listing line before the name are taken as printed.
- Files are byte strings: `open`, `write` and `close` of the stored file succeed and write everything; directories given to `puts` and permissions are not modelled.
- `~TcpServer`, `startRead`, `stopRead` and `setTcpNoDelay`: their members would be easy or, for the destructor on a connection that is disconnecting, outside what the code handles.
- `Connector` and the reconnection in `TcpClient`: the retry re-enters its own start while the channel reset is only queued.
- `Acceptor`, `Socket`, `SocketsOps`, `InetAddress`, `Timestamp`, `Thread`, `Mutex`, `Condition`, `EventLoopThread`: thin wrappers; a locked region is one atomic step.
- MySQL, `crypt`, `getpass`, directory listings, printing and progress display, `findCRLF` and `findEOL`: foreign or not used by the protocol.
- The client's own copies of the buffer, the loop, the poller and the framing are the same code as the server's apart from logging and the keyboard channel, so only the server's are modelled.
- The result of `epoll_wait` being as many events as fit (`events_` doubling) and the poll timeout: polling returns at any time with any reported set.
