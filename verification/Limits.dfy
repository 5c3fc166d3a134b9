/** Where the session code stops meeting its promise, and exactly when. */
module Limits {
  import opened Bytes
  import opened Seqs
  import opened Tokens
  import opened Transfer
  import opened Session
  import opened System
  import opened Protocol
  import Listing
  import Path
  import Registration

  // ---- Files the transfers cannot carry ----

  /** The server reads upload data, one message after the other, for as long as it takes it as data. */
  ghost function AbsorbUpload(s: Server, ms: seq<seq<byte>>, a: Answers): (t: Server)
    requires Legal(a)
    decreases |ms|
  {
    if ms == [] || s.state != SPuts then s
    else AbsorbUpload(ServerOnMessage(s, ms[0], a).s, ms[1..], a)
  }

  ghost function AbsorbDownload(c: Client, ms: seq<seq<byte>>): (d: Client)
    decreases |ms|
  {
    if ms == [] || c.state != CGets then c
    else AbsorbDownload(ClientOnMessage(c, ms[0], []).c, ms[1..])
  }

  lemma {:induction false} UploadCounts(s: Server, ms: seq<seq<byte>>, a: Answers)
    requires s.state == SPuts && Legal(a)
    ensures AbsorbUpload(s, ms, a).state in {SPuts, SLoggedIn}
    ensures AbsorbUpload(s, ms, a).state == SPuts <==> TakeChunks(Receiving(s.fileSize, true), ms).open
    decreases |ms|
  {
    if ms != [] {
      var t := ServerOnMessage(s, ms[0], a).s;
      if t.state == SPuts {
        UploadCounts(t, ms[1..], a);
      } else {
        ClosedStays(TakeChunk(Receiving(s.fileSize, true), ms[0]), ms[1..]);
      }
    }
  }

  lemma {:induction false} DownloadCounts(c: Client, ms: seq<seq<byte>>)
    requires c.state == CGets
    ensures AbsorbDownload(c, ms).state in {CGets, CLoggedIn}
    ensures AbsorbDownload(c, ms).state == CGets <==> TakeChunks(Receiving(c.fileSize - c.curSize, true), ms).open
    decreases |ms|
  {
    if ms != [] {
      var d := ClientOnMessage(c, ms[0], []).c;
      if d.state == CGets {
        DownloadCounts(d, ms[1..]);
      } else {
        ClosedStays(TakeChunk(Receiving(c.fileSize - c.curSize, true), ms[0]), ms[1..]);
      }
    }
  }

  lemma {:induction false} ClosedStays(r: Receiving, ms: seq<seq<byte>>)
    requires !r.open
    ensures !TakeChunks(r, ms).open
    decreases |ms|
  {
    if ms != [] { ClosedStays(r, ms[1..]); }
  }

  /** The client's part of an upload, for any file at all: it sends everything and is logged in again;
      the server, having read everything sent, is logged in again exactly if the file was not empty
      and held no NUL. */
  lemma UploadReturnsIff(c: Client, s: Server, go: seq<byte>, a: Answers)
    requires c.state == CPuts && ReadHostInt(go, 4) == 0
    requires s.state == SPuts && s.fileSize == |c.source| && Legal(a)
    ensures var r := ClientOnMessage(c, go, []);
            && r.c.state == CLoggedIn
            && (AbsorbUpload(s, Payloads(r.out), a).state == SLoggedIn <==> |c.source| > 0 && 0 !in c.source)
  {
    hide ReadHostInt, Chunks;
    var r := ClientOnMessage(c, go, []);
    assert Payloads(r.out) == Chunks(c.source);
    UploadCounts(s, Chunks(c.source), a);
    TransferEndsIff(c.source);
  }

  /** After an empty upload both queues are empty, the client is ready for commands, and the server
      takes the next command for file data and answers nothing. */
  lemma EmptyUploadMisreads(c: Client, s: Server, go: seq<byte>, line: seq<byte>, a: Answers)
    requires c.state == CPuts && c.source == [] && ReadHostInt(go, 4) == 0
    requires s.state == SPuts && s.fileSize == 0 && Legal(a) && line != []
    ensures ClientOnMessage(c, go, []).out == [] && ClientOnMessage(c, go, []).c.state == CLoggedIn
    ensures var r := ServerOnMessage(s, line, a);
            r.s.state == SPuts && r.s.saved == s.saved + line && r.out == []
  {
    hide ReadHostInt;
    EmptyFileStalls();
  }

  /** Everything `handleGets` sends for a file that starts being pumped. */
  ghost function PumpAll(s: Server): (r: ServerTurn)
    requires s.fileSize == |s.rest|
    decreases |s.rest|, s.pumping
  {
    if !s.pumping then ServerTurn(s, []) else
      var now := Pump(s);
      var later := PumpAll(now.s);
      ServerTurn(later.s, now.out + later.out)
  }

  lemma {:induction false} PumpAllSends(s: Server)
    requires s.fileSize == |s.rest| && s.pumping
    ensures PumpAll(s).out == Wrap(CGets, Chunks(s.rest))
    ensures !PumpAll(s).s.pumping && PumpAll(s).s.rest == []
    decreases |s.rest|
  {
    hide CStr;
    var now := Pump(s);
    if s.rest == [] {
      assert PumpAll(now.s) == ServerTurn(now.s, []);
      Unit(now.out);
      assert Wrap(CGets, Chunks(s.rest)) == [];
    } else {
      PumpAllSends(now.s);
      WrapPiece(s.rest);
    }
  }

  lemma WrapPiece(rest: seq<byte>)
    requires rest != []
    ensures var n := ReadLen(rest);
            Wrap(CGets, Chunks(rest)) == [Packet(CGets, CStr(rest[..n]))] + Wrap(CGets, Chunks(rest[n..]))
  {
    hide CStr, Wrap;
    var n := ReadLen(rest);
    WrapCons(CGets, CStr(rest[..n]), Chunks(rest[n..]));
  }

  lemma WrapCons<W>(want: W, m: seq<byte>, ms: seq<seq<byte>>)
    ensures Wrap(want, [m] + ms) == [Packet(want, m)] + Wrap(want, ms)
  {
  }

  /** A download of any file: the client, having read everything the server pumps, is logged in again
      exactly if the file was not empty and held no NUL; otherwise it waits for ever. */
  lemma DownloadReturnsIff(c: Client, s: Server)
    requires s.state == SGets && s.pumping && s.fileSize == |s.rest|
    requires c.state == CGets && c.curSize == 0 && c.fileSize == |s.rest|
    ensures var r := PumpAll(s);
            AbsorbDownload(c, Payloads(r.out)).state == CLoggedIn <==> |s.rest| > 0 && 0 !in s.rest
  {
    hide Chunks;
    PumpAllSends(s);
    assert Payloads(Wrap(CGets, Chunks(s.rest))) == Chunks(s.rest);
    DownloadCounts(c, Chunks(s.rest));
    TransferEndsIff(s.rest);
  }

  // ---- Runs that stop the server ----

  /** The acknowledgement can always wait: while the last run of `handleGets` is still to come the file
      is used up, that run is possible, and it makes reading the acknowledgement safe. */
  lemma AckCanWait(y: Sys, a: Answers)
    requires Inv(y) && Enabled(y, ServerReads(a)) && !Orderly(y, ServerReads(a))
    ensures y.s.fileSize == 0 && Enabled(y, PumpFile)
    ensures var z := Apply(y, PumpFile);
            z.up == y.up && z.down == y.down && Enabled(z, ServerReads(a)) && Orderly(z, ServerReads(a))
  {
    hide HostInt, ReadHostInt, RequestOf, Transferable, Join, Inv;
    AckIsNext(y);
    Unit(y.down);
  }

  /** The server is stopped by the assertion in the channel's destructor exactly in the runs in which an
      acknowledgement was read before the last run of `handleGets`. */
  lemma {:induction false} TornIff(trace: seq<Sys>, steps: seq<Step>, k: nat)
    requires Protocol.Run(trace, steps) && k < |trace|
    ensures trace[k].s.torn <==> exists i :: 0 <= i < k && !Orderly(trace[i], steps[i])
  {
    hide Inv, Apply, Orderly;
    if k > 0 {
      TornIff(trace, steps, k - 1);
      RunKeepsInv(trace, steps, k - 1);
      TornStep(trace[k - 1], steps[k - 1]);
    }
  }

  ghost predicate Stops(y: Sys, e: Step)
    requires Enabled(y, e)
  {
    e.ServerReads? && !Survives(y.s, y.up[0].bytes, e.answers)
  }

  /** It is stopped by a handler exactly in the runs in which an account or a user name overran the query
      it was printed into, a result of the database its array, or a listing failed. */
  lemma {:induction false} CrashedIff(trace: seq<Sys>, steps: seq<Step>, k: nat)
    requires Protocol.Run(trace, steps) && k < |trace|
    ensures trace[k].s.crashed <==> exists i :: 0 <= i < k && Stops(trace[i], steps[i])
  {
    hide Inv, Apply, Enabled, Supported, Stops;
    if k > 0 {
      CrashedIff(trace, steps, k - 1);
      StopsMeans(trace[k - 1], steps[k - 1]);
    }
  }

  lemma StopsMeans(y: Sys, e: Step)
    requires Enabled(y, e)
    ensures Apply(y, e).s.crashed <==> y.s.crashed || Stops(y, e)
  {
    hide Apply, Survives;
    CrashStep(y, e);
  }

  /** A stopped handler leaves the client waiting for ever: no step can be taken that changes anything. */
  lemma CrashedIsFrozen(y: Sys, e: Step)
    requires Inv(y) && y.s.crashed && Enabled(y, e)
    ensures Frozen(y) && Apply(y, e) == y
  {
    hide Stage, Uploads, Downloads, Accounts, Users, Residue, PathOk;
    Unit(y.up);
  }

  ghost predicate Reached(y: Sys) {
    exists trace, steps :: Protocol.Run(trace, steps) && trace[|steps|] == y
  }

  lemma ReachedNext(y: Sys, e: Step)
    requires Reached(y) && Enabled(y, e) && Supported(y, e)
    ensures Reached(Apply(y, e))
  {
    hide Enabled, Supported, Apply;
    var trace, steps :| Protocol.Run(trace, steps) && trace[|steps|] == y;
    assert Protocol.Run(trace + [Apply(y, e)], steps + [e]);
    assert (trace + [Apply(y, e)])[|steps + [e]|] == Apply(y, e);
  }

  ghost predicate Goes(y: Sys, e: Step, z: Sys) {
    Enabled(y, e) && Supported(y, e) && Apply(y, e) == z
  }

  lemma Onward(y: Sys, e: Step, z: Sys)
    requires Reached(y) && Goes(y, e, z)
    ensures Reached(z)
  {
    hide Reached;
    ReachedNext(y, e);
  }

  lemma StartReached()
    ensures Reached(START)
  {
    var none: seq<Step> := [];
    assert Protocol.Run([START], none) && [START][|none|] == START;
  }

  // ---- A registration that stops the server ----

  /** An account with a user name of 120 bytes, which fits the client's array. */
  const LONG_NAME: Registration.Account := Registration.Account(seq(120, _ => 97), seq(11, _ => 98), seq(86, _ => 99))
  const REGISTER: Typed := Typed(ZERO, LONG_NAME, false, [])
  const REPLIES: Answers := Answers(0, [98], [99], Listing.Missing, 0, 0, false, true, [1])

  lemma LegalReplies()
    ensures Legal(REPLIES) && Transferable(REPLIES.file)
  {
    Ranges();
  }

  lemma LongNameFits()
    ensures Registration.Fits(LONG_NAME) && !RegisterFits(LONG_NAME)
  {
    Ranges();
    assert 0 !in LONG_NAME.name && 0 !in LONG_NAME.salt && 0 !in LONG_NAME.secret;
    assert CStr(LONG_NAME.name) == LONG_NAME.name && CStr(LONG_NAME.salt) == LONG_NAME.salt;
    assert CStr(LONG_NAME.secret) == LONG_NAME.secret;
  }

  /** Registering that account stops the server, which never answers. */
  lemma LongNameStops()
    ensures exists y :: Reached(y) && y.s.crashed && y.up == [] && y.down == [] && y.c.state == CRegistering
  {
    hide Reached, HostInt, ReadHostInt, Registration.Fits, Registration.Pack, Registration.Unpack, Range, Serve;
    hide RegisterFits;
    LegalReplies();
    StartReached();
    LongNameFits();
    Registration.RoundTrip(LONG_NAME);
    var packet := Packet(SRegistering, Registration.Pack(LONG_NAME));
    var y1 := START.(c := START.c.(state := CRegistering, asked := [LONG_NAME]), up := [Packet(SInit, ZERO), packet]);
    assert [] + [LONG_NAME] == [LONG_NAME];
    assert Goes(START, Key(REGISTER), y1);
    Onward(START, Key(REGISTER), y1);
    var y2 := y1.(s := y1.s.(state := SRegistering), up := [packet]);
    assert Goes(y1, ServerReads(REPLIES), y2);
    Onward(y1, ServerReads(REPLIES), y2);
    var y3 := y2.(s := y2.s.(state := SInit, crashed := true), up := []);
    assert Goes(y2, ServerReads(REPLIES), y3);
    Onward(y2, ServerReads(REPLIES), y3);
  }

  // ---- A login ----

  const USER: Typed := Typed(ONE, Registration.Account([97], [], []), false, [])

  /** The client's fields after login, with `state` and the files fetched. */
  function Here(state: ClientState, size: int, got: int, saved: seq<byte>, fetched: seq<seq<byte>>): Client {
    Client(state, size, got, [], saved, [97], [], fetched, [])
  }

  function There(state: ServerState, size: int, rest: seq<byte>, pumping: bool, offered: seq<seq<byte>>): Server {
    Server(state, [97], Path.ROOT, size, [], rest, pumping, [], offered, [], [], false, false)
  }

  const GREETED: Sys := START.(c := Here(CLogin1, 0, 0, [], []), up := [Packet(SInit, ONE), Packet(SLogin1, [97])])
  const GREETING: Sys := GREETED.(s := START.s.(state := SLogin1), up := [Packet(SLogin1, [97])])
  const SALTED: Sys :=
    GREETED.(s := START.s.(state := SLogin2, user := [97]), up := [], down := [Packet(CLogin1, [98])])

  lemma SaltReached()
    ensures Reached(SALTED)
  {
    hide Reached, HostInt, ReadHostInt, Registration.Fits, Registration.Pack, Range, Serve;
    LegalReplies();
    StartReached();
    assert Goes(START, Key(USER), GREETED);
    Onward(START, Key(USER), GREETED);
    assert Goes(GREETED, ServerReads(REPLIES), GREETING);
    Onward(GREETED, ServerReads(REPLIES), GREETING);
    assert CStr([97]) == [97] && CStr([98]) == [98];
    assert Goes(GREETING, ServerReads(REPLIES), SALTED);
    Onward(GREETING, ServerReads(REPLIES), SALTED);
  }

  const PROVED: Sys := Sys(Here(CLogin2, 0, 0, [], []), SALTED.s, [Packet(SLogin2, [99])], [])
  const ADMITTED: Sys := Sys(PROVED.c, There(SLoggedIn, 0, [], false, []), [], [ReturnInt(CLogin2, 0)])
  const LOGGED_IN: Sys := ADMITTED.(c := Here(CLoggedIn, 0, 0, [], []), down := [])

  lemma LoginReached()
    ensures Reached(LOGGED_IN)
  {
    hide Reached, HostInt, ReadHostInt, Registration.Fits, Registration.Pack, Range, Serve;
    LegalReplies();
    SaltReached();
    assert Goes(SALTED, ClientReads([99]), PROVED);
    Onward(SALTED, ClientReads([99]), PROVED);
    assert CStr([97]) == [97] && CStr([99]) == [99];
    assert Goes(PROVED, ServerReads(REPLIES), ADMITTED);
    Onward(PROVED, ServerReads(REPLIES), ADMITTED);
    ZeroReads();
    assert Goes(ADMITTED, ClientReads([]), LOGGED_IN);
    Onward(ADMITTED, ClientReads([]), LOGGED_IN);
  }

  lemma ZeroReads()
    ensures ReadHostInt(ReturnInt(CLogin2, 0).bytes, 4) == 0
  {
    Ranges();
    ReplyReads(CLogin2, 0);
  }

  // ---- A listing that stops the server ----

  const LIST: Typed := Typed(LS, Registration.Account([], [], []), false, [])

  const LISTING: Sys := LOGGED_IN.(c := Here(CPrint, 0, 0, [], []), up := [Packet(SLoggedIn, LS)])

  lemma ListLine()
    ensures Trim(LS) == LS && HasWord(LS) && Judge(LS, false) == Ask(CPrint) && RequestOf(LS) == Ls
  {
    hide Tokenise;
    assert LS[0] != SPACE && LS[1] != SPACE;
  }

  lemma ListingReached()
    ensures Reached(LISTING)
  {
    hide Reached, HostInt, ReadHostInt, Range, Trim, HasWord, Judge;
    LoginReached();
    ListLine();
    assert Goes(LOGGED_IN, Key(LIST), LISTING);
    Onward(LOGGED_IN, Key(LIST), LISTING);
  }

  lemma ListingFails(s: Server)
    requires s.state == SLoggedIn && Legal(REPLIES) && Path.WellFormed(s.path)
    ensures ServerOnMessage(s, LS, REPLIES) == ServerTurn(s.(crashed := true), [])
  {
    hide Tokenise, HostInt, Where;
    ListLine();
  }

  /** `ls` in a directory that is gone stops the server, which never answers. */
  lemma MissingDirectoryStops()
    ensures exists y :: Reached(y) && y.s.crashed && y.up == [] && y.down == [] && y.c.state == CPrint
  {
    hide Reached, ServerOnMessage, Legal, Transferable;
    ListingReached();
    LegalReplies();
    ListingFails(LISTING.s);
    Unit(LISTING.down);
    var y := LISTING.(s := LISTING.s.(crashed := true), up := []);
    assert LISTING.up[0].bytes == LS && LISTING.up[1..] == [];
    assert Goes(LISTING, ServerReads(REPLIES), y);
    Onward(LISTING, ServerReads(REPLIES), y);
  }

  // ---- A download that stops the server ----

  const FETCH: Typed := Typed(GETS + [SPACE] + [102], Registration.Account([], [], []), false, [])
  const ASKED: Sys := LOGGED_IN.(c := Here(CBeginGets, 0, 0, [], []), up := [Packet(SLoggedIn, FETCH.line)])
  const OFFERED: Sys :=
    ASKED.(s := There(SGets, 1, [1], true, [[1]]), up := [], down := [Packet(CBeginGets, HostInt(1, 8))])

  lemma FetchLine()
    ensures Trim(FETCH.line) == FETCH.line && HasWord(FETCH.line)
    ensures Judge(FETCH.line, false) == Ask(CBeginGets) && RequestOf(FETCH.line) == Gets
  {
    hide Tokenise;
    TokenisePrinted(GETS, [102]);
    var line := FETCH.line;
    assert line[0] != SPACE && line[|line| - 1] != SPACE;
  }

  /** The line "gets f" and the server's answer to it. */
  lemma DownloadReached()
    ensures Reached(OFFERED)
  {
    hide Reached, HostInt, ReadHostInt, Range, Tokenise, Trim, HasWord, Judge, RequestOf;
    LoginReached();
    LegalReplies();
    FetchLine();
    assert Goes(LOGGED_IN, Key(FETCH), ASKED);
    Onward(LOGGED_IN, Key(FETCH), ASKED);
    assert Goes(ASKED, ServerReads(REPLIES), OFFERED);
    Onward(ASKED, ServerReads(REPLIES), OFFERED);
  }

  const PUMPED: Sys :=
    OFFERED.(s := There(SGets, 0, [], true, [[1]]), down := OFFERED.down + [Packet(CGets, [1])])
  const ANNOUNCED: Sys := PUMPED.(c := Here(CGets, 1, 0, [], []), down := [Packet(CGets, [1])])
  const FETCHED: Sys := ANNOUNCED.(c := Here(CLoggedIn, 1, 1, [1], [[1]]), up := [ACK], down := [])

  lemma FetchReached()
    ensures Reached(FETCHED)
  {
    hide Reached, HostInt, ReadHostInt, Range;
    DownloadReached();
    assert CStr([1]) == [1];
    assert Goes(OFFERED, PumpFile, PUMPED);
    Onward(OFFERED, PumpFile, PUMPED);
    Ranges();
    SizeReads(1);
    assert Goes(PUMPED, ClientReads([]), ANNOUNCED);
    Onward(PUMPED, ClientReads([]), ANNOUNCED);
    assert [] + [1 as byte] == [1];
    assert ReceiveData(ANNOUNCED.c, [1]) == ClientTurn(FETCHED.c, [ACK]);
    assert Goes(ANNOUNCED, ClientReads([]), FETCHED);
    Onward(ANNOUNCED, ClientReads([]), FETCHED);
  }

  /** After the login and the download of a file of one byte, the acknowledgement overtakes the last run of
      `handleGets`. Both queues are then empty and the server is stopped. */
  lemma TornReached()
    ensures exists y :: Reached(y) && y.s.torn && y.up == [] && y.down == [] && y.c.state == CLoggedIn
  {
    hide Reached, HostInt, ReadHostInt, Range, Serve;
    FetchReached();
    LegalReplies();
    AckReadsZero();
    ReachedNext(FETCHED, ServerReads(REPLIES));
    var y := Apply(FETCHED, ServerReads(REPLIES));
    assert Reached(y) && y.s.torn && y.up == [];
  }
}
