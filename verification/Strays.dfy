/** Runs with files of any kind: a transfer that does not come through leaves the two sides apart for ever. */
module Strays {
  import opened Bytes
  import opened Seqs
  import opened Tokens
  import opened Transfer
  import opened Session
  import opened System
  import Listing
  import Path
  import Registration
  import Protocol
  import Limits

  // ---- A transfer gone astray ----

  /** The server is owed more than the messages hold, or nothing at all and will not notice. */
  ghost predicate Owed(s: Server, data: seq<Up>) {
    s.state == SPuts && (s.fileSize > |Join(Payloads(data))| || (s.fileSize == 0 && data == []))
  }

  predicate Waiting(w: ClientState) {
    w in {CPrint, CMkdir, CRemove, CCd, CBeginPuts, CBeginGets}
  }

  /** The upload of a file that does not come through: announced, awaited, sent, followed by a command that
      will be taken for data, and over. */
  ghost predicate UploadAstray(y: Sys) {
    && !y.s.pumping
    && (|| (y.c.state == CPuts && !Carriable(y.c.source) && Sized(y.c.source) && y.down == []
            && y.s.state == SBeginPuts && |y.up| == 1 && y.up[0].bytes == HostInt(|y.c.source|, 8))
        || (y.c.state == CPuts && !Carriable(y.c.source) && y.up == [] && |y.down| == 1
            && ReadHostInt(y.down[0].bytes, 4) == 0 && y.s.state == SPuts && y.s.fileSize == |y.c.source|)
        || (y.c.state == CLoggedIn && y.down == [] && Owed(y.s, y.up))
        || (Waiting(y.c.state) && y.down == [] && y.up != [] && Owed(y.s, y.up[..|y.up| - 1]))
        || (Waiting(y.c.state) && y.down == [] && y.up == [] && y.s.state in {SPuts, SLoggedIn}))
  }

  /** The client is owed more than is in flight and still to come, or nothing at all. */
  ghost predicate Lacks(total: int, s: Server, data: seq<Down>) {
    && s.state == SGets && s.fileSize == |s.rest|
    && (|| (total == 0 && data == [] && s.rest == [])
        || total > |Join(Payloads(data))| + |Join(Chunks(s.rest))|)
  }

  ghost predicate DownloadAstray(y: Sys) {
    && y.up == []
    && (|| (y.c.state == CBeginGets && y.down != [] && ReadHostInt(y.down[0].bytes, 8) >= 0
            && Lacks(ReadHostInt(y.down[0].bytes, 8), y.s, y.down[1..]))
        || (y.c.state == CGets && Lacks(y.c.fileSize - y.c.curSize, y.s, y.down)))
  }

  ghost predicate Astray(y: Sys) {
    UploadAstray(y) || DownloadAstray(y)
  }

  // ---- How it begins ----

  /** Its size is announced as that of a file that would come through. */
  lemma UploadLeaves(y: Sys, digest: seq<byte>)
    requires Inv(y) && Enabled(y, ClientReads(digest)) && !Carries(y, ClientReads(digest))
    requires Regular(y, ClientReads(digest))
    ensures UploadAstray(Apply(y, ClientReads(digest)))
  {
    hide HostInt, ReadHostInt, RequestOf, Join, PathOk, Accounts, Carriable, Sized, Chunks, Uploads, Downloads;
    var p: seq<Up>, t: seq<Up> :| InvAt(y, p, t);
    Unit(t);
    Unit([Packet(SBeginPuts, HostInt(|y.c.source|, 8))]);
  }

  lemma DownloadLeaves(y: Sys, a: Answers)
    requires Inv(y) && Enabled(y, ServerReads(a)) && !Carries(y, ServerReads(a)) && Regular(y, ServerReads(a))
    ensures DownloadAstray(Apply(y, ServerReads(a)))
  {
    hide HostInt, ReadHostInt, RequestOf, PathOk, Accounts, Users, Chunks, Uploads, Downloads, Tokenise, Path.Cd, Range;
    hide Join, Carriable, Inv;
    AskedAlone(y, a);
    SizeReads(|a.file|);
    Lacking(a.file);
    JoinEmpty();
    var z := Apply(y, ServerReads(a));
    Unit(z.down);
    assert z.down[1..] == [];
    assert Payloads(z.down[1..]) == [];
  }

  /** A file that does not come through is empty, or its pieces hold less than it does. */
  lemma Lacking(file: seq<byte>)
    requires !Carriable(file)
    ensures file == [] || |file| > |Join(Chunks(file))|
  {
    ChunksCarry(file);
  }

  lemma AskedAlone(y: Sys, a: Answers)
    requires Inv(y) && Enabled(y, ServerReads(a)) && DownloadBegins(y, ServerReads(a)) && Sized(a.file)
    ensures |y.up| == 1 && y.down == [] && y.c.state == CBeginGets && -Range(8) <= 2 * |a.file| < Range(8)
    ensures Serve(y.s, y.up[0].bytes, a).s.state == SGets && RequestOf(y.up[0].bytes) == Gets && !a.opens && a.found
  {
    hide HostInt, ReadHostInt, Join, PathOk, Accounts, Users, Tokenise, Path.Cd, RequestOf, Listing.Ls, Where;
    var p: seq<Up>, t: seq<Up> :| InvAt(y, p, t);
    Unit(t);
  }

  // ---- How it goes on ----

  lemma AsksAndWaits(line: seq<byte>, present: bool)
    ensures Judge(line, present).Ask? ==> Waiting(Judge(line, present).wait)
  {
    hide Tokenise;
  }

  /** A command is sent behind the data that is still unread. */
  lemma CommandBehind(y: Sys, t: Typed)
    requires UploadAstray(y) && Enabled(y, Key(t)) && y.c.state == CLoggedIn
    ensures UploadAstray(Apply(y, Key(t)))
  {
    hide HostInt, ReadHostInt, Join, Carriable, Sized, Trim, HasWord, Judge, Owed, Registration.Pack;
    Unit(y.up);
    AsksAndWaits(Trim(t.line), t.present);
    Cut(y.up, Keyboard(y.c, t).out);
  }

  lemma UploadKey(y: Sys, t: Typed)
    requires UploadAstray(y) && Enabled(y, Key(t))
    ensures UploadAstray(Apply(y, Key(t)))
  {
    hide HostInt, ReadHostInt, Join, Carriable, Sized, Trim, Judge, Owed, Registration.Pack;
    if y.c.state == CLoggedIn {
      CommandBehind(y, t);
    } else {
      Unit(y.up);
      assert Apply(y, Key(t)) == y;
    }
  }

  lemma UploadServer(y: Sys, a: Answers)
    requires UploadAstray(y) && Enabled(y, ServerReads(a))
    ensures UploadAstray(Apply(y, ServerReads(a)))
  {
    hide HostInt, ReadHostInt, Carriable, Range;
    Unit(y.down);
    if y.s.state == SBeginPuts {
      GoAhead(y.c.source);
      Unit([ReturnInt(CPuts, 0)]);
    } else if y.c.state == CLoggedIn {
      PayloadsTail(y.up);
    } else {
      var data := y.up[..|y.up| - 1];
      if data != [] {
        PayloadsTail(data);
        assert y.up[1..][..|y.up[1..]| - 1] == data[1..];
      }
    }
  }

  lemma GoAhead(file: seq<byte>)
    requires Sized(file)
    ensures ReadHostInt(HostInt(|file|, 8), 8) == |file|
    ensures |ReturnInt(CPuts, 0).bytes| == 4 && ReadHostInt(ReturnInt(CPuts, 0).bytes, 4) == 0
  {
    Ranges();
    SizeReads(|file|);
    ReplyReads(CPuts, 0);
  }

  lemma UploadClient(y: Sys, digest: seq<byte>)
    requires UploadAstray(y) && Enabled(y, ClientReads(digest))
    ensures UploadAstray(Apply(y, ClientReads(digest)))
  {
    hide HostInt, ReadHostInt, Join, Chunks, Carriable;
    var ms := Chunks(y.c.source);
    var out := Wrap(SPuts, ms);
    Unit(out);
    assert Payloads(out) == ms;
    Lacking(y.c.source);
    if y.c.source == [] { EmptyFileStalls(); }
  }

  lemma DownloadClient(y: Sys, digest: seq<byte>)
    requires DownloadAstray(y) && Enabled(y, ClientReads(digest))
    ensures DownloadAstray(Apply(y, ClientReads(digest)))
  {
    hide HostInt, ReadHostInt, Join, Chunks;
    Unit(y.up);
    if y.c.state == CGets { PayloadsTail(y.down); }
  }

  lemma DownloadPump(y: Sys)
    requires DownloadAstray(y) && Enabled(y, PumpFile)
    ensures DownloadAstray(Apply(y, PumpFile))
  {
    hide HostInt, ReadHostInt, Join, CStr;
    var n := ReadLen(y.s.rest);
    if y.s.fileSize == 0 {
      Unit(y.down);
    } else {
      var m := CStr(y.s.rest[..n]);
      NextPiece(y.s.rest);
      var data := if y.c.state == CGets then y.down else y.down[1..];
      JoinOneMore(data, Packet(CGets, m));
      Uncons(y.down + [Packet(CGets, m)], []);
      if y.c.state == CBeginGets { Uncons(y.down, [Packet(CGets, m)]); }
    }
  }

  lemma NextPiece(rest: seq<byte>)
    requires rest != []
    ensures var n := ReadLen(rest); Join(Chunks(rest)) == CStr(rest[..n]) + Join(Chunks(rest[n..]))
  {
    hide CStr;
    var n := ReadLen(rest);
    assert Chunks(rest)[1..] == Chunks(rest[n..]);
  }

  lemma StaysAstray(y: Sys, e: Step)
    requires Astray(y) && Enabled(y, e)
    ensures Astray(Apply(y, e))
  {
    hide HostInt, ReadHostInt, Join, Chunks, Carriable, Sized, Keyboard, ClientOnMessage, ServerOnMessage, Pump, Apply;
    match e
    case Key(t) =>
      if UploadAstray(y) { UploadKey(y, t); } else { DownloadKey(y, t); }
    case ClientReads(digest) =>
      if UploadAstray(y) { UploadClient(y, digest); } else { DownloadClient(y, digest); }
    case ServerReads(a) => UploadServer(y, a);
    case PumpFile => DownloadPump(y);
  }

  lemma DownloadKey(y: Sys, t: Typed)
    requires DownloadAstray(y) && Enabled(y, Key(t))
    ensures DownloadAstray(Apply(y, Key(t)))
  {
    hide HostInt, ReadHostInt, Join, Chunks;
    Unit(y.up);
  }

  // ---- Whole runs ----

  /** A run with files of any kind. */
  ghost predicate Run(trace: seq<Sys>, steps: seq<Step>) {
    && |trace| == |steps| + 1 && trace[0] == START
    && forall i :: 0 <= i < |steps| ==>
         Enabled(trace[i], steps[i]) && Regular(trace[i], steps[i]) && trace[i + 1] == Apply(trace[i], steps[i])
  }

  lemma {:induction false} RunStays(trace: seq<Sys>, steps: seq<Step>, k: nat)
    requires Run(trace, steps) && k < |trace|
    ensures if forall i :: 0 <= i < k ==> Carries(trace[i], steps[i]) then Inv(trace[k]) else Astray(trace[k])
  {
    hide Inv, Astray, Apply, Enabled, Regular, Carries;
    if k == 0 {
      InvStart();
    } else {
      RunStays(trace, steps, k - 1);
      if Astray(trace[k - 1]) { StaysAstray(trace[k - 1], steps[k - 1]); }
      if Inv(trace[k - 1]) { Parts(trace[k - 1], steps[k - 1]); }
    }
  }

  lemma Parts(y: Sys, e: Step)
    requires Inv(y) && Enabled(y, e) && Regular(y, e)
    ensures if Carries(y, e) then Inv(Apply(y, e)) else Astray(Apply(y, e))
  {
    hide Inv, Apply, Regular, UploadAstray, DownloadAstray, UploadBegins, DownloadBegins;
    if Carries(y, e) {
      StepPreserves(y, e);
    } else {
      match e
      case ClientReads(digest) => UploadLeaves(y, digest);
      case ServerReads(a) => DownloadLeaves(y, a);
    }
  }

  ghost predicate Agreed(y: Sys) {
    (y.c.state == CInit && y.s.state == SInit) || (y.c.state == CLoggedIn && y.s.state == SLoggedIn)
  }

  lemma AstrayDisagrees(y: Sys)
    requires Astray(y) && y.up == [] && y.down == []
    ensures !Agreed(y)
  {
    hide HostInt, ReadHostInt, Join, Chunks;
  }

  /** Whenever nothing is in flight and the server is alive, the two sides agree exactly if every file whose
      transfer began was not empty and held no NUL. */
  lemma AgreementIff(trace: seq<Sys>, steps: seq<Step>, k: nat)
    requires Run(trace, steps) && k < |trace| && Protocol.Quiet(trace[k])
    ensures Agreed(trace[k]) <==> forall i :: 0 <= i < k ==> Carries(trace[i], steps[i])
  {
    hide Inv, Astray, Carries;
    RunStays(trace, steps, k);
    if forall i :: 0 <= i < k ==> Carries(trace[i], steps[i]) {
      Protocol.QuietMeansAgreement(trace[k]);
    } else {
      AstrayDisagrees(trace[k]);
    }
  }

  // ---- Such runs exist ----

  ghost predicate Reached(y: Sys) {
    exists trace, steps :: Run(trace, steps) && trace[|steps|] == y
  }

  ghost predicate Goes(y: Sys, e: Step, z: Sys) {
    Enabled(y, e) && Regular(y, e) && Apply(y, e) == z
  }

  lemma Onward(y: Sys, e: Step, z: Sys)
    requires Reached(y) && Goes(y, e, z)
    ensures Reached(z)
  {
    hide Enabled, Regular, Apply;
    var trace, steps :| Run(trace, steps) && trace[|steps|] == y;
    assert Run(trace + [z], steps + [e]);
    assert (trace + [z])[|steps + [e]|] == z;
  }

  lemma LoginReached()
    ensures Reached(Limits.LOGGED_IN)
  {
    hide Enabled, Apply;
    Limits.LoginReached();
    var trace, steps :| Protocol.Run(trace, steps) && trace[|steps|] == Limits.LOGGED_IN;
    assert Run(trace, steps);
  }

  const NOBODY: Registration.Account := Registration.Account([], [], [])
  const PUT: Typed := Typed(PUTS + [SPACE] + [102], NOBODY, true, [])
  const GRANT: Answers := Answers(0, [], [], Listing.Missing, 0, 0, false, false, [])

  lemma PutLine()
    ensures Trim(PUT.line) == PUT.line && HasWord(PUT.line)
    ensures Judge(PUT.line, true) == Ask(CBeginPuts) && RequestOf(PUT.line) == Puts
  {
    hide Tokenise;
    TokenisePrinted(PUTS, [102]);
    var line := PUT.line;
    assert line[0] != SPACE && line[|line| - 1] != SPACE;
  }

  lemma LegalGrant()
    ensures Legal(GRANT) && Sized([])
  {
    Ranges();
  }

  function Mine(state: ClientState, sent: seq<seq<byte>>): Client {
    Limits.Here(state, 0, 0, [], []).(sent := sent)
  }

  const BEGUN: Sys := Limits.LOGGED_IN.(
    c := Mine(CBeginPuts, []), s := Limits.LOGGED_IN.s.(state := SBeginPuts), down := [ReturnInt(CBeginPuts, 0)])

  lemma PutReached()
    ensures Reached(BEGUN)
  {
    hide Reached, HostInt, ReadHostInt, Range, Tokenise, Trim, HasWord, Judge, RequestOf;
    LoginReached();
    LegalGrant();
    PutLine();
    var y1 := Limits.LOGGED_IN.(c := Mine(CBeginPuts, []), up := [Packet(SLoggedIn, PUT.line)]);
    assert Goes(Limits.LOGGED_IN, Key(PUT), y1);
    Onward(Limits.LOGGED_IN, Key(PUT), y1);
    assert Goes(y1, ServerReads(GRANT), BEGUN);
    Onward(y1, ServerReads(GRANT), BEGUN);
  }

  const STALLED: Sys := Limits.LOGGED_IN.(c := Mine(CLoggedIn, [[]]), s := Limits.LOGGED_IN.s.(state := SPuts))

  lemma StallReached()
    ensures Reached(STALLED)
  {
    hide Reached, HostInt, ReadHostInt, Range, Chunks;
    PutReached();
    LegalGrant();
    GoAhead([]);
    ZeroReads();
    var y1 := BEGUN.(c := Mine(CPuts, []), up := [Packet(SBeginPuts, HostInt(0, 8))], down := []);
    assert Goes(BEGUN, ClientReads([]), y1);
    Onward(BEGUN, ClientReads([]), y1);
    var y2 := y1.(s := y1.s.(state := SPuts, fileSize := 0), up := [], down := [ReturnInt(CPuts, 0)]);
    assert Goes(y1, ServerReads(GRANT), y2);
    Onward(y1, ServerReads(GRANT), y2);
    EmptyFileStalls();
    assert Wrap(SPuts, Chunks([])) == [];
    Unit<seq<byte>>([[]]);
    assert Goes(y2, ClientReads([]), STALLED);
    Onward(y2, ClientReads([]), STALLED);
  }

  lemma ZeroReads()
    ensures ReadHostInt(ReturnInt(CBeginPuts, 0).bytes, 4) == 0
  {
    Ranges();
    ReplyReads(CBeginPuts, 0);
  }

  const NEXT: Typed := Typed(PWD, NOBODY, false, [])

  lemma PwdLine()
    ensures Trim(PWD) == PWD && HasWord(PWD) && Judge(PWD, false) == Ask(CPrint)
  {
    assert PWD[0] != SPACE && PWD[2] != SPACE;
  }

  const TYPED: Sys := STALLED.(c := Mine(CPrint, [[]]), up := [Packet(SLoggedIn, PWD)])
  const MISREAD: Sys := TYPED.(s := TYPED.s.(fileSize := -3, saved := PWD), up := [])

  lemma TypedReached()
    ensures Reached(TYPED)
  {
    hide Reached, HostInt, ReadHostInt, Range, Tokenise, Trim, HasWord, Judge;
    StallReached();
    PwdLine();
    assert Goes(STALLED, Key(NEXT), TYPED);
    Onward(STALLED, Key(NEXT), TYPED);
  }

  lemma TakenForData()
    ensures Legal(GRANT) ==> ServerOnMessage(TYPED.s, PWD, GRANT) == ServerTurn(MISREAD.s, [])
  {
    hide HostInt, ReadHostInt, Serve;
    Unit(PWD);
  }

  /** After the upload of an empty file the next command, `pwd`, is stored as file data; nothing is left in
      flight, and the client waits for ever. */
  lemma EmptyUploadReached()
    ensures exists y :: Reached(y) && Protocol.Quiet(y) && y.c.state == CPrint && y.s.state == SPuts && y.s.saved == PWD
  {
    hide Reached, ServerOnMessage, Legal, Sized;
    TypedReached();
    LegalGrant();
    TakenForData();
    assert TYPED.up[0].bytes == PWD && TYPED.up[1..] == [];
    assert Goes(TYPED, ServerReads(GRANT), MISREAD);
    Onward(TYPED, ServerReads(GRANT), MISREAD);
  }
}
