/** What the invariant of the two-party session gives: theorems over whole runs. */
module Protocol {
  import opened Bytes
  import opened Seqs
  import opened Tokens
  import opened Transfer
  import opened Session
  import opened System
  import Home
  import Listing
  import Path
  import Registration

  /** A run from the start, one system state more than there are steps. */
  ghost predicate Run(trace: seq<Sys>, steps: seq<Step>) {
    && |trace| == |steps| + 1 && trace[0] == START
    && forall i :: 0 <= i < |steps| ==>
         Enabled(trace[i], steps[i]) && Supported(trace[i], steps[i]) && trace[i + 1] == Apply(trace[i], steps[i])
  }

  lemma {:induction false} RunKeepsInv(trace: seq<Sys>, steps: seq<Step>, k: nat)
    requires Run(trace, steps) && k < |trace|
    ensures Inv(trace[k])
  {
    if k == 0 {
      InvStart();
    } else {
      RunKeepsInv(trace, steps, k - 1);
      StepPreserves(trace[k - 1], steps[k - 1]);
    }
  }

  // ---- No message is misread ----

  /** The next message for the server is one that was sent for the state the server is in, in the
      format that state reads. */
  ghost predicate ServerReadsRight(y: Sys) {
    y.up != [] ==>
      && y.up[0].want == y.s.state
      && match y.s.state
         case SInit => y.up[0].bytes == ZERO || y.up[0].bytes == ONE
         case SRegistering => Registration.Unpack(y.up[0].bytes).Unpacked?
         case SLoggedIn => RequestOf(y.up[0].bytes) != Unknown && WaitOf(RequestOf(y.up[0].bytes)) == y.c.state
         case SBeginPuts => |y.up[0].bytes| == 8
         case SPuts => 0 < |y.up[0].bytes| <= y.s.fileSize
         case SGets => |y.up[0].bytes| == 4
         case _ => true
  }

  ghost predicate ClientReadsRight(y: Sys) {
    y.down != [] ==>
      && y.down[0].want == y.c.state
      && match y.c.state
         case CInit => false
         case CLoggedIn => false
         case CLogin1 => true
         case CPrint => true
         case CBeginGets => |y.down[0].bytes| == 8
         case CGets => 0 < |y.down[0].bytes| <= y.c.fileSize - y.c.curSize
         case _ => |y.down[0].bytes| >= 4
  }

  lemma ResidueReadsRight(y: Sys, p: seq<Up>, t: seq<Up>)
    requires InvAt(y, p, t) && p != []
    ensures ServerReadsRight(y) && ClientReadsRight(y)
  {
    hide HostInt, ReadHostInt, Join, RequestOf, Transferable, PathOk, Accounts, Registration.Unpack;
    Uncons(p, t);
    if y.s.state == SPuts { PayloadsTail(p); } else { AckSize(); }
  }

  lemma RequestReadsRight(y: Sys)
    requires InvAt(y, [], y.up)
    ensures ServerReadsRight(y)
  {
    hide HostInt, ReadHostInt, Join, RequestOf, Transferable, PathOk;
    hide Registration.Pack, Registration.Unpack, Registration.Fits;
    if y.s.state == SRegistering && y.up != [] {
      Registration.RoundTrip(y.c.asked[|y.c.asked| - 1]);
    }
  }

  lemma ReplyReadsRight(y: Sys)
    requires InvAt(y, [], y.up)
    ensures ClientReadsRight(y)
  {
    hide HostInt, ReadHostInt, Join, RequestOf, Transferable, PathOk, Accounts;
    if y.down != [] && y.c.state == CGets { PayloadsTail(y.down); }
  }

  lemma InvReadsRight(y: Sys)
    requires Inv(y)
    ensures ServerReadsRight(y) && ClientReadsRight(y)
  {
    hide Join, RequestOf, Stage, ServerOk, SourceOk, Residue, Uploads, Downloads, Accounts;
    if Frozen(y) { return; }
    var p: seq<Up>, t: seq<Up> :| InvAt(y, p, t);
    if p != [] {
      ResidueReadsRight(y, p, t);
    } else {
      Unit(t);
      RequestReadsRight(y);
      ReplyReadsRight(y);
    }
  }

  lemma AckSize()
    ensures |ACK.bytes| == 4
  {
  }

  /** In every reachable state both queues are headed by a message meant for the state its reader is
      in: no command is taken for file data, no data for a command, no reply in a wrong wait state. */
  lemma NoMisreading(trace: seq<Sys>, steps: seq<Step>, k: nat)
    requires Run(trace, steps) && k < |trace|
    ensures ServerReadsRight(trace[k]) && ClientReadsRight(trace[k])
  {
    RunKeepsInv(trace, steps, k);
    InvReadsRight(trace[k]);
  }

  /** Each request is answered exactly once, with a message for the state the client waits in, and not
      at all exactly if the handler does not survive it. */
  lemma RequestsAnsweredOnce(y: Sys, a: Answers)
    requires Inv(y) && Enabled(y, ServerReads(a)) && y.s.state == SLoggedIn
    ensures var r := ServerOnMessage(y.s, y.up[0].bytes, a);
            if Survives(y.s, y.up[0].bytes, a) then |r.out| == 1 && r.out[0].want == y.c.state && !r.s.crashed
            else r.out == [] && r.s.crashed
  {
    hide RequestOf, HostInt, Path.Cd, Tokenise, Listing.Ls;
    InvReadsRight(y);
  }

  // ---- Quiet states ----

  ghost predicate Quiet(y: Sys) {
    y.up == [] && y.down == [] && !y.s.pumping && Alive(y.s)
  }

  /** With nothing in flight and the server alive the two states correspond, no wait state is left over, and every file
      transferred has arrived complete and unchanged. */
  lemma QuietMeansAgreement(y: Sys)
    requires Inv(y) && Quiet(y)
    ensures (y.c.state == CInit && y.s.state == SInit) || (y.c.state == CLoggedIn && y.s.state == SLoggedIn)
    ensures y.s.stored == y.c.sent && y.c.fetched == y.s.offered && y.s.accounts == y.c.asked
  {
    hide HostInt, ReadHostInt, RequestOf, Transferable, PathOk;
    var p: seq<Up>, t: seq<Up> :| InvAt(y, p, t);
    assert p == [] && t == [];
    JoinEmpty();
    assert Payloads(y.down) == [];
    Unit(y.s.stored);
  }

  /** Completed uploads are always the first files sent, completed downloads the first offered. */
  lemma FilesInOrder(y: Sys)
    requires Inv(y)
    ensures y.s.stored <= y.c.sent && y.c.fetched <= y.s.offered
  {
    hide HostInt, ReadHostInt, RequestOf, Transferable, Join, PathOk;
    Unit(y.s.stored);
    if !Frozen(y) { var p: seq<Up>, t: seq<Up> :| InvAt(y, p, t); }
  }

  /** The accounts registered are the first of those the client packed, field by field. */
  lemma AccountsInOrder(y: Sys)
    requires Inv(y)
    ensures y.s.accounts <= y.c.asked
  {
    hide HostInt, ReadHostInt, RequestOf, Transferable, Join, PathOk, Registration.Pack;
    if !Frozen(y) { var p: seq<Up>, t: seq<Up> :| InvAt(y, p, t); }
  }

  // ---- What the user learns ----

  /** The working directory is where the `cd` commands since login lead; it spells the list of components
      they leave, and if no operand had a slash, the stack of directories entered and not left. */
  lemma DirectoryIsHistory(y: Sys)
    requires Inv(y) && y.s.state in {SLoggedIn, SBeginPuts, SPuts, SGets}
    ensures y.s.path == Path.CdAll(Path.ROOT, y.s.cds) == Path.Render(Home.ListAll(y.s.cds))
    ensures (forall i :: 0 <= i < |y.s.cds| ==> Path.SLASH !in y.s.cds[i].parm) ==>
              y.s.path == Path.Render(Path.CdStackAll([], y.s.cds))
  {
    Home.HistoryRefinesList(y.s.cds);
    hide Path.Cd, HostInt, ReadHostInt, RequestOf, Transferable, Join, Accounts;
    if !Frozen(y) { var p: seq<Up>, t: seq<Up> :| InvAt(y, p, t); }
    if forall i :: 0 <= i < |y.s.cds| ==> Path.SLASH !in y.s.cds[i].parm {
      Path.HistoryRefinesStack([], y.s.cds);
    }
  }

  /** Reading a reply the way the client reads it gives back the result the server got; `puts` and
      `gets` are granted exactly when the server is then in the transfer state. */
  lemma RepliesReadBack(y: Sys, a: Answers)
    requires Inv(y) && Enabled(y, ServerReads(a)) && Supported(y, ServerReads(a)) && y.s.state == SLoggedIn
    requires Survives(y.s, y.up[0].bytes, a)
    ensures var r := ServerOnMessage(y.s, y.up[0].bytes, a);
            |r.out| == 1 &&
            match RequestOf(y.up[0].bytes)
            case Pwd => r.out[0].bytes == Path.CdAll(Path.ROOT, y.s.cds)
            case Ls => Listing.Ls(Where(y.s), a.dir) == Listing.Text(r.out[0].bytes)
            case Mkdir => ReadHostInt(r.out[0].bytes, 4) == a.made
            case Remove => ReadHostInt(r.out[0].bytes, 4) == a.removed
            case Cd =>
              var parm := Tokenise(y.up[0].bytes).parm;
              ReadHostInt(r.out[0].bytes, 4) == 0 <==> parm in {[], Path.DOT, Path.DOTDOT} || a.opens
            case Puts => ReadHostInt(r.out[0].bytes, 4) == 0 <==> r.s.state == SBeginPuts
            case Gets =>
              && (ReadHostInt(r.out[0].bytes, 8) >= 0 <==> r.s.state == SGets)
              && (r.s.state == SGets ==> ReadHostInt(r.out[0].bytes, 8) == |a.file|)
            case Unknown => false
  {
    hide HostInt, ReadHostInt, RequestOf, Tokenise, Range, Transferable, Inv, Listing.Ls, Where;
    InvReadsRight(y);
    RequestsAnsweredOnce(y, a);
    DirectoryIsHistory(y);
    Ranges();
    ReplyReads(CMkdir, a.made);
    ReplyReads(CRemove, a.removed);
    ReplyReads(CCd, 0);
    ReplyReads(CCd, -1);
    ReplyReads(CBeginPuts, 0);
    ReplyReads(CBeginPuts, -1);
    SizeReads(-1);
    if ServerOnMessage(y.s, y.up[0].bytes, a).s.state == SGets {
      FileSize(a.file);
      SizeReads(|a.file|);
    }
  }

  /** Login succeeds, on both sides, exactly if the digest sent is the one stored; the
      server then takes the client for the user that it named. */
  lemma LoginIff(y: Sys, a: Answers)
    requires Inv(y) && Enabled(y, ServerReads(a)) && y.s.state == SLogin2
    requires Survives(y.s, y.up[0].bytes, a)
    ensures var z := Apply(y, ServerReads(a));
            && z.down != []
            && var x := Apply(z, ClientReads([]));
               && (x.c.state == CLoggedIn <==> y.up[0].bytes == CStr(a.secret))
               && (x.s.state == SLoggedIn <==> y.up[0].bytes == CStr(a.secret))
               && x.s.user == x.c.user == y.c.user
  {
    hide HostInt, ReadHostInt, RequestOf, Tokenise, Range, Transferable, Registration.Pack, CStr, Join, QueryFits;
    var p: seq<Up>, t: seq<Up> :| InvAt(y, p, t);
    Ranges();
    ReplyReads(CLogin2, 0);
    ReplyReads(CLogin2, -1);
    assert y.down == [] && y.c.state == CLogin2;
  }

  // ---- Transfer accounting ----

  /** During a download, announced size = counted by the client + in flight + not read by the server,
      and the bytes themselves add up to the file offered last. */
  lemma DownloadConserved(y: Sys)
    requires Inv(y) && y.c.state == CGets
    ensures y.s.state == SGets
    ensures y.c.curSize + |Join(Payloads(y.down))| + y.s.fileSize == y.c.fileSize
    ensures y.s.offered == y.c.fetched + [y.c.saved + Join(Payloads(y.down)) + y.s.rest]
  {
    hide HostInt, ReadHostInt, RequestOf, Transferable, Join, PathOk;
    var p: seq<Up>, t: seq<Up> :| InvAt(y, p, t);
  }

  /** The client acknowledges only when the server has nothing left to send and nothing is in flight. */
  lemma AckOnlyAtEnd(y: Sys, digest: seq<byte>)
    requires Inv(y) && y.down != [] && y.c.state == CGets
    ensures var z := Apply(y, ClientReads(digest));
            z.c.state == CLoggedIn <==> z.up != []
    ensures var z := Apply(y, ClientReads(digest));
            z.c.state == CLoggedIn ==> z.up == [ACK] && z.down == [] && z.s.fileSize == 0 && z.s.rest == []
  {
    hide HostInt, ReadHostInt, RequestOf, Transferable, Join, PathOk;
    var p: seq<Up>, t: seq<Up> :| InvAt(y, p, t);
    PayloadsTail(y.down);
    NoData(CGets, y.down[1..]);
    Unit([ACK]);
    assert y.up == [];
  }

  /** While an upload is being read, `file_size` is the number of bytes still in flight; the server
      leaves the state at the last data message and at no other. */
  lemma UploadConserved(y: Sys, a: Answers)
    requires Inv(y) && Enabled(y, ServerReads(a)) && y.s.state == SPuts
    ensures exists n :: 0 < n <= |y.up| && DataFor(SPuts, y.up[..n]) && UploadTail(y, n)
                        && (Apply(y, ServerReads(a)).s.state == SLoggedIn <==> n == 1)
  {
    hide HostInt, ReadHostInt, RequestOf, Transferable, Join, PathOk, Accounts;
    var p: seq<Up>, t: seq<Up> :| InvAt(y, p, t);
    assert p != [];
    Cut(p, t);
    LastData(p);
    ResidueIsTail(y, p, t);
  }

  lemma ResidueIsTail(y: Sys, p: seq<Up>, t: seq<Up>)
    requires InvAt(y, p, t) && p != [] && y.s.state == SPuts
    ensures UploadTail(y, |p|)
  {
    hide HostInt, ReadHostInt, RequestOf, Transferable, Join, PathOk, Accounts;
    Cut(p, t);
  }

  /** The first of some data messages holds all their bytes exactly if it is the only one. */
  lemma LastData(p: seq<Up>)
    requires p != [] && DataFor(SPuts, p)
    ensures |p[0].bytes| == |Join(Payloads(p))| <==> |p| == 1
  {
    hide Join;
    PayloadsTail(p);
    NoData(SPuts, p[1..]);
    if |p| == 1 { assert p[1..] == []; JoinEmpty(); }
  }

  /** The first `n` messages of the queue are the rest of the upload; a later command may follow. */
  ghost predicate UploadTail(y: Sys, n: nat) {
    && n <= |y.up|
    && y.s.fileSize == |Join(Payloads(y.up[..n]))|
    && y.c.sent == y.s.stored + [y.s.saved + Join(Payloads(y.up[..n]))]
    && (n < |y.up| ==> y.up[n].want == SLoggedIn && |y.up| == n + 1)
  }

  // ---- Every command completes ----

  function Rank(w: ClientState): nat {
    match w
    case CInit => 0
    case CLoggedIn => 0
    case CLogin1 => 2
    case CBeginPuts => 2
    case CBeginGets => 2
    case _ => 1
  }

  function Work(s: Server): nat {
    |s.rest| + if s.pumping then 1 else 0
  }

  /** Every step but a keyboard line brings the system closer to quiet: the tuple (client rank,
      messages to the server, unread file bytes, messages to the client) gets smaller. */
  lemma StepsDescend(y: Sys, e: Step)
    requires Inv(y) && Enabled(y, e) && Supported(y, e) && !e.Key?
    ensures var z := Apply(y, e);
            || Rank(z.c.state) < Rank(y.c.state)
            || (Rank(z.c.state) == Rank(y.c.state)
                && (|| |z.up| < |y.up|
                    || (|z.up| == |y.up|
                        && (|| Work(z.s) < Work(y.s)
                            || (Work(z.s) == Work(y.s) && |z.down| < |y.down|)))))
  {
    hide HostInt, ReadHostInt, RequestOf, Transferable, Join, Serve, Chunks, PathOk;
    InvReadsRight(y);
    var p: seq<Up>, t: seq<Up> :| InvAt(y, p, t);
    match e
    case ClientReads(digest) => Unit(y.up);
    case ServerReads(a) =>
    case PumpFile => Unit(y.up); PumpWorks(y.s);
  }

  lemma PumpWorks(s: Server)
    requires ServerOk(s) && s.pumping
    ensures Work(Pump(s).s) < Work(s)
  {
  }

  /** A step tears the pump's channel down while it is registered exactly if it is out of order. */
  lemma TornStep(y: Sys, e: Step)
    requires Inv(y) && Enabled(y, e)
    ensures Apply(y, e).s.torn <==> y.s.torn || !Orderly(y, e)
  {
    hide HostInt, ReadHostInt, RequestOf, Transferable, Join, Inv, Path.Cd, Tokenise, Listing.Ls, Survives;
    if e.ServerReads? && y.s.state == SGets {
      AckIsNext(y);
    }
  }

  /** What the server reads during a download is the acknowledgement, and the file is used up. */
  lemma AckIsNext(y: Sys)
    requires Inv(y) && y.up != [] && y.s.state == SGets
    ensures ReadHostInt(y.up[0].bytes, 4) == 0 && y.s.fileSize == 0
  {
    hide HostInt, ReadHostInt, RequestOf, Transferable, Join, PathOk, Accounts;
    var p: seq<Up>, t: seq<Up> :| InvAt(y, p, t);
    assert p == [ACK] && y.up[0] == ACK;
    AckReadsZero();
  }

  /** A handler stops the server exactly if it does not survive its message. */
  lemma CrashStep(y: Sys, e: Step)
    requires Enabled(y, e)
    ensures Apply(y, e).s.crashed <==> y.s.crashed || (e.ServerReads? && !Survives(y.s, y.up[0].bytes, e.answers))
  {
    hide HostInt, ReadHostInt, Tokenise, Path.Cd, Listing.Ls, Registration.Unpack, RegisterFits, QueryFits, CStr, Where;
  }

  /** Both together: the server stays alive exactly through sound steps. */
  lemma StaysAlive(y: Sys, e: Step)
    requires Inv(y) && Enabled(y, e) && Supported(y, e)
    ensures Inv(Apply(y, e))
    ensures Alive(Apply(y, e).s) <==> Alive(y.s) && Sound(y, e)
  {
    hide Apply, Inv, Survives, Supported, Enabled;
    StepPreserves(y, e);
    TornStep(y, e);
    CrashStep(y, e);
  }

  /** The server is alive exactly in the runs whose steps are sound: every acknowledgement is read after
      the last run of the pump, and every message by a handler that survives it. */
  lemma {:induction false} AliveIff(trace: seq<Sys>, steps: seq<Step>, k: nat)
    requires Run(trace, steps) && k < |trace|
    ensures Inv(trace[k])
    ensures Alive(trace[k].s) <==> forall i :: 0 <= i < k ==> Sound(trace[i], steps[i])
  {
    hide Inv, Apply, Sound, Supported, Enabled;
    if k == 0 {
      InvStart();
    } else {
      AliveIff(trace, steps, k - 1);
      StaysAlive(trace[k - 1], steps[k - 1]);
    }
  }

  // ---- What a user can do so that the server survives ----

  /** The texts that the user has the server print fit their arrays, and a file offered comes through. */
  ghost predicate Clear(y: Sys) {
    && (y.c.state == CRegistering ==> y.c.asked != [] && RegisterFits(y.c.asked[|y.c.asked| - 1]))
    && (y.c.state in {CLogin1, CLogin2} ==> SECRET_QUERY + |CStr(y.c.user)| < SQL_BUFFER)
    && (y.c.state == CBeginPuts ==> Transferable(y.c.source))
  }

  /** What the arrays ask of the user, seen from the server. */
  ghost predicate Printable(y: Sys)
    requires y.up != []
  {
    match y.s.state
    case SRegistering => y.c.asked != [] && RegisterFits(y.c.asked[|y.c.asked| - 1])
    case SLogin1 => SALT_QUERY + |CStr(y.c.user)| < SQL_BUFFER
    case SLogin2 => SECRET_QUERY + |CStr(y.c.user)| < SQL_BUFFER
    case _ => true
  }

  /** Harmless answers of the database and the file system. */
  const MODEST: Answers := Answers(0, [], [], Listing.Found([]), 0, 0, false, true, [1])

  lemma ModestIsLegal()
    ensures Legal(MODEST) && Transferable(MODEST.file) && CStr([]) == []
  {
    Ranges();
  }

  lemma OnlyAccount(y: Sys, p: seq<Up>, t: seq<Up>)
    requires InvAt(y, p, t) && y.up != [] && y.s.state == SRegistering
    ensures p == [] && y.c.state == CRegistering && One(t, SRegistering)
  {
    hide HostInt, ReadHostInt, RequestOf, Transferable, Join, Accounts, Users;
    hide ServerOk, SourceOk, Uploads, Downloads;
  }

  /** The account in the message the server reads is the one asked for last. */
  lemma ReadsAccount(y: Sys)
    requires Inv(y) && Alive(y.s) && y.up != [] && y.s.state == SRegistering
    ensures y.c.state == CRegistering && y.c.asked != []
    ensures Registration.Unpack(y.up[0].bytes) == Registration.Unpacked(y.c.asked[|y.c.asked| - 1])
  {
    hide HostInt, ReadHostInt, RequestOf, Transferable, Join, PathOk, Registration.Unpack, RegistrationPacket, Users;
    hide ServerOk, SourceOk, Uploads, Downloads, Stage, Residue;
    var p: seq<Up>, t: seq<Up> :| InvAt(y, p, t);
    OnlyAccount(y, p, t);
    Unit(t);
    PacketUnpacks(y.c.asked, y.s.accounts, y.up);
  }

  lemma NotTransferring(y: Sys, p: seq<Up>, t: seq<Up>)
    requires InvAt(y, p, t) && y.s.state in {SLogin1, SLogin2}
    ensures p == []
  {
    hide Stage, Uploads, Downloads, Accounts, Users, Join;
  }

  /** The user the server looks up is the one that the client gave: in the message it reads, */
  lemma ReadsName(y: Sys)
    requires Inv(y) && Alive(y.s) && y.up != [] && y.s.state == SLogin1
    ensures y.c.state == CLogin1 && y.up[0].bytes == y.c.user
  {
    hide HostInt, ReadHostInt, RequestOf, Transferable, Join, PathOk, Accounts;
    hide ServerOk, SourceOk, Uploads, Downloads, Residue;
    var p: seq<Up>, t: seq<Up> :| InvAt(y, p, t);
    NotTransferring(y, p, t);
    Unit(t);
  }

  /** and as it has kept it. */
  lemma KnowsUser(y: Sys)
    requires Inv(y) && Alive(y.s) && y.up != [] && y.s.state == SLogin2
    ensures y.c.state == CLogin2 && y.s.user == y.c.user
  {
    hide HostInt, ReadHostInt, RequestOf, Transferable, Join, PathOk, Accounts;
    hide ServerOk, SourceOk, Uploads, Downloads, Residue;
    var p: seq<Up>, t: seq<Up> :| InvAt(y, p, t);
    NotTransferring(y, p, t);
    Unit(t);
  }

  /** Some answers of database and file system let the server survive a message exactly if what the user
      gave fits; a directory can always be listed when nothing is in it. */
  lemma SurvivesIff(y: Sys)
    requires Inv(y) && Alive(y.s) && y.up != []
    ensures (exists a :: Legal(a) && Survives(y.s, y.up[0].bytes, a)) <==> Printable(y)
    ensures Printable(y) ==> Legal(MODEST) && Survives(y.s, y.up[0].bytes, MODEST)
  {
    hide Inv, RequestOf, Transferable, RegisterFits, Registration.Unpack, CStr, Where, Legal, Listing.Ls;
    ModestIsLegal();
    EmptyListing(Where(y.s));
    if y.s.state == SRegistering {
      ReadsAccount(y);
    } else if y.s.state == SLogin1 {
      ReadsName(y);
    } else if y.s.state == SLogin2 {
      KnowsUser(y);
    }
    if Printable(y) { assert Survives(y.s, y.up[0].bytes, MODEST); }
  }

  lemma EmptyListing(path: seq<byte>)
    ensures Listing.Ls(path, Listing.Found([])) == Listing.Text([])
  {
  }

  lemma ClearIsPrintable(y: Sys)
    requires Inv(y) && Alive(y.s) && Clear(y) && y.up != []
    ensures Printable(y)
  {
    hide Inv, RegisterFits, CStr, Transferable, Registration.Unpack;
    if y.s.state == SRegistering {
      ReadsAccount(y);
    } else if y.s.state == SLogin1 {
      ReadsName(y);
    } else if y.s.state == SLogin2 {
      KnowsUser(y);
    }
  }

  /** Whatever is left to do, some sound step can be taken. */
  lemma SomeStep(y: Sys)
    requires Inv(y) && Alive(y.s) && Clear(y) && !Quiet(y)
    ensures exists e: Step :: !e.Key? && Enabled(y, e) && Supported(y, e) && Sound(y, e)
  {
    hide HostInt, ReadHostInt, Join, RequestOf, Survives, Printable, Carriable, Sized;
    if y.s.pumping {
      var e := PumpFile;
      assert !e.Key? && Enabled(y, e) && Supported(y, e) && Sound(y, e);
    } else if y.down != [] {
      var e := ClientReads([]);
      assert !e.Key? && Enabled(y, e) && Supported(y, e) && Sound(y, e);
    } else {
      ModestIsLegal();
      ClearIsPrintable(y);
      SurvivesIff(y);
      ServerCanRead(y);
      var e := ServerReads(MODEST);
      assert !e.Key? && Enabled(y, e) && Supported(y, e) && Sound(y, e);
    }
  }

  lemma ServerCanRead(y: Sys)
    requires Inv(y) && Alive(y.s) && y.up != []
    ensures y.s.state == SLoggedIn ==> Path.WellFormed(y.s.path)
  {
    hide HostInt, ReadHostInt, Join, RequestOf, Stage, Uploads, Downloads, Accounts, Users, Residue;
    var p: seq<Up>, t: seq<Up> :| InvAt(y, p, t);
  }

  /** A scheduler that keeps picking sound steps other than keyboard lines while there is work. */
  ghost predicate Scheduler(pick: Sys -> Step) {
    forall y :: Inv(y) && Alive(y.s) && Clear(y) && !Quiet(y) ==>
      !pick(y).Key? && Enabled(y, pick(y)) && Supported(y, pick(y)) && Sound(y, pick(y))
  }

  ghost function Pick(y: Sys): Step {
    if Inv(y) && Alive(y.s) && Clear(y) && !Quiet(y) then
      SomeStep(y);
      var e: Step :| !e.Key? && Enabled(y, e) && Supported(y, e) && Sound(y, e);
      e
    else PumpFile
  }

  lemma SchedulerExists()
    ensures Scheduler(Pick)
  {
  }

  /** Only the keyboard brings new demands. */
  lemma StaysClear(y: Sys, e: Step)
    requires Inv(y) && Enabled(y, e) && !e.Key? && Clear(y)
    ensures Clear(Apply(y, e))
  {
    hide HostInt, ReadHostInt, RequestOf, Transferable, Join, Chunks, PathOk, Accounts, RegisterFits, CStr, Serve, Inv;
    ClientGoesOn(y, e);
  }

  lemma ClientGoesOn(y: Sys, e: Step)
    requires Enabled(y, e) && !e.Key?
    ensures var c, d := y.c, Apply(y, e).c;
            && (d.state in {CRegistering, CLogin1, CBeginPuts} ==> d == c)
            && (d.state == CLogin2 ==> c.state in {CLogin1, CLogin2} && d.user == c.user)
  {
    hide HostInt, ReadHostInt, Chunks, Serve;
  }

  /** Where a scheduler ends up. That this function is total says that every schedule comes to rest. */
  ghost function Settle(y: Sys, pick: Sys -> Step): (z: Sys)
    requires Inv(y) && Alive(y.s) && Clear(y) && Scheduler(pick)
    ensures Inv(z) && Quiet(z)
    decreases Rank(y.c.state), |y.up|, Work(y.s), |y.down|
  {
    if Quiet(y) then y else
      StaysAlive(y, pick(y));
      StaysClear(y, pick(y));
      StepsDescend(y, pick(y));
      Settle(Apply(y, pick(y)), pick)
  }

  // ---- What has been granted arrives ----

  /** No `puts` or `gets` is still waiting for the server's answer. */
  ghost predicate Decided(y: Sys) {
    y.c.state in {CBeginPuts, CBeginGets} ==> y.down != []
  }

  ghost predicate Uploading(y: Sys) {
    y.c.state == CPuts || (y.c.state == CBeginPuts && y.s.state == SBeginPuts)
  }

  /** The files sent once the upload under way is done. */
  ghost function SentAtEnd(y: Sys): seq<seq<byte>> {
    y.c.sent + if Uploading(y) then [y.c.source] else []
  }

  ghost predicate SamePromise(y: Sys, z: Sys) {
    Decided(z) && SentAtEnd(z) == SentAtEnd(y) && z.s.offered == y.s.offered
  }

  lemma ClientKeepsPromise(y: Sys, digest: seq<byte>)
    requires Inv(y) && y.down != [] && Decided(y)
    ensures SamePromise(y, Apply(y, ClientReads(digest)))
  {
    hide HostInt, ReadHostInt, RequestOf, Transferable, Join, Chunks, PathOk, Accounts;
    hide Serve, Pump, ServerOk, SourceOk, Uploads, Downloads, Residue, Users, Registers, Introduces, WaitOf;
    var p: seq<Up>, t: seq<Up> :| InvAt(y, p, t);
    Unit(y.c.sent);
    Unit(y.c.sent + [y.c.source]);
  }

  lemma ServerKeepsPromise(y: Sys, a: Answers)
    requires Inv(y) && Enabled(y, ServerReads(a)) && Decided(y)
    ensures SamePromise(y, Apply(y, ServerReads(a)))
  {
    hide HostInt, ReadHostInt, RequestOf, Transferable, Join, Chunks, Pump, PathOk, Accounts, Tokenise, Path.Cd, Users;
    hide ServerOk, SourceOk, Uploads, Downloads, RegisterFits, QueryFits, CStr, Where, Registration.Unpack, Listing.Ls;
    var p: seq<Up>, t: seq<Up> :| InvAt(y, p, t);
  }

  lemma PromiseKept(y: Sys, e: Step)
    requires Inv(y) && Enabled(y, e) && Supported(y, e) && !e.Key? && Decided(y)
    ensures SamePromise(y, Apply(y, e))
  {
    hide HostInt, ReadHostInt, RequestOf, Inv, Serve;
    match e
    case ClientReads(digest) => ClientKeepsPromise(y, digest);
    case ServerReads(a) => ServerKeepsPromise(y, a);
    case PumpFile => Unit(y.down);
  }

  lemma {:induction false} SettleKeepsPromise(y: Sys, pick: Sys -> Step)
    requires Inv(y) && Alive(y.s) && Clear(y) && Scheduler(pick) && Decided(y)
    ensures var z := Settle(y, pick); z.c.sent == SentAtEnd(y) && z.s.offered == y.s.offered
    decreases Rank(y.c.state), |y.up|, Work(y.s), |y.down|
  {
    hide Inv, Apply, Enabled, Supported, Sound, Clear;
    if Quiet(y) {
      QuietMeansAgreement(y);
      Unit(y.c.sent);
    } else {
      var e := pick(y);
      StaysAlive(y, e);
      StaysClear(y, e);
      StepsDescend(y, e);
      PromiseKept(y, e);
      SettleKeepsPromise(Apply(y, e), pick);
    }
  }

  /** A granted `puts` ends with its file stored, a granted `gets` with its file fetched, whatever the
      schedule; one that is refused leaves the files as they were. */
  lemma GrantedArrives(y: Sys, a: Answers, pick: Sys -> Step)
    requires Inv(y) && Enabled(y, ServerReads(a)) && Supported(y, ServerReads(a)) && y.s.state == SLoggedIn
    requires Survives(y.s, y.up[0].bytes, a) && Clear(y) && Scheduler(pick)
    ensures var x := Apply(y, ServerReads(a)); Inv(x) && Alive(x.s) && Clear(x)
    ensures var z := Settle(Apply(y, ServerReads(a)), pick);
            && z.s.stored == y.c.sent + (if y.c.state == CBeginPuts && !a.found then [y.c.source] else [])
            && z.c.fetched ==
               y.c.fetched + (if y.c.state == CBeginGets && a.found && !a.opens then [a.file] else [])
  {
    hide Inv, Scheduler, Survives, Clear, Settle, Supported;
    var e := ServerReads(a);
    StaysAlive(y, e);
    StaysClear(y, e);
    var x := Apply(y, e);
    AnswerDecides(y, a);
    SettleKeepsPromise(x, pick);
    QuietMeansAgreement(Settle(x, pick));
    FilesWhenAsking(y);
    Unit(y.c.sent);
    Unit(y.c.fetched);
  }

  lemma AnswerDecides(y: Sys, a: Answers)
    requires Inv(y) && Enabled(y, ServerReads(a)) && y.s.state == SLoggedIn && Survives(y.s, y.up[0].bytes, a)
    ensures var x := Apply(y, ServerReads(a));
            && Decided(x) && (Uploading(x) <==> y.c.state == CBeginPuts && !a.found)
            && x.s.offered == y.s.offered + if y.c.state == CBeginGets && a.found && !a.opens then [a.file] else []
  {
    hide HostInt, ReadHostInt, Transferable, Tokenise, RequestOf, Path.Cd, Listing.Ls, Where, Inv;
    InvReadsRight(y);
    RequestsAnsweredOnce(y, a);
    Unit(y.s.offered);
  }

  lemma FilesWhenAsking(y: Sys)
    requires Inv(y) && y.s.state == SLoggedIn && y.up != []
    ensures y.s.stored == y.c.sent && y.s.offered == y.c.fetched && y.down == []
  {
    hide HostInt, ReadHostInt, RequestOf, Transferable, Join, PathOk, Accounts;
    var p: seq<Up>, t: seq<Up> :| InvAt(y, p, t);
    Unit(y.s.stored);
  }

  /** From every state that sound steps reach, if what the user gave fits, under every sound schedule, the
      pending command completes: the system comes to rest in agreement, and the transfer under way has
      arrived. */
  lemma EveryCommandCompletes(trace: seq<Sys>, steps: seq<Step>, k: nat, pick: Sys -> Step)
    requires Run(trace, steps) && k < |trace| && Scheduler(pick)
    requires forall i :: 0 <= i < k ==> Sound(trace[i], steps[i])
    requires Clear(trace[k])
    ensures Inv(trace[k]) && Alive(trace[k].s)
    ensures var y := trace[k]; var z := Settle(y, pick);
            && Alive(z.s)
            && ((z.c.state == CInit && z.s.state == SInit) || (z.c.state == CLoggedIn && z.s.state == SLoggedIn))
            && z.s.stored == z.c.sent && z.c.fetched == z.s.offered && z.s.accounts == z.c.asked
            && (Decided(y) ==> z.s.stored == SentAtEnd(y) && z.c.fetched == y.s.offered)
            && (y.c.state == CPuts ==> z.s.stored == y.c.sent + [y.c.source])
            && (y.c.state == CGets ==>
                  z.c.fetched == y.c.fetched + [y.c.saved + Join(Payloads(y.down)) + y.s.rest])
  {
    hide Scheduler, Inv, Settle, Clear, Sound;
    AliveIff(trace, steps, k);
    var y := trace[k];
    QuietMeansAgreement(Settle(y, pick));
    if Decided(y) { SettleKeepsPromise(y, pick); }
    if y.c.state == CGets { DownloadConserved(y); }
  }
}
