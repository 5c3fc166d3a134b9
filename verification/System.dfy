/** Client and server joined by two FIFO message queues: the invariant of every reachable state. */
module System {
  import opened Bytes
  import opened Seqs
  import opened Tokens
  import opened Transfer
  import opened Session
  import Listing
  import Path
  import Registration

  datatype Sys = Sys(c: Client, s: Server, up: seq<Up>, down: seq<Down>)

  const START := Sys(
    Client(CInit, 0, 0, [], [], [], [], [], []),
    Server(SInit, [], [], 0, [], [], false, [], [], [], [], false, false),
    [], [])

  /** A keyboard line, one message read by either side, or one run of `handleGets`. */
  datatype Step = Key(typed: Typed) | ClientReads(digest: seq<byte>) | ServerReads(answers: Answers) | PumpFile

  ghost predicate Enabled(y: Sys, e: Step) {
    match e
    case Key(t) => y.c.state == CLoggedIn ==> HasWord(t.line)
    case ClientReads(_) => y.down != []
    case ServerReads(a) =>
      Alive(y.s) && y.up != [] && Legal(a) && (y.s.state == SLoggedIn ==> Path.WellFormed(y.s.path))
    case PumpFile => Alive(y.s) && y.s.pumping
  }

  ghost function Apply(y: Sys, e: Step): (z: Sys)
    requires Enabled(y, e)
  {
    match e
    case Key(t) =>
      var r := Keyboard(y.c, t);
      y.(c := r.c, up := y.up + r.out)
    case ClientReads(digest) =>
      var r := ClientOnMessage(y.c, y.down[0].bytes, digest);
      y.(c := r.c, down := y.down[1..], up := y.up + r.out)
    case ServerReads(a) =>
      var r := ServerOnMessage(y.s, y.up[0].bytes, a);
      y.(s := r.s, up := y.up[1..], down := y.down + r.out)
    case PumpFile =>
      var r := Pump(y.s);
      y.(s := r.s, down := y.down + r.out)
  }

  /** The inputs whose sizes fit the integers that carry them: account fields and files. */
  ghost predicate Regular(y: Sys, e: Step)
    requires Enabled(y, e)
  {
    match e
    case Key(t) => y.c.state == CInit && t.line == ZERO ==> Registration.Fits(t.account)
    case ClientReads(_) => UploadBegins(y, e) ==> Sized(y.c.source)
    case ServerReads(a) => DownloadBegins(y, e) ==> Sized(a.file)
    case PumpFile => true
  }

  ghost predicate UploadBegins(y: Sys, e: Step)
    requires Enabled(y, e)
  {
    y.c.state == CBeginPuts && Apply(y, e).c.state == CPuts
  }

  ghost predicate DownloadBegins(y: Sys, e: Step)
    requires Enabled(y, e)
  {
    y.s.state == SLoggedIn && Apply(y, e).s.state == SGets
  }

  /** Where a transfer begins, its file comes through. */
  ghost predicate Carries(y: Sys, e: Step)
    requires Enabled(y, e)
  {
    match e
    case ClientReads(_) => UploadBegins(y, e) ==> Carriable(y.c.source)
    case ServerReads(a) => DownloadBegins(y, e) ==> Carriable(a.file)
    case _ => true
  }

  ghost predicate Supported(y: Sys, e: Step)
    requires Enabled(y, e)
  {
    Regular(y, e) && Carries(y, e)
  }

  /** The acknowledgement of a download is read after the last run of `handleGets`, not before it. */
  ghost predicate Orderly(y: Sys, e: Step) {
    e.ServerReads? && y.s.state == SGets ==> !y.s.pumping
  }

  /** The server process is not stopped: neither by the channel of a download nor by a handler. */
  ghost predicate Sound(y: Sys, e: Step)
    requires Enabled(y, e)
  {
    Orderly(y, e) && (e.ServerReads? ==> Survives(y.s, y.up[0].bytes, e.answers))
  }

  // ---- The invariant ----

  /** The wait state that belongs to a request. */
  function WaitOf(q: Request): ClientState {
    match q
    case Pwd => CPrint
    case Ls => CPrint
    case Mkdir => CMkdir
    case Remove => CRemove
    case Cd => CCd
    case Puts => CBeginPuts
    case Gets => CBeginGets
    case Unknown => CLoggedIn
  }

  const ACK: Up := Packet(SGets, HostInt(0, 4))

  ghost predicate DataFor<W>(want: W, ps: seq<Packet<W>>) {
    forall i :: 0 <= i < |ps| ==> ps[i].want == want && ps[i].bytes != []
  }

  /** `p` is what a finished transfer still has on its way to the server: unread data of an upload,
      or the acknowledgement of a download. */
  ghost predicate Residue(s: Server, p: seq<Up>) {
    || p == []
    || (s.state == SPuts && DataFor(SPuts, p) && |Join(Payloads(p))| == s.fileSize)
    || (s.state == SGets && p == [ACK] && s.fileSize == 0)
  }

  /** The server's state once it has read the residue. */
  function After(s: Server, p: seq<Up>): ServerState {
    if p == [] then s.state else SLoggedIn
  }

  ghost predicate One<W>(ps: seq<Packet<W>>, want: W) {
    |ps| == 1 && ps[0].want == want
  }

  ghost predicate IntReply(down: seq<Down>, want: ClientState) {
    One(down, want) && |down[0].bytes| == 4
  }

  ghost predicate RegistrationPacket(u: Up, a: Registration.Account) {
    u.want == SRegistering && Registration.Fits(a) && u.bytes == Registration.Pack(a)
  }

  /** The last message is a registration packet. */
  predicate Registers(t: seq<Up>) {
    t != [] && t[|t| - 1].want == SRegistering
  }

  /** Accounts: the server has registered those the client asked for, in order; the last may still be
      in its packet. */
  ghost predicate Accounts(asked: seq<Registration.Account>, known: seq<Registration.Account>, t: seq<Up>) {
    if Registers(t) then
      asked != [] && asked[..|asked| - 1] == known && RegistrationPacket(t[|t| - 1], asked[|asked| - 1])
    else asked == known
  }

  /** The last message is a user name. */
  predicate Introduces(t: seq<Up>) {
    t != [] && t[|t| - 1].want == SLogin1
  }

  /** From the login on, the server takes the client for the user that the client gave; the name may
      still be in its message. */
  ghost predicate Users(c: Client, s: Server, t: seq<Up>) {
    if Introduces(t) then t[|t| - 1].bytes == c.user else c.state in {CInit, CRegistering} || s.user == c.user
  }

  /** The directory is where the `cd` commands since login lead. */
  ghost predicate PathOk(path: seq<byte>, cds: seq<Path.CdCall>) {
    Path.WellFormed(path) && path == Path.CdAll(Path.ROOT, cds)
  }

  /** A request is on its way and the client waits for exactly its kind of answer. */
  ghost predicate Asking(w: ClientState, v: ServerState, t: seq<Up>, down: seq<Down>) {
    v == SLoggedIn && down == [] && One(t, SLoggedIn) && WaitOf(RequestOf(t[0].bytes)) == w
  }

  ghost predicate AskingOrAnswered(w: ClientState, v: ServerState, t: seq<Up>, down: seq<Down>, size: nat) {
    || Asking(w, v, t, down)
    || (v == SLoggedIn && t == [] && One(down, w) && |down[0].bytes| >= size)
  }

  /** What the queues hold, and where the server stands, for each state of the client; `v` and `t`
      are the server's state and the client's messages past the residue. */
  ghost predicate Stage(c: Client, s: Server, v: ServerState, t: seq<Up>, down: seq<Down>) {
    match c.state
    case CInit => v == SInit && t == [] && down == []
    case CLoggedIn => v == SLoggedIn && t == [] && down == []
    case CRegistering =>
      || (v == SInit && |t| == 2 && t[0] == Packet(SInit, ZERO) && t[1].want == SRegistering && down == [])
      || (v == SRegistering && One(t, SRegistering) && down == [])
      || (v == SInit && t == [] && IntReply(down, CRegistering))
    case CLogin1 =>
      || (v == SInit && |t| == 2 && t[0] == Packet(SInit, ONE) && t[1].want == SLogin1 && down == [])
      || (v == SLogin1 && One(t, SLogin1) && down == [])
      || (t == [] && One(down, CLogin1) && v == if |down[0].bytes| == 0 then SInit else SLogin2)
    case CLogin2 =>
      || (v == SLogin2 && One(t, SLogin2) && down == [])
      || (t == [] && IntReply(down, CLogin2) && v == if ReadHostInt(down[0].bytes, 4) == 0 then SLoggedIn else SInit)
    case CPrint => AskingOrAnswered(CPrint, v, t, down, 0)
    case CMkdir => AskingOrAnswered(CMkdir, v, t, down, 4)
    case CRemove => AskingOrAnswered(CRemove, v, t, down, 4)
    case CCd => AskingOrAnswered(CCd, v, t, down, 4)
    case CBeginPuts =>
      || Asking(CBeginPuts, v, t, down)
      || (t == [] && IntReply(down, CBeginPuts)
          && v == if ReadHostInt(down[0].bytes, 4) == 0 then SBeginPuts else SLoggedIn)
    case CPuts =>
      && c.fileSize == |c.source|
      && (|| (v == SBeginPuts && One(t, SBeginPuts) && t[0].bytes == HostInt(|c.source|, 8) && down == [])
          || (v == SPuts && s.fileSize == |c.source| && t == [] && IntReply(down, CPuts)
              && ReadHostInt(down[0].bytes, 4) == 0))
    case CBeginGets =>
      || Asking(CBeginGets, v, t, down)
      || (v == SLoggedIn && t == [] && One(down, CBeginGets) && |down[0].bytes| == 8
          && ReadHostInt(down[0].bytes, 8) < 0)
      || (v == SGets && t == [] && |down| >= 1 && down[0].want == CBeginGets && |down[0].bytes| == 8
          && DataFor(CGets, down[1..])
          && ReadHostInt(down[0].bytes, 8) == |Join(Payloads(down[1..]))| + s.fileSize > 0)
    case CGets =>
      && v == SGets && t == [] && DataFor(CGets, down)
      && c.curSize + |Join(Payloads(down))| + s.fileSize == c.fileSize
      && c.curSize < c.fileSize
  }

  ghost predicate ServerOk(s: Server) {
    && !s.crashed
    && (s.state in {SLoggedIn, SBeginPuts, SPuts, SGets} ==> PathOk(s.path, s.cds))
    && (s.state == SPuts ==> s.fileSize > 0)
    && (s.state == SGets ==> s.fileSize == |s.rest| && 0 !in s.rest && (s.fileSize > 0 ==> s.pumping))
    && (s.pumping ==> s.state == SGets && !s.torn)
  }

  ghost predicate SourceOk(c: Client) {
    c.state == CPuts ==> Transferable(c.source)
  }

  /** Uploads: the server has stored the files the client has sent, in order; of the last one it may
      still lack exactly the bytes in the residue. */
  ghost predicate Uploads(c: Client, s: Server, p: seq<Up>) {
    && (s.state in {SBeginPuts, SPuts} && p == [] ==> s.saved == [])
    && c.sent == s.stored + if s.state == SPuts && p != [] then [s.saved + Join(Payloads(p))] else []
  }

  /** Downloads: the client has the files the server offered, in order; the one in transfer is what
      the client has written, what is in flight, and what the server has not read yet. */
  ghost predicate Downloads(c: Client, s: Server, p: seq<Up>, down: seq<Down>) {
    if s.state == SGets && p == [] then
      if c.state == CGets then s.offered == c.fetched + [c.saved + Join(Payloads(down)) + s.rest]
      else down != [] && s.offered == c.fetched + [Join(Payloads(down[1..])) + s.rest]
    else s.offered == c.fetched
  }

  ghost predicate InvAt(y: Sys, p: seq<Up>, t: seq<Up>) {
    && y.up == p + t
    && (y.down != [] ==> p == [])
    && Residue(y.s, p)
    && Stage(y.c, y.s, After(y.s, p), t, y.down)
    && ServerOk(y.s) && SourceOk(y.c) && Accounts(y.c.asked, y.s.accounts, t)
    && Users(y.c, y.s, t)
    && Uploads(y.c, y.s, p) && Downloads(y.c, y.s, p, y.down)
  }

  /** What is left when a handler has stopped the server: nothing in flight, and the client waiting for
      the answer, which lets it take no step. */
  ghost predicate Frozen(y: Sys) {
    && y.s.crashed && !y.s.pumping && y.up == [] && y.down == []
    && y.c.state in {CRegistering, CLogin1, CLogin2, CPrint}
    && (y.s.state == SLoggedIn ==> PathOk(y.s.path, y.s.cds)) && y.s.state !in {SBeginPuts, SPuts, SGets}
    && y.c.sent == y.s.stored && y.s.offered == y.c.fetched && y.s.accounts <= y.c.asked
  }

  ghost predicate Inv(y: Sys) {
    Frozen(y) || exists p, t :: InvAt(y, p, t)
  }

  lemma InvStart()
    ensures Inv(START)
  {
    assert InvAt(START, [], []);
  }

  // ---- Keyboard ----

  /** A line that the client accepts is read by the server as a request of the kind waited for. */
  lemma JudgeAgrees(line: seq<byte>, present: bool)
    ensures Judge(line, present).Ask? ==>
              WaitOf(RequestOf(line)) == Judge(line, present).wait && RequestOf(line) != Unknown
  {
  }

  /** The client sends exactly the lines made of a command and its operand, where a local file must
      be there for `puts` and must not be there for `gets`; the server then finds the same operand. */
  lemma JudgeIff(line: seq<byte>, present: bool)
    requires Trimmed(line)
    ensures var ws := WordList(line);
            Judge(line, present).Ask? <==>
              || ws == [PWD] || ws == [LS] || ws == [CD]
              || (|ws| == 2 && (|| ws[0] == MKDIR || ws[0] == REMOVE || ws[0] == CD
                                || (ws[0] == PUTS && present) || (ws[0] == GETS && !present)))
    ensures var ws := WordList(line);
            Judge(line, present).Ask? ==> Tokenise(line).parm == if |ws| == 2 then ws[1] else []
  {
    hide Tokenise, WordList;
    TokeniseWords(line);
    SingleWord(line);
  }

  /** `0` or `1` at the start opens the dialogue with two messages. */
  lemma DialogueStarts(y: Sys, t: Typed)
    requires Inv(y) && Enabled(y, Key(t)) && Regular(y, Key(t)) && y.c.state == CInit
    ensures Inv(Apply(y, Key(t)))
  {
    hide Registration.Pack, Registration.Fits, Transferable, HostInt, ReadHostInt, Join, PathOk, RequestOf;
    var p, u :| InvAt(y, p, u);
    Unit(p);
    Unit(y.up);
    var out := Keyboard(y.c, t).out;
    assert InvAt(Apply(y, Key(t)), p, out);
  }

  /** An accepted line is one request, whatever is still unread of an earlier transfer. */
  lemma RequestStarts(y: Sys, t: Typed)
    requires Inv(y) && Enabled(y, Key(t)) && y.c.state == CLoggedIn
    ensures Inv(Apply(y, Key(t)))
  {
    hide Trim, Tokenise, Judge, RequestOf, Transferable, HostInt, ReadHostInt, Join, PathOk, HasWord;
    var p, u :| InvAt(y, p, u);
    JudgeAgrees(Trim(t.line), t.present);
    Unit(p);
    Unit(y.up);
    var out := Keyboard(y.c, t).out;
    assert InvAt(Apply(y, Key(t)), p, out);
  }

  lemma KeyPreserves(y: Sys, t: Typed)
    requires Inv(y) && Enabled(y, Key(t)) && Regular(y, Key(t))
    ensures Inv(Apply(y, Key(t)))
  {
    hide Inv;
    if y.c.state == CInit {
      DialogueStarts(y, t);
    } else if y.c.state == CLoggedIn {
      RequestStarts(y, t);
    } else {
      Unit(y.up);
      assert Apply(y, Key(t)) == y;
    }
  }

  // ---- The client reads a message ----

  lemma PayloadsTail<W>(ps: seq<Packet<W>>)
    requires ps != []
    ensures Payloads(ps)[0] == ps[0].bytes && Payloads(ps)[1..] == Payloads(ps[1..])
    ensures Join(Payloads(ps)) == ps[0].bytes + Join(Payloads(ps[1..]))
  {
    assert Payloads(ps)[1..] == Payloads(ps[1..]);
  }

  lemma NoData<W>(want: W, ps: seq<Packet<W>>)
    requires DataFor(want, ps)
    ensures |Join(Payloads(ps))| >= |ps|
  {
    JoinNonempty(Payloads(ps));
  }

  /** The client starts its upload: all of it becomes residue at once. */
  lemma UploadStarts(y: Sys, digest: seq<byte>)
    requires InvAt(y, [], y.up) && y.down != [] && y.c.state == CPuts
    ensures Inv(Apply(y, ClientReads(digest)))
  {
    hide HostInt, ReadHostInt, Chunks, Join, PathOk;
    var z := Apply(y, ClientReads(digest));
    var out := Wrap(SPuts, Chunks(y.c.source));
    ChunksCarry(y.c.source);
    assert Payloads(out) == Chunks(y.c.source);
    assert out != [] by {
      if out == [] { JoinEmpty(); }
    }
    Unit(out);
    Unit(y.c.source);
    assert InvAt(z, out, []);
  }

  lemma JoinEmpty()
    ensures Join([]) == []
  {
  }

  /** The client reads one data message of a download; after the last one only its acknowledgement
      is left in the system. */
  lemma DownloadReads(y: Sys, digest: seq<byte>)
    requires InvAt(y, [], y.up) && y.down != [] && y.c.state == CGets
    ensures Inv(Apply(y, ClientReads(digest)))
  {
    hide HostInt, ReadHostInt, Join, PathOk;
    var z := Apply(y, ClientReads(digest));
    var m, later := y.down[0].bytes, Join(Payloads(y.down[1..]));
    PayloadsTail(y.down);
    NoData(CGets, y.down[1..]);
    Assoc(y.c.saved, m, later);
    if z.c.state == CGets {
      assert InvAt(z, [], []);
    } else {
      assert later == [] && y.s.rest == [];
      Unit(y.c.saved + m);
      Unit([ACK]);
      assert z.down == [];
      assert InvAt(z, [ACK], []);
    }
  }

  lemma DownloadStarts(y: Sys, digest: seq<byte>)
    requires InvAt(y, [], y.up) && y.down != [] && y.c.state == CBeginGets
    ensures Inv(Apply(y, ClientReads(digest)))
  {
    hide HostInt, ReadHostInt, Join, RequestOf, PathOk, Accounts;
    var z := Apply(y, ClientReads(digest));
    Unit(y.up);
    if z.c.state == CGets {
      Unit(Join(Payloads(z.down)));
      assert InvAt(z, [], z.up);
    } else {
      assert InvAt(z, [], z.up);
    }
  }

  /** Registration and login replies take the client to the state the server is in. */
  lemma DialogueReply(y: Sys, digest: seq<byte>)
    requires InvAt(y, [], y.up) && y.down != [] && y.c.state in {CRegistering, CLogin1, CLogin2}
    ensures Inv(Apply(y, ClientReads(digest)))
  {
    hide HostInt, ReadHostInt, Join, RequestOf, Transferable, PathOk;
    var z := Apply(y, ClientReads(digest));
    assert y.up == [];
    Unit(z.up);
    assert z.down == [];
    assert InvAt(z, [], z.up);
  }

  /** The reply to a plain command ends the wait. */
  lemma CommandReply(y: Sys, digest: seq<byte>)
    requires InvAt(y, [], y.up) && y.down != [] && y.c.state in {CPrint, CMkdir, CRemove, CCd}
    ensures Inv(Apply(y, ClientReads(digest)))
  {
    hide HostInt, ReadHostInt, Join, RequestOf, Transferable, PathOk;
    var z := Apply(y, ClientReads(digest));
    assert y.up == [];
    Unit(z.up);
    assert z.down == [];
    assert InvAt(z, [], z.up);
  }

  /** The reply to `puts` ends the wait or starts the upload. */
  lemma PutsReply(y: Sys, digest: seq<byte>)
    requires InvAt(y, [], y.up) && y.down != [] && y.c.state == CBeginPuts && Supported(y, ClientReads(digest))
    ensures Inv(Apply(y, ClientReads(digest)))
  {
    hide HostInt, ReadHostInt, Join, RequestOf, Carriable, Sized, PathOk;
    var z := Apply(y, ClientReads(digest));
    assert y.up == [];
    Unit(z.up);
    assert z.down == [];
    assert InvAt(z, [], z.up);
  }

  lemma NoReplyWhenReady(y: Sys)
    requires InvAt(y, [], y.up) && y.down != []
    ensures y.c.state !in {CInit, CLoggedIn}
  {
  }

  lemma ClientReadsPreserves(y: Sys, digest: seq<byte>)
    requires Inv(y) && y.down != [] && Supported(y, ClientReads(digest))
    ensures Inv(Apply(y, ClientReads(digest)))
  {
    hide Join, RequestOf, Stage, ServerOk, SourceOk, Residue, Uploads, Downloads, Accounts, Apply;
    var p, t :| InvAt(y, p, t);
    Unit(t);
    if y.c.state == CPuts { UploadStarts(y, digest); }
    else if y.c.state == CGets { DownloadReads(y, digest); }
    else if y.c.state == CBeginGets { DownloadStarts(y, digest); }
    else if y.c.state == CBeginPuts { PutsReply(y, digest); }
    else if y.c.state in {CPrint, CMkdir, CRemove, CCd} { CommandReply(y, digest); }
    else { NoReplyWhenReady(y); DialogueReply(y, digest); }
  }

  // ---- The server reads a message ----

  /** The server reads the next data message of an upload that the client has finished. */
  lemma UploadReads(y: Sys, p: seq<Up>, t: seq<Up>, a: Answers)
    requires InvAt(y, p, t) && p != [] && y.s.state == SPuts && Enabled(y, ServerReads(a))
    ensures InvAt(Apply(y, ServerReads(a)), p[1..], t)
  {
    hide HostInt, ReadHostInt, Join, RequestOf, Transferable, Serve, PathOk, Accounts;
    var z := Apply(y, ServerReads(a));
    var q := p[1..];
    Uncons(p, t);
    Unit(y.down);
    PayloadsTail(p);
    NoData(SPuts, q);
    Assoc(y.s.saved, p[0].bytes, Join(Payloads(q)));
    Unit(z.s.saved);
    Unit(y.s.stored);
    if q == [] { JoinEmpty(); }
  }

  /** The server reads the acknowledgement of a download. */
  lemma AckReads(y: Sys, p: seq<Up>, t: seq<Up>, a: Answers)
    requires InvAt(y, p, t) && p != [] && y.s.state == SGets && Enabled(y, ServerReads(a))
    ensures InvAt(Apply(y, ServerReads(a)), [], t)
  {
    hide HostInt, ReadHostInt, Join, RequestOf, Transferable, Serve, PathOk, Accounts, Stage, Users;
    hide ServerOk, SourceOk, Uploads, Downloads, Legal;
    assert p == [ACK];
    Uncons(p, t);
    Unit(y.down);
    AckReadsZero();
    Unit(t);
    AckEnds(y, Apply(y, ServerReads(a)), p, t);
  }

  lemma AckEnds(y: Sys, z: Sys, p: seq<Up>, t: seq<Up>)
    requires InvAt(y, p, t) && p != [] && y.s.state == SGets
    requires z == y.(s := y.s.(state := SLoggedIn, torn := z.s.torn, pumping := false), up := t)
    ensures InvAt(z, [], t)
  {
    hide HostInt, ReadHostInt, Join, RequestOf, Transferable, PathOk, Accounts, Stage;
    Unit(t);
    Unit(y.s.stored);
    SameStage(y.c, y.s, z.s, SLoggedIn, t, y.down);
  }

  /** The stage depends on the server's count only. */
  lemma SameStage(c: Client, s: Server, s': Server, v: ServerState, t: seq<Up>, down: seq<Down>)
    requires Stage(c, s, v, t, down) && s'.fileSize == s.fileSize
    ensures Stage(c, s', v, t, down)
  {
    hide HostInt, ReadHostInt, Join, RequestOf;
  }

  /** The server reads what is left of a finished transfer. */
  lemma ResidueReads(y: Sys, p: seq<Up>, t: seq<Up>, a: Answers)
    requires InvAt(y, p, t) && p != [] && Enabled(y, ServerReads(a))
    ensures Inv(Apply(y, ServerReads(a)))
  {
    hide HostInt, ReadHostInt, Join, RequestOf, Transferable, Serve, Apply, PathOk, Accounts;
    if y.s.state == SPuts { UploadReads(y, p, t, a); } else { AckReads(y, p, t, a); }
  }

  lemma AckReadsZero()
    ensures ReadHostInt(ACK.bytes, 4) == 0
  {
    Unit(ACK.bytes);
    HostIntRoundTrip(0, 4, []);
  }

  /** Int replies read back as sent. */
  lemma ReplyReads(want: ClientState, v: int)
    requires -Range(4) <= 2 * v < Range(4)
    ensures |ReturnInt(want, v).bytes| == 4 && ReadHostInt(ReturnInt(want, v).bytes, 4) == v
  {
    HostIntRoundTrip(v, 4, []);
    Unit(HostInt(v, 4));
  }

  lemma SizeReads(v: int)
    requires -Range(8) <= 2 * v < Range(8)
    ensures |HostInt(v, 8)| == 8 && ReadHostInt(HostInt(v, 8), 8) == v
  {
    HostIntRoundTrip(v, 8, []);
    Unit(HostInt(v, 8));
  }

  lemma CdKeepsPath(s: Server, parm: seq<byte>, opens: bool)
    requires PathOk(s.path, s.cds) && Path.WellFormed(s.path)
    ensures PathOk(Path.Cd(s.path, parm, opens), s.cds + [Path.CdCall(parm, opens)])
  {
    hide Path.Cd, Path.CdAll;
    Path.CdAllOneMore(Path.ROOT, s.cds, Path.CdCall(parm, opens));
  }

  /** The answer to a request is of the kind waited for. */
  lemma AnswerFits(y: Sys, a: Answers)
    requires InvAt(y, [], y.up) && y.s.state == SLoggedIn && Enabled(y, ServerReads(a))
    requires Survives(y.s, y.up[0].bytes, a) && Apply(y, ServerReads(a)).s.state != SGets
    ensures var z := Apply(y, ServerReads(a)); z.up == [] && Stage(z.c, z.s, z.s.state, [], z.down)
  {
    hide HostInt, ReadHostInt, Join, RequestOf, Tokenise, PathOk, Path.Cd, Transferable, Range, Accounts, Users;
    hide ServerOk, SourceOk, Uploads, Downloads, Listing.Ls, Where;
    Unit(Serve(y.s, y.up[0].bytes, a).out);
    Ranges();
    ReplyReads(CBeginPuts, 0);
    ReplyReads(CBeginPuts, -1);
    SizeReads(-1);
  }

  /** The server answers the one request in the queue, in the format and for the state waited for. */
  lemma RequestReads(y: Sys, a: Answers)
    requires InvAt(y, [], y.up) && y.s.state == SLoggedIn && Enabled(y, ServerReads(a)) && Supported(y, ServerReads(a))
    requires Survives(y.s, y.up[0].bytes, a)
    ensures Inv(Apply(y, ServerReads(a)))
  {
    hide HostInt, ReadHostInt, Join, RequestOf, Tokenise, PathOk, Path.Cd, Transferable, Range, Accounts;
    hide Listing.Ls, Where;
    assert y.down == [] && Asking(y.c.state, SLoggedIn, y.up, []);
    RequestAlone(y);
    if Apply(y, ServerReads(a)).s.state == SGets {
      DownloadOffered(y, a);
    } else {
      AnswerFits(y, a);
      AnswerKeepsRest(y, a);
    }
  }

  lemma AnswerKeepsRest(y: Sys, a: Answers)
    requires InvAt(y, [], y.up) && y.s.state == SLoggedIn && Enabled(y, ServerReads(a))
    requires Survives(y.s, y.up[0].bytes, a) && Apply(y, ServerReads(a)).s.state != SGets
    requires Asking(y.c.state, SLoggedIn, y.up, y.down)
    requires var z := Apply(y, ServerReads(a)); z.up == [] && Stage(z.c, z.s, z.s.state, [], z.down)
    ensures Inv(Apply(y, ServerReads(a)))
  {
    hide HostInt, ReadHostInt, Join, RequestOf, Tokenise, PathOk, Path.Cd, Transferable, Range, Accounts, Stage;
    hide Listing.Ls, Where;
    RequestAlone(y);
    CdKeepsPath(y.s, Tokenise(y.up[0].bytes).parm, a.opens);
    assert InvAt(Apply(y, ServerReads(a)), [], []);
  }

  /** A request is alone in its queue, and no account is in flight with it. */
  lemma RequestAlone(y: Sys)
    requires InvAt(y, [], y.up) && Asking(y.c.state, SLoggedIn, y.up, y.down)
    ensures y.up[1..] == [] && y.c.asked == y.s.accounts && Accounts(y.c.asked, y.s.accounts, [])
  {
  }

  /** The server opens a file for a download and announces its size. */
  lemma DownloadOffered(y: Sys, a: Answers)
    requires InvAt(y, [], y.up) && y.s.state == SLoggedIn && Enabled(y, ServerReads(a)) && Supported(y, ServerReads(a))
    requires Asking(y.c.state, SLoggedIn, y.up, y.down) && Apply(y, ServerReads(a)).s.state == SGets
    ensures Inv(Apply(y, ServerReads(a)))
  {
    hide HostInt, ReadHostInt, Join, RequestOf, Tokenise, PathOk, Path.Cd, Transferable, Range, Accounts;
    var z := Apply(y, ServerReads(a));
    RequestAlone(y);
    FileSize(a.file);
    SizeReads(|a.file|);
    JoinEmpty();
    Unit(a.file);
    Unit(Serve(y.s, y.up[0].bytes, a).out);
    assert z.down[1..] == [];
    assert Payloads(z.down[1..]) == [];
    assert InvAt(z, [], []);
  }

  lemma FileSize(file: seq<byte>)
    requires Transferable(file)
    ensures 0 < |file| && 0 !in file && -Range(8) <= 2 * |file| < Range(8)
  {
  }

  /** The packet in flight unpacks to the account asked for last. */
  lemma PacketUnpacks(asked: seq<Registration.Account>, known: seq<Registration.Account>, t: seq<Up>)
    requires Accounts(asked, known, t) && Registers(t)
    ensures asked != [] && asked == known + [asked[|asked| - 1]]
    ensures Registration.Unpack(t[|t| - 1].bytes) == Registration.Unpacked(asked[|asked| - 1])
  {
    hide Registration.Pack, Registration.Unpack, Registration.Fits;
    Split(asked, |asked| - 1);
    Registration.RoundTrip(asked[|asked| - 1]);
  }

  /** The server reads a registration packet: it never throws, and the reply is an int. */
  lemma RegistrationReads(y: Sys, a: Answers)
    requires InvAt(y, [], y.up) && y.s.state == SRegistering && Enabled(y, ServerReads(a))
    requires Survives(y.s, y.up[0].bytes, a)
    ensures Inv(Apply(y, ServerReads(a)))
  {
    hide HostInt, ReadHostInt, Join, RequestOf, Transferable, Serve, PathOk, RegistrationPacket, Registration.Unpack;
    hide ServerOk, SourceOk, Uploads, Downloads;
    var z := Apply(y, ServerReads(a));
    assert y.c.state == CRegistering && y.down == [] && Registers(y.up);
    PacketUnpacks(y.c.asked, y.s.accounts, y.up);
    Ranges();
    ReplyReads(CRegistering, a.registered);
    Unit([ReturnInt(CRegistering, a.registered)]);
    assert z.up == [];
    DialogueGoesOn(y, z);
  }

  /** A dialogue does not touch the files. */
  lemma DialogueGoesOn(y: Sys, z: Sys)
    requires InvAt(y, [], y.up) && y.s.state in {SInit, SRegistering, SLogin1, SLogin2} && z.c == y.c
    requires z.s ==
             y.s.(state := z.s.state, user := z.s.user, path := z.s.path, cds := z.s.cds, accounts := z.s.accounts)
    requires z.s.state in {SInit, SRegistering, SLogin1, SLogin2}
             || (z.s.state == SLoggedIn && PathOk(z.s.path, z.s.cds))
    requires Stage(z.c, z.s, z.s.state, z.up, z.down)
    requires Accounts(z.c.asked, z.s.accounts, z.up) && Users(z.c, z.s, z.up)
    ensures Inv(z)
  {
    hide Stage, Accounts, Users, PathOk, Join, Transferable;
    Unit(z.up);
    assert InvAt(z, [], z.up);
  }

  /** Taking the first of two messages leaves the last. */
  lemma StillRegisters(asked: seq<Registration.Account>, known: seq<Registration.Account>, t: seq<Up>)
    requires Accounts(asked, known, t) && |t| == 2
    ensures Accounts(asked, known, t[1..])
  {
  }

  /** The first message of a dialogue chooses registration or login. */
  lemma ModeReads(y: Sys, a: Answers)
    requires InvAt(y, [], y.up) && y.s.state == SInit && Enabled(y, ServerReads(a))
    ensures Inv(Apply(y, ServerReads(a)))
  {
    hide HostInt, ReadHostInt, Join, RequestOf, Transferable, PathOk, Accounts;
    hide ServerOk, SourceOk, Uploads, Downloads;
    var z := Apply(y, ServerReads(a));
    StillRegisters(y.c.asked, y.s.accounts, y.up);
    Unit(y.down);
    assert y.up[0].bytes == if y.c.state == CRegistering then ZERO else ONE;
    DialogueGoesOn(y, z);
  }

  /** The server answers a user name with the salt, or with nothing for an unknown user. */
  lemma NameReads(y: Sys, a: Answers)
    requires InvAt(y, [], y.up) && y.s.state == SLogin1 && Enabled(y, ServerReads(a))
    requires Survives(y.s, y.up[0].bytes, a)
    ensures Inv(Apply(y, ServerReads(a)))
  {
    hide HostInt, ReadHostInt, Join, RequestOf, Transferable, CStr, PathOk;
    hide ServerOk, SourceOk, Uploads, Downloads;
    var z := Apply(y, ServerReads(a));
    Unit([Packet(CLogin1, CStr(a.salt))]);
    assert z.up == [];
    DialogueGoesOn(y, z);
  }

  /** The answer to the password tells the client the state the server is in. */
  lemma SecretReads(y: Sys, a: Answers)
    requires InvAt(y, [], y.up) && y.s.state == SLogin2 && Enabled(y, ServerReads(a))
    requires Survives(y.s, y.up[0].bytes, a)
    ensures Inv(Apply(y, ServerReads(a)))
  {
    hide HostInt, ReadHostInt, Join, RequestOf, Transferable, CStr, Range;
    hide ServerOk, SourceOk, Uploads, Downloads;
    var z := Apply(y, ServerReads(a));
    Ranges();
    ReplyReads(CLogin2, 0);
    ReplyReads(CLogin2, -1);
    Unit([ReturnInt(CLogin2, 0)]);
    Unit([ReturnInt(CLogin2, -1)]);
    assert z.up == [];
    DialogueGoesOn(y, z);
  }

  /** The server learns the size of an upload and says go. */
  lemma UploadSizeReads(y: Sys, a: Answers)
    requires InvAt(y, [], y.up) && y.s.state == SBeginPuts && Enabled(y, ServerReads(a))
    ensures Inv(Apply(y, ServerReads(a)))
  {
    hide HostInt, ReadHostInt, Join, RequestOf, Serve, Transferable, Range, PathOk;
    var z := Apply(y, ServerReads(a));
    assert y.c.state == CPuts && y.down == [];
    FileSize(y.c.source);
    SizeReads(|y.c.source|);
    Ranges();
    ReplyReads(CPuts, 0);
    Unit([ReturnInt(CPuts, 0)]);
    assert z.up == [];
    assert InvAt(z, [], []);
  }

  /** A handler that does not survive leaves the client waiting with nothing in flight. */
  lemma HandlerStops(y: Sys, p: seq<Up>, t: seq<Up>, a: Answers)
    requires InvAt(y, p, t) && Enabled(y, ServerReads(a)) && !Survives(y.s, y.up[0].bytes, a)
    ensures Frozen(Apply(y, ServerReads(a)))
  {
    hide HostInt, ReadHostInt, Join, RequestOf, Transferable, PathOk, RegistrationPacket, Registration.Unpack, Tokenise;
    hide RegisterFits, QueryFits, Listing.Ls;
    assert p == [];
    Unit(t);
    Unit(y.down);
    Unit(y.s.stored);
  }

  /** Without residue the server reads nothing while it stores or pumps a file. */
  lemma NoTransferAlone(y: Sys)
    requires InvAt(y, [], y.up) && y.up != []
    ensures y.s.state != SPuts && y.s.state != SGets
  {
    hide HostInt, ReadHostInt, RequestOf, Join, Transferable, ServerOk, SourceOk, Uploads, Downloads, Users, Accounts;
  }

  lemma ServerReadsPreserves(y: Sys, a: Answers)
    requires Inv(y) && Enabled(y, ServerReads(a)) && Supported(y, ServerReads(a))
    ensures Inv(Apply(y, ServerReads(a)))
  {
    hide HostInt, ReadHostInt, Join, RequestOf, Serve, Transferable, Apply, PathOk, Accounts, Survives, Supported;
    hide Stage, SourceOk, Uploads, Downloads, Users;
    var p, t :| InvAt(y, p, t);
    if !Survives(y.s, y.up[0].bytes, a) {
      HandlerStops(y, p, t, a);
    } else if p != [] {
      ResidueReads(y, p, t, a);
    } else {
      Unit(t);
      NoTransferAlone(y);
      match y.s.state
      case SLoggedIn => RequestReads(y, a);
      case SRegistering => RegistrationReads(y, a);
      case SBeginPuts => UploadSizeReads(y, a);
      case SInit => ModeReads(y, a);
      case SLogin1 => NameReads(y, a);
      case SLogin2 => SecretReads(y, a);
    }
  }

  // ---- The server pumps a file ----

  lemma JoinOneMore<W>(ps: seq<Packet<W>>, d: Packet<W>)
    ensures Join(Payloads(ps + [d])) == Join(Payloads(ps)) + d.bytes
  {
    assert Payloads(ps + [d]) == Payloads(ps) + [d.bytes];
    JoinAppend(Payloads(ps), [d.bytes]);
    Unit(d.bytes);
    assert [d.bytes][1..] == [];
  }

  /** The next data message of a file without NUL is what `read` returned. */
  lemma NextChunk(s: Server)
    requires ServerOk(s) && s.state == SGets && s.fileSize > 0
    ensures var m := s.rest[..ReadLen(s.rest)];
            Pump(s).out == [Packet(CGets, m)] && m != [] && s.rest == m + Pump(s).s.rest
            && ServerOk(Pump(s).s)
  {
    var n := ReadLen(s.rest);
    Split(s.rest, n);
    assert CStr(s.rest[..n]) == s.rest[..n];
  }

  /** While the client receives, one more chunk moves bytes from the unread part into flight. */
  lemma PumpWhileReceiving(y: Sys)
    requires InvAt(y, [], y.up) && Enabled(y, PumpFile) && y.s.fileSize > 0 && y.c.state == CGets
    ensures InvAt(Apply(y, PumpFile), [], y.up)
  {
    hide HostInt, ReadHostInt, Join, RequestOf, Transferable, ServerOk, Pump, PathOk, Accounts;
    var z := Apply(y, PumpFile);
    PumpingServes(y.s);
    NextChunk(y.s);
    var d := Pump(y.s).out[0];
    PumpFields(y.s);
    JoinOneMore(y.down, d);
    Assoc(y.c.saved, Join(Payloads(y.down)), d.bytes);
    Assoc(y.c.saved + Join(Payloads(y.down)), d.bytes, z.s.rest);
  }

  /** The same before the client has read the announcement of the size. */
  lemma PumpBeforeAnnounced(y: Sys)
    requires InvAt(y, [], y.up) && Enabled(y, PumpFile) && y.s.fileSize > 0 && y.c.state == CBeginGets
    ensures InvAt(Apply(y, PumpFile), [], y.up)
  {
    hide HostInt, ReadHostInt, Join, RequestOf, Transferable, ServerOk, Pump, PathOk, Accounts;
    var z := Apply(y, PumpFile);
    PumpingServes(y.s);
    NextChunk(y.s);
    var d := Pump(y.s).out[0];
    PumpFields(y.s);
    JoinOneMore(y.down[1..], d);
    Uncons(y.down, [d]);
    Assoc(Join(Payloads(y.down[1..])), d.bytes, z.s.rest);
  }

  lemma PumpingServes(s: Server)
    requires ServerOk(s) && s.pumping
    ensures s.state == SGets
  {
  }

  lemma PumpFields(s: Server)
    requires s.fileSize > 0
    ensures Pump(s).s == s.(rest := Pump(s).s.rest, fileSize := s.fileSize - ReadLen(s.rest))
  {
  }

  /** The last run of the pump finds nothing to read. */
  lemma PumpEnds(y: Sys, p: seq<Up>, t: seq<Up>)
    requires InvAt(y, p, t) && Enabled(y, PumpFile) && y.s.fileSize == 0
    ensures InvAt(Apply(y, PumpFile), p, t)
  {
    hide HostInt, ReadHostInt, Join, RequestOf, Transferable, PathOk, Accounts, Stage, CStr;
    var z := Apply(y, PumpFile);
    Unit(y.down);
    assert y.s.rest == [] && z.s.rest == [];
    SameStage(y.c, y.s, z.s, After(y.s, p), t, y.down);
  }

  /** While there is something to read, nothing of the download is left to be acknowledged. */
  lemma PumpingMeans(y: Sys, p: seq<Up>, t: seq<Up>)
    requires InvAt(y, p, t) && y.s.pumping && y.s.fileSize > 0
    ensures p == [] && y.c.state in {CGets, CBeginGets}
  {
    hide HostInt, ReadHostInt, Join, RequestOf, Transferable, PathOk, Accounts, Users, Uploads, Downloads;
  }

  lemma PumpPreserves(y: Sys)
    requires Inv(y) && Enabled(y, PumpFile)
    ensures Inv(Apply(y, PumpFile))
  {
    hide HostInt, ReadHostInt, Join, RequestOf, Transferable, PathOk, Accounts, Stage, Users, Uploads, Downloads;
    hide Apply, Residue;
    var p, t :| InvAt(y, p, t);
    if y.s.fileSize == 0 {
      PumpEnds(y, p, t);
    } else {
      PumpingMeans(y, p, t);
      Unit(t);
      if y.c.state == CGets { PumpWhileReceiving(y); } else { PumpBeforeAnnounced(y); }
    }
  }

  lemma StepPreserves(y: Sys, e: Step)
    requires Inv(y) && Enabled(y, e) && Supported(y, e)
    ensures Inv(Apply(y, e))
  {
    match e
    case Key(t) => KeyPreserves(y, t);
    case ClientReads(digest) => ClientReadsPreserves(y, digest);
    case ServerReads(a) => ServerReadsPreserves(y, a);
    case PumpFile => PumpPreserves(y);
  }
}
