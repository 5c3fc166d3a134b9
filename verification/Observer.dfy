/** One who sees what is typed, what database and file system answer and which states both sides are in, but no
    message, and keeps what a user would expect of the session: in every reachable state client and server have it. */
module Observer {
  import opened Bytes
  import opened Seqs
  import opened Tokens
  import opened Transfer
  import opened Session
  import opened System
  import opened Intents
  import Home
  import Listing
  import Path
  import Protocol
  import Registration

  /** `words` are those of the last line sent, `content` the file that the last `puts` named, `digest` what was
      made of the last password; `asked`, `sent` and `offered` list accounts, uploads and downloads, and `cds`
      the `cd` lines answered since login. */
  datatype Seen = Seen(
    asked: seq<Registration.Account>, user: seq<byte>, words: seq<seq<byte>>, content: seq<byte>, digest: seq<byte>,
    sent: seq<seq<byte>>, offered: seq<seq<byte>>, cds: seq<Path.CdCall>)

  const NOTHING := Seen([], [], [], [], [], [], [], [])

  /** What a step adds: only the states of both sides and the inputs of the step are looked at, no message. */
  ghost function Note(o: Seen, v: ClientState, w: ServerState, e: Step): Seen {
    match e
    case Key(t) =>
      if v == CInit && t.line == Ascii("0") then o.(asked := o.asked + [t.account])
      else if v == CInit && t.line == Ascii("1") then o.(user := t.account.name)
      else if v == CLoggedIn && Accepted(WordList(t.line), t.present) then
        o.(words := WordList(t.line),
           content := if WordList(t.line)[0] == Ascii("puts") then t.content else o.content)
      else o
    case ClientReads(digest) =>
      if v == CLogin1 then o.(digest := digest)
      else if v == CPuts then o.(sent := o.sent + [o.content])
      else o
    case ServerReads(a) =>
      if w == SLogin2 && o.digest == CStr(a.secret) then o.(cds := [])
      else if w == SLoggedIn && o.words != [] && o.words[0] == Ascii("cd") then
        o.(cds := o.cds + [Path.CdCall(Second(o.words), a.opens)])
      else if w == SLoggedIn && o.words != [] && o.words[0] == Ascii("gets") && a.found && !a.opens then
        o.(offered := o.offered + [a.file])
      else o
    case PumpFile => o
  }

  ghost function Watch(trace: seq<Sys>, steps: seq<Step>, k: nat): Seen
    requires k <= |steps| && |trace| == |steps| + 1
  {
    if k == 0 then NOTHING
    else Note(Watch(trace, steps, k - 1), trace[k - 1].c.state, trace[k - 1].s.state, steps[k - 1])
  }

  /** The last message to the server, when it is a command or a digest, is the one typed. */
  ghost predicate Sent(o: Seen, up: seq<Up>) {
    up != [] ==>
      var m := up[|up| - 1];
      && (m.want == SLoggedIn ==> WordList(m.bytes) == o.words)
      && (m.want == SLogin2 ==> m.bytes == o.digest)
  }

  ghost predicate Agrees(o: Seen, y: Sys) {
    && o.asked == y.c.asked && o.user == y.c.user && o.content == y.c.source && o.sent == y.c.sent
    && o.offered == y.s.offered && Sent(o, y.up) && (!y.s.crashed ==> o.cds == y.s.cds)
  }

  lemma KeyAgrees(o: Seen, y: Sys, t: Typed)
    requires Inv(y) && Agrees(o, y) && Enabled(y, Key(t))
    ensures Agrees(Note(o, y.c.state, y.s.state, Key(t)), Apply(y, Key(t)))
  {
    hide Inv, WordList, Tokenise, Keyboard, Registration.Pack, CStr, HasWord;
    Intents.Spelled();
    if y.c.state == CInit {
      KeyOpens(y, t);
    } else if y.c.state == CLoggedIn {
      KeySends(y, t);
    } else {
      KeyIgnored(y, t);
    }
  }

  lemma KeyIgnored(y: Sys, t: Typed)
    requires y.c.state != CInit && y.c.state != CLoggedIn
    ensures Apply(y, Key(t)) == y
  {
    Unit(y.up);
  }

  lemma ClientAgrees(o: Seen, y: Sys, digest: seq<byte>)
    requires Inv(y) && Agrees(o, y) && y.down != []
    ensures Agrees(Note(o, y.c.state, y.s.state, ClientReads(digest)), Apply(y, ClientReads(digest)))
  {
    hide Inv, ClientOnMessage, Join, HostInt, ReadHostInt, WordList, Accepted;
    if y.c.state in {CRegistering, CLogin1, CLogin2} {
      ClientTalks(y, digest);
    } else {
      ClientWorks(y, digest);
    }
  }

  /** Taking a message from the queue leaves the last one. */
  lemma StillSent(o: Seen, o': Seen, up: seq<Up>)
    requires Sent(o, up) && up != [] && o'.words == o.words && o'.digest == o.digest
    ensures Sent(o', up[1..])
  {
  }

  /** The command or digest that the server is about to read is the last message. */
  lemma ReadsTyped(o: Seen, y: Sys)
    requires Inv(y) && Sent(o, y.up) && Alive(y.s) && y.up != []
    ensures y.s.state == SLoggedIn ==> WordList(y.up[0].bytes) == o.words
    ensures y.s.state == SLogin2 ==> y.up[0].bytes == o.digest
  {
    hide Inv, WordList, RequestOf, PathOk;
    if y.s.state == SLoggedIn { Alone(y); }
    if y.s.state == SLogin2 { Talking(y); }
  }

  /** A handler that stops the server begins no download. */
  lemma StopsClean(y: Sys, a: Answers)
    requires Enabled(y, ServerReads(a)) && Apply(y, ServerReads(a)).s.crashed
    ensures var z := Apply(y, ServerReads(a)); z.c == y.c && z.up == y.up[1..] && z.s.offered == y.s.offered
  {
    hide HostInt, ReadHostInt, Tokenise, Path.Cd, Listing.Ls, Registration.Unpack, RegisterFits, QueryFits, CStr, Where;
  }

  /** A server that reads a message changes what has been offered and the directory at most. */
  lemma ServerGoesOn(o: Seen, o': Seen, y: Sys, z: Sys)
    requires Agrees(o, y) && y.up != [] && z.c == y.c && z.up == y.up[1..]
    requires o' == o.(offered := z.s.offered, cds := o'.cds) && (!z.s.crashed ==> o'.cds == z.s.cds)
    ensures Agrees(o', z)
  {
    hide Sent;
    StillSent(o, o', y.up);
  }

  lemma CommandAgrees(o: Seen, y: Sys, a: Answers)
    requires Inv(y) && Agrees(o, y) && Enabled(y, ServerReads(a)) && y.s.state == SLoggedIn
    ensures Agrees(Note(o, y.c.state, y.s.state, ServerReads(a)), Apply(y, ServerReads(a)))
  {
    hide Inv, ServerOnMessage, Join, HostInt, ReadHostInt, WordList, CStr, Sent;
    hide Listing.Ls, Answered, Says, Home.ListAll;
    Intents.Spelled();
    ReadsTyped(o, y);
    Unit(y.up[1..]);
    var z := Apply(y, ServerReads(a));
    if z.s.crashed {
      HandlersNeed(y, a);
      StopsClean(y, a);
    } else {
      Alone(y);
      ServerAnswers(y, a);
    }
    ServerGoesOn(o, Note(o, y.c.state, y.s.state, ServerReads(a)), y, z);
  }

  lemma ServerAgrees(o: Seen, y: Sys, a: Answers)
    requires Inv(y) && Agrees(o, y) && Enabled(y, ServerReads(a))
    ensures Agrees(Note(o, y.c.state, y.s.state, ServerReads(a)), Apply(y, ServerReads(a)))
  {
    hide Inv, ServerOnMessage, Join, HostInt, ReadHostInt, WordList, CStr, Sent;
    hide Listing.Ls, Answered, Says, Home.ListAll;
    if y.s.state == SLoggedIn {
      CommandAgrees(o, y, a);
    } else {
      ReadsTyped(o, y);
      var z := Apply(y, ServerReads(a));
      if z.s.crashed {
        StopsClean(y, a);
      } else if y.s.state in {SBeginPuts, SPuts, SGets} {
        ServerStores(y, a);
      } else {
        ServerTalks(y, a);
      }
      ServerGoesOn(o, Note(o, y.c.state, y.s.state, ServerReads(a)), y, z);
    }
  }

  lemma PumpAgrees(o: Seen, y: Sys)
    requires Agrees(o, y) && Enabled(y, PumpFile)
    ensures Agrees(o, Apply(y, PumpFile))
  {
    hide Sent;
  }

  /** Whatever happens, what is noted stays what both sides have. */
  lemma StepAgrees(o: Seen, y: Sys, e: Step)
    requires Inv(y) && Agrees(o, y) && Enabled(y, e)
    ensures Agrees(Note(o, y.c.state, y.s.state, e), Apply(y, e))
  {
    hide Inv, Agrees, Apply;
    match e
    case Key(t) => KeyAgrees(o, y, t);
    case ClientReads(digest) => ClientAgrees(o, y, digest);
    case ServerReads(a) => ServerAgrees(o, y, a);
    case PumpFile => PumpAgrees(o, y);
  }

  lemma StartAgrees()
    ensures Agrees(NOTHING, START)
  {
  }

  lemma {:induction false} RunAgrees(trace: seq<Sys>, steps: seq<Step>, k: nat)
    requires Protocol.Run(trace, steps) && k <= |steps|
    ensures Agrees(Watch(trace, steps, k), trace[k])
  {
    hide Inv, Agrees, Apply, Note, Enabled, Supported;
    if k == 0 {
      StartAgrees();
    } else {
      RunAgrees(trace, steps, k - 1);
      Protocol.RunKeepsInv(trace, steps, k - 1);
      StepAgrees(Watch(trace, steps, k - 1), trace[k - 1], steps[k - 1]);
    }
  }

  // ---- What the user gets ----

  lemma ServesUser(y: Sys)
    requires Inv(y) && !y.s.crashed && y.s.state in {SLoggedIn, SBeginPuts, SPuts, SGets}
    ensures y.s.user == y.c.user
  {
    hide RequestOf, PathOk, Accounts, ServerOk, SourceOk, Uploads, Downloads, Join, HostInt, ReadHostInt, DataFor;
    var p: seq<Up>, t: seq<Up> :| InvAt(y, p, t);
  }

  /** In every reachable state: registered are accounts as they were typed, stored are files as they were named
      to `puts`, and fetched are files as the server has them, each in order, and all of them when nothing is on
      its way; the directory is where the `cd` lines answered since login lead, for the user typed at login. */
  lemma WhatUserGets(trace: seq<Sys>, steps: seq<Step>, k: nat)
    requires Protocol.Run(trace, steps) && k <= |steps|
    ensures var y, o := trace[k], Watch(trace, steps, k);
            && y.s.accounts <= o.asked && y.s.stored <= o.sent && y.c.fetched <= o.offered
            && (Protocol.Quiet(y) ==>
                  y.s.accounts == o.asked && y.s.stored == o.sent && y.c.fetched == o.offered)
            && (!y.s.crashed && y.s.state in {SLoggedIn, SBeginPuts, SPuts, SGets} ==>
                  y.s.path == Path.Render(Home.ListAll(o.cds)) && y.s.user == o.user)
  {
    hide Inv, Watch, Home.ListAll, Path.Render;
    var y := trace[k];
    Protocol.RunKeepsInv(trace, steps, k);
    RunAgrees(trace, steps, k);
    Protocol.AccountsInOrder(y);
    Protocol.FilesInOrder(y);
    if Protocol.Quiet(y) { Protocol.QuietMeansAgreement(y); }
    if !y.s.crashed && y.s.state in {SLoggedIn, SBeginPuts, SPuts, SGets} {
      Protocol.DirectoryIsHistory(y);
      ServesUser(y);
    }
  }

  /** The answer of the server to the words typed, in whatever order things were sent and read. */
  ghost predicate Served(o: Seen, a: Answers, y: Sys, z: Sys) {
    var ws, here := o.words, Path.Render(Home.ListAll(o.cds));
    && o.words != [] && y.s.path == here
    && (ws == [Ascii("pwd")] || ws == [Ascii("ls")] || ws[0] == Ascii("mkdir") || ws[0] == Ascii("remove")
        || ws[0] == Ascii("cd") || ws[0] == Ascii("puts") || ws[0] == Ascii("gets"))
    && (ws == [Ascii("pwd")] ==> z.s == y.s && z.down == [Packet(CPrint, here)])
    && (ws == [Ascii("ls")] ==>
          && z.s == y.s && One(z.down, CPrint)
          && Listing.Ls(CStr(Ascii("/home/yu/my_project/deploy/home/") + o.user + here), a.dir)
             == Listing.Text(z.down[0].bytes))
    && (ws[0] == Ascii("mkdir") ==> z.s == y.s && Says(z.down, CMkdir, a.made))
    && (ws[0] == Ascii("remove") ==> z.s == y.s && Says(z.down, CRemove, a.removed))
    && (ws[0] == Ascii("cd") ==>
          && z.s == y.s.(path := z.s.path, cds := z.s.cds)
          && z.s.path == Path.Render(Home.ListAll(o.cds + [Path.CdCall(Second(ws), a.opens)]))
          && Says(z.down, CCd, if Plain(Second(ws)) || a.opens then 0 else -1))
    && (ws[0] == Ascii("puts") ==>
          && z.s.state == (if a.found then SLoggedIn else SBeginPuts) && z.s.path == here
          && Says(z.down, CBeginPuts, if a.found then -1 else 0))
    && (ws[0] == Ascii("gets") ==>
          && z.s.state == (if a.found && !a.opens then SGets else SLoggedIn) && z.s.path == here
          && One(z.down, CBeginGets)
          && ReadHostInt(z.down[0].bytes, 8) == if a.found && !a.opens then |a.file| else -1)
  }

  /** In every run each command is carried out and answered as it was typed. */
  lemma CommandsServed(trace: seq<Sys>, steps: seq<Step>, k: nat, a: Answers)
    requires Protocol.Run(trace, steps) && k < |steps| && steps[k] == ServerReads(a)
    requires trace[k].s.state == SLoggedIn && !trace[k + 1].s.crashed
    ensures Served(Watch(trace, steps, k), a, trace[k], trace[k + 1])
  {
    hide Inv, Watch, Home.ListAll, Path.Render, HostInt, ReadHostInt, WordList, Apply, Served, Agrees, Supported;
    var y, o := trace[k], Watch(trace, steps, k);
    Protocol.RunKeepsInv(trace, steps, k);
    RunAgrees(trace, steps, k);
    WhatUserGets(trace, steps, k);
    AnswersServed(o, y, a);
  }

  lemma AnswersServed(o: Seen, y: Sys, a: Answers)
    requires Inv(y) && Agrees(o, y) && Enabled(y, ServerReads(a)) && Supported(y, ServerReads(a))
    requires y.s.state == SLoggedIn && !Apply(y, ServerReads(a)).s.crashed
    requires y.s.path == Path.Render(Home.ListAll(o.cds))
    ensures Served(o, a, y, Apply(y, ServerReads(a)))
  {
    hide Inv, Home.ListAll, Path.Render, HostInt, ReadHostInt, Listing.Ls, CStr, ServerOnMessage, WordList;
    hide Says, Plain, Sized;
    ReadsTyped(o, y);
    ServerAnswers(y, a);
    Intents.Spelled();
    if Apply(y, ServerReads(a)).s.state == SGets { FileSize(a.file); }
  }

  /** In every run a login succeeds exactly with the digest, typed last, that the database holds. */
  lemma LoginServed(trace: seq<Sys>, steps: seq<Step>, k: nat, a: Answers)
    requires Protocol.Run(trace, steps) && k < |steps| && steps[k] == ServerReads(a)
    requires trace[k].s.state == SLogin2 && !trace[k + 1].s.crashed
    ensures var o, z := Watch(trace, steps, k), trace[k + 1];
            && Says(z.down, CLogin2, if o.digest == CStr(a.secret) then 0 else -1)
            && if o.digest == CStr(a.secret) then z.s.state == SLoggedIn && z.s.path == Ascii("/") && z.s.user == o.user
               else z.s.state == SInit
  {
    hide Inv, Watch, HostInt, ReadHostInt, CStr, ServerOnMessage, Says;
    var y, o := trace[k], Watch(trace, steps, k);
    Protocol.RunKeepsInv(trace, steps, k);
    RunAgrees(trace, steps, k);
    ReadsTyped(o, y);
    ServerTalks(y, a);
  }

  /** A `puts` that is granted ends with the file named stored, as it was typed, and a `gets` with the file
      that the server has, whatever the schedule; all earlier files are still there. */
  lemma FilesServed(trace: seq<Sys>, steps: seq<Step>, k: nat, a: Answers, pick: Sys -> Step)
    requires Protocol.Run(trace, steps) && k < |steps| && steps[k] == ServerReads(a)
    requires trace[k].s.state == SLoggedIn && !trace[k + 1].s.crashed
    requires Protocol.Clear(trace[k]) && Protocol.Scheduler(pick)
    ensures Inv(trace[k + 1]) && Alive(trace[k + 1].s) && Protocol.Clear(trace[k + 1])
    ensures var o, z := Watch(trace, steps, k), Protocol.Settle(trace[k + 1], pick);
            && o.words != []
            && z.s.stored == o.sent + (if o.words[0] == Ascii("puts") && !a.found then [o.content] else [])
            && z.c.fetched ==
               o.offered + (if o.words[0] == Ascii("gets") && a.found && !a.opens then [a.file] else [])
  {
    hide Inv, Watch, Protocol.Scheduler, Protocol.Clear, Protocol.Settle, ServerOnMessage, Survives, WordList;
    hide Supported, RequestOf, Home.ListAll, Agrees, Apply;
    var y, o := trace[k], Watch(trace, steps, k);
    Protocol.RunKeepsInv(trace, steps, k);
    RunAgrees(trace, steps, k);
    Protocol.CrashStep(y, steps[k]);
    Protocol.GrantedArrives(y, a, pick);
    Expected(o, y);
  }

  /** The words typed tell what the client waits for, and by then all earlier files have arrived. */
  lemma Expected(o: Seen, y: Sys)
    requires Inv(y) && Agrees(o, y) && Alive(y.s) && y.s.state == SLoggedIn && y.up != []
    ensures o.words != []
    ensures o.words[0] == Ascii("puts") <==> y.c.state == CBeginPuts
    ensures o.words[0] == Ascii("gets") <==> y.c.state == CBeginGets
    ensures y.s.stored == y.c.sent == o.sent && o.offered == y.c.fetched && o.content == y.c.source
  {
    hide Inv, RequestOf, WordList, PathOk;
    ReadsTyped(o, y);
    Alone(y);
    RequestWords(y.up[0].bytes);
    Intents.Spelled();
    Protocol.FilesWhenAsking(y);
  }
}
