/** From what the user types, and what database and file system answer, to what each side then has and says:
    laws of every step and of whole runs, in the words of the protocol and without the machines' own steps. */
module Intents {
  import opened Bytes
  import opened Seqs
  import opened Tokens
  import opened Transfer
  import opened Session
  import opened System
  import Home
  import Listing
  import Path
  import Protocol
  import Registration

  /** The constants of the protocol, spelled out. */
  lemma Spelled()
    ensures ZERO == Ascii("0") && ONE == Ascii("1")
    ensures PWD == Ascii("pwd") && LS == Ascii("ls") && CLEAR == Ascii("clear")
    ensures MKDIR == Ascii("mkdir") && REMOVE == Ascii("remove") && CD == Ascii("cd")
    ensures PUTS == Ascii("puts") && GETS == Ascii("gets")
    ensures Path.ROOT == Ascii("/") && Path.DOT == Ascii(".") && Path.DOTDOT == Ascii("..")
  {
  }

  lemma TextsSpelled()
    ensures WORK_DIR == Ascii("/home/yu/my_project/deploy/home/")
    ensures INSERT_TEXT == |"insert into UserInfo(UserName,Salt,PassWord) values('','','')"|
    ensures SALT_QUERY == |"select Salt from UserInfo where UserName=''"|
    ensures SECRET_QUERY == |"select PassWord from UserInfo where UserName=''"|
  {
  }

  // ---- Words ----

  function Second(ws: seq<seq<byte>>): seq<byte> {
    if |ws| > 1 then ws[1] else []
  }

  /** The requests the server knows, told by their words. */
  lemma RequestWords(msg: seq<byte>)
    requires RequestOf(msg) != Unknown
    ensures var ws, q := WordList(msg), RequestOf(msg);
            && ws != [] && Tokenise(msg).parm == Second(ws)
            && (q == Pwd <==> ws == [PWD]) && (q == Ls <==> ws == [LS])
            && (q == Mkdir <==> ws[0] == MKDIR) && (q == Remove <==> ws[0] == REMOVE) && (q == Cd <==> ws[0] == CD)
            && (q == Puts <==> ws[0] == PUTS) && (q == Gets <==> ws[0] == GETS)
    ensures msg == PWD ==> RequestOf(msg) == Pwd
  {
    hide Tokenise, WordList;
    TokeniseWords(msg);
    SingleWord(PWD);
    SingleWord(LS);
  }

  // ---- The keyboard ----

  /** At the start, "0" sends that and the account typed, "1" that and the user name typed; nothing else sends. */
  lemma KeyOpens(y: Sys, t: Typed)
    requires y.c.state == CInit
    ensures var z := Apply(y, Key(t));
            && z.s == y.s && z.down == y.down
            && if t.line == Ascii("0") then
                 && z.c == y.c.(state := CRegistering, asked := y.c.asked + [t.account])
                 && z.up == y.up + [Packet(SInit, Ascii("0")), Packet(SRegistering, Registration.Pack(t.account))]
               else if t.line == Ascii("1") then
                 && z.c == y.c.(state := CLogin1, user := t.account.name)
                 && z.up == y.up + [Packet(SInit, Ascii("1")), Packet(SLogin1, t.account.name)]
               else z.c == y.c && z.up == y.up
  {
    hide Registration.Pack;
    Spelled();
    Unit(y.up);
  }

  /** A logged-in user's line is sent without the spaces around it and with all its words, or not at all. */
  lemma KeySends(y: Sys, t: Typed)
    requires y.c.state == CLoggedIn && HasWord(t.line)
    ensures var z, ws := Apply(y, Key(t)), WordList(t.line);
            && z.s == y.s && z.down == y.down
            && (z.up == y.up <==> z.c == y.c)
            && (z.up != y.up ==>
                  && |z.up| == |y.up| + 1 && z.up[..|y.up|] == y.up && z.up[|y.up|].want == SLoggedIn
                  && WordList(z.up[|y.up|].bytes) == ws && Trimmed(z.up[|y.up|].bytes)
                  && z.c == y.c.(state := z.c.state, source := if ws[0] == Ascii("puts") then t.content else y.c.source)
                  && z.c.state == WaitFor(ws))
            && (z.up != y.up <==> Accepted(ws, t.present))
  {
    hide Tokenise, WordList, Trim, HasWord;
    Spelled();
    TrimKeepsWord(t.line);
    TrimKeepsWords(t.line);
    var line := Trim(t.line);
    JudgeIff(line, t.present);
    JudgeAgrees(line, t.present);
    Unit(y.up);
    if Judge(line, t.present).Ask? {
      RequestWords(line);
      Cut(y.up, Keyboard(y.c, t).out);
    }
  }

  predicate Accepted(ws: seq<seq<byte>>, present: bool) {
    || ws == [Ascii("pwd")] || ws == [Ascii("ls")] || ws == [Ascii("cd")]
    || (|ws| == 2 && (|| ws[0] in {Ascii("mkdir"), Ascii("remove"), Ascii("cd")}
                      || (ws[0] == Ascii("puts") && present) || (ws[0] == Ascii("gets") && !present)))
  }

  function WaitFor(ws: seq<seq<byte>>): ClientState {
    if ws == [] then CLoggedIn
    else if ws[0] in {Ascii("pwd"), Ascii("ls")} then CPrint
    else if ws[0] == Ascii("mkdir") then CMkdir
    else if ws[0] == Ascii("remove") then CRemove
    else if ws[0] == Ascii("cd") then CCd
    else if ws[0] == Ascii("puts") then CBeginPuts
    else CBeginGets
  }

  // ---- What stops a handler ----

  /** A message stops the server exactly if one of these texts is too long for its array, counting the final
      NUL, or the directory of the user cannot be listed. */
  lemma HandlersNeed(y: Sys, a: Answers)
    requires Inv(y) && Enabled(y, ServerReads(a))
    ensures Apply(y, ServerReads(a)).s.crashed <==>
            match y.s.state
            case SRegistering =>
              y.c.asked != [] &&
              var u := y.c.asked[|y.c.asked| - 1];
              |"insert into UserInfo(UserName,Salt,PassWord) values('','','')"|
              + |CStr(u.name)| + |CStr(u.salt)| + |CStr(u.secret)| > 255
            case SLogin1 =>
              |"select Salt from UserInfo where UserName=''"| + |CStr(y.c.user)| > 255 || |CStr(a.salt)| > 31
            case SLogin2 =>
              |"select PassWord from UserInfo where UserName=''"| + |CStr(y.c.user)| > 255 || |CStr(a.secret)| > 127
            case SLoggedIn =>
              && WordList(y.up[0].bytes) == [Ascii("ls")]
              && Listing.Ls(CStr(Ascii("/home/yu/my_project/deploy/home/") + y.c.user + y.s.path), a.dir)
                 == Listing.Stops
            case _ => false
  {
    hide Inv, CStr, Listing.Ls, Registration.Unpack, WordList, RequestOf, Apply;
    Spelled();
    TextsSpelled();
    Protocol.CrashStep(y, ServerReads(a));
    match y.s.state
    case SRegistering => Protocol.ReadsAccount(y);
    case SLogin1 => Protocol.ReadsName(y);
    case SLogin2 => Protocol.KnowsUser(y);
    case SLoggedIn =>
      Protocol.InvReadsRight(y);
      RequestWords(y.up[0].bytes);
      UserKept(y);
    case _ =>
  }

  /** A logged-in server serves the user that the client is. */
  lemma UserKept(y: Sys)
    requires Inv(y) && Alive(y.s) && y.s.state == SLoggedIn && y.up != []
    ensures y.s.user == y.c.user
  {
    hide RequestOf, Join, PathOk, Accounts, ServerOk, SourceOk, Uploads, Downloads, Stage, Users;
    var p: seq<Up>, t: seq<Up> :| InvAt(y, p, t);
    Unit(t);
    Requesting(y);
    UserGiven(y.c, y.s, y.up);
  }

  lemma UserGiven(c: Client, s: Server, t: seq<Up>)
    requires Users(c, s, t) && One(t, SLoggedIn) && c.state !in {CInit, CRegistering}
    ensures s.user == c.user
  {
  }

  /** What is on its way to a logged-in server is one request, of the kind that the client waits for. */
  lemma Requesting(y: Sys)
    requires InvAt(y, [], y.up) && y.s.state == SLoggedIn && y.up != []
    ensures Asking(y.c.state, SLoggedIn, y.up, y.down)
    ensures y.c.state in {CPrint, CMkdir, CRemove, CCd, CBeginPuts, CBeginGets} && RequestOf(y.up[0].bytes) != Unknown
  {
    hide RequestOf, Join, PathOk, Accounts, ServerOk, SourceOk, Uploads, Downloads, Users, HostInt, ReadHostInt;
  }

  // ---- What the server does with a message ----

  /** The operands of `cd` that need no directory of that name. */
  predicate Plain(operand: seq<byte>) {
    operand == [] || operand == Ascii(".") || operand == Ascii("..")
  }

  ghost predicate Says(down: seq<Down>, want: ClientState, v: int) {
    One(down, want) && |down[0].bytes| == 4 && ReadHostInt(down[0].bytes, 4) == v
  }

  /** The answers to the commands that leave the server as it is. */
  ghost predicate Answered(y: Sys, ws: seq<seq<byte>>, a: Answers, down: seq<Down>)
    requires ws != []
  {
    && (ws == [Ascii("pwd")] ==> down == [Packet(CPrint, Path.Render(Home.ListAll(y.s.cds)))])
    && (ws == [Ascii("ls")] ==>
          && One(down, CPrint)
          && Listing.Ls(CStr(Ascii("/home/yu/my_project/deploy/home/") + y.c.user + y.s.path), a.dir)
             == Listing.Text(down[0].bytes))
    && (ws[0] == Ascii("mkdir") ==> Says(down, CMkdir, a.made))
    && (ws[0] == Ascii("remove") ==> Says(down, CRemove, a.removed))
  }

  /** A command of a logged-in user, by its words: only `cd` moves the user, by its second word, only `puts`
      and `gets` change the state, exactly if they are granted, and the answer says which it was. */
  lemma ServerAnswers(y: Sys, a: Answers)
    requires Inv(y) && Enabled(y, ServerReads(a)) && y.s.state == SLoggedIn && !Apply(y, ServerReads(a)).s.crashed
    ensures var z, ws := Apply(y, ServerReads(a)), WordList(y.up[0].bytes);
            && z.c == y.c && z.up == [] && ws != []
            && (ws == [Ascii("pwd")] || ws == [Ascii("ls")] || ws[0] == Ascii("mkdir") || ws[0] == Ascii("remove")
                || ws[0] == Ascii("cd") || ws[0] == Ascii("puts") || ws[0] == Ascii("gets"))
            && if ws[0] == Ascii("cd") then
                 && z.s == y.s.(path := z.s.path, cds := y.s.cds + [Path.CdCall(Second(ws), a.opens)])
                 && z.s.path == Path.Render(Home.ListAll(z.s.cds))
                 && Says(z.down, CCd, if Plain(Second(ws)) || a.opens then 0 else -1)
               else if ws[0] == Ascii("puts") then
                 && z.s == (if a.found then y.s else y.s.(state := SBeginPuts, saved := []))
                 && Says(z.down, CBeginPuts, if a.found then -1 else 0)
               else if ws[0] == Ascii("gets") then
                 if a.found && !a.opens then
                   && z.s == y.s.(state := SGets, fileSize := |a.file|, rest := a.file, pumping := true,
                                  offered := y.s.offered + [a.file])
                   && One(z.down, CBeginGets)
                   && (Sized(a.file) ==> ReadHostInt(z.down[0].bytes, 8) == |a.file|)
                 else z.s == y.s && One(z.down, CBeginGets) && ReadHostInt(z.down[0].bytes, 8) == -1
               else z.s == y.s && Answered(y, ws, a, z.down)
  {
    hide Inv, RequestOf, HostInt, ReadHostInt, WordList, Tokenise, CStr, Home.ListAll, Path.Render, PathOk, Sized;
    hide Apply, Survives, Says, Answered;
    Spelled();
    Alone(y);
    RequestWords(y.up[0].bytes);
    Unchanged(y, a);
    match RequestOf(y.up[0].bytes)
    case Cd => Moved(y, a);
    case Puts => PutsAnswered(y, a);
    case Gets => GetsAnswered(y, a);
    case _ => PlainAnswered(y, a);
  }

  lemma Unchanged(y: Sys, a: Answers)
    requires Enabled(y, ServerReads(a))
    ensures var z := Apply(y, ServerReads(a)); z.c == y.c && z.up == y.up[1..]
  {
    hide ServerOnMessage;
  }

  lemma PlainAnswered(y: Sys, a: Answers)
    requires Inv(y) && Enabled(y, ServerReads(a)) && y.s.state == SLoggedIn && !Apply(y, ServerReads(a)).s.crashed
    requires RequestOf(y.up[0].bytes) in {Pwd, Ls, Mkdir, Remove}
    ensures var z, ws := Apply(y, ServerReads(a)), WordList(y.up[0].bytes);
            ws != [] && z.s == y.s && Answered(y, ws, a, z.down)
  {
    hide Inv, RequestOf, HostInt, ReadHostInt, WordList, Tokenise, Listing.Ls, CStr, Range, Home.ListAll, Path.Render;
    hide PathOk;
    Spelled();
    Ranges();
    Alone(y);
    RequestWords(y.up[0].bytes);
    match RequestOf(y.up[0].bytes)
    case Pwd => Protocol.DirectoryIsHistory(y);
    case Ls =>
      TextsSpelled();
      UserKept(y);
    case Mkdir => ReplyReads(CMkdir, a.made);
    case Remove => ReplyReads(CRemove, a.removed);
  }

  lemma Moved(y: Sys, a: Answers)
    requires Inv(y) && Enabled(y, ServerReads(a)) && y.s.state == SLoggedIn && RequestOf(y.up[0].bytes) == Cd
    ensures var z, parm := Apply(y, ServerReads(a)), Tokenise(y.up[0].bytes).parm;
            && z.s == y.s.(path := z.s.path, cds := y.s.cds + [Path.CdCall(parm, a.opens)])
            && z.s.path == Path.Render(Home.ListAll(z.s.cds))
            && Says(z.down, CCd, if Plain(parm) || a.opens then 0 else -1)
  {
    hide Inv, RequestOf, HostInt, ReadHostInt, Tokenise, Path.Cd, Range, Home.ListAll, Path.Render, PathOk;
    Spelled();
    Ranges();
    Alone(y);
    ReplyReads(CCd, 0);
    ReplyReads(CCd, -1);
    PathSpells(y, Tokenise(y.up[0].bytes).parm, a.opens);
  }

  lemma PutsAnswered(y: Sys, a: Answers)
    requires Inv(y) && Enabled(y, ServerReads(a)) && y.s.state == SLoggedIn && RequestOf(y.up[0].bytes) == Puts
    ensures var z := Apply(y, ServerReads(a));
            && z.s == (if a.found then y.s else y.s.(state := SBeginPuts, saved := []))
            && Says(z.down, CBeginPuts, if a.found then -1 else 0)
  {
    hide Inv, RequestOf, HostInt, ReadHostInt, Tokenise, Range, PathOk;
    Ranges();
    Alone(y);
    ReplyReads(CBeginPuts, 0);
    ReplyReads(CBeginPuts, -1);
  }

  lemma GetsAnswered(y: Sys, a: Answers)
    requires Inv(y) && Enabled(y, ServerReads(a)) && y.s.state == SLoggedIn && RequestOf(y.up[0].bytes) == Gets
    ensures var z := Apply(y, ServerReads(a));
            && One(z.down, CBeginGets)
            && if a.found && !a.opens then
                 && z.s == y.s.(state := SGets, fileSize := |a.file|, rest := a.file, pumping := true,
                                offered := y.s.offered + [a.file])
                 && (Sized(a.file) ==> ReadHostInt(z.down[0].bytes, 8) == |a.file|)
               else z.s == y.s && ReadHostInt(z.down[0].bytes, 8) == -1
  {
    hide Inv, RequestOf, HostInt, ReadHostInt, Tokenise, Range, PathOk;
    Ranges();
    Alone(y);
    SizeReads(-1);
    if Sized(a.file) { SizeReads(|a.file|); }
  }

  lemma PathSpells(y: Sys, parm: seq<byte>, opens: bool)
    requires PathOk(y.s.path, y.s.cds)
    ensures Path.Cd(y.s.path, parm, opens) == Path.Render(Home.ListAll(y.s.cds + [Path.CdCall(parm, opens)]))
  {
    hide Path.Cd, Path.CdAll, Home.ListAll, Path.Render;
    CdKeepsPath(y.s, parm, opens);
    Home.HistoryRefinesList(y.s.cds + [Path.CdCall(parm, opens)]);
  }

  /** A request is alone in the queues. */
  lemma Alone(y: Sys)
    requires Inv(y) && Alive(y.s) && y.s.state == SLoggedIn && y.up != []
    ensures One(y.up, SLoggedIn) && y.up[1..] == [] && y.down == [] && PathOk(y.s.path, y.s.cds)
    ensures RequestOf(y.up[0].bytes) != Unknown && WaitOf(RequestOf(y.up[0].bytes)) == y.c.state
  {
    hide RequestOf, Join, PathOk, Accounts, SourceOk, Uploads, Downloads, Stage, Users, WaitOf;
    var p: seq<Up>, t: seq<Up> :| InvAt(y, p, t);
    Unit(t);
    Requesting(y);
  }

  /** Dialogues: the first message chooses, an account is registered as it was asked for, a user is looked up
      under the name given and answered with the salt, and is logged in exactly with the digest stored, at
      the root and with no `cd` behind. */
  lemma ServerTalks(y: Sys, a: Answers)
    requires Inv(y) && Enabled(y, ServerReads(a)) && y.s.state in {SInit, SRegistering, SLogin1, SLogin2}
    requires !Apply(y, ServerReads(a)).s.crashed
    ensures var z := Apply(y, ServerReads(a));
            && z.c == y.c && z.up == y.up[1..] && y.down == []
            && match y.s.state
               case SInit =>
                 && y.c.state in {CRegistering, CLogin1} && z.down == []
                 && z.s == y.s.(state := if y.c.state == CRegistering then SRegistering else SLogin1)
               case SRegistering =>
                 && y.c.state == CRegistering && Says(z.down, CRegistering, a.registered)
                 && y.c.asked == y.s.accounts + [y.c.asked[|y.c.asked| - 1]]
                 && z.s == y.s.(state := SInit, accounts := y.c.asked)
               case SLogin1 =>
                 && y.c.state == CLogin1 && z.down == [Packet(CLogin1, CStr(a.salt))]
                 && z.s == y.s.(user := y.c.user, state := if CStr(a.salt) == [] then SInit else SLogin2)
               case _ =>
                 && y.c.state == CLogin2 && y.s.user == y.c.user
                 && Says(z.down, CLogin2, if y.up[0].bytes == CStr(a.secret) then 0 else -1)
                 && z.s ==
                    if y.up[0].bytes == CStr(a.secret) then y.s.(state := SLoggedIn, path := Ascii("/"), cds := [])
                    else y.s.(state := SInit)
  {
    hide Inv, HostInt, ReadHostInt, CStr, Range, Registration.Unpack;
    Spelled();
    Ranges();
    Talking(y);
    match y.s.state
    case SInit =>
    case SRegistering =>
      Protocol.ReadsAccount(y);
      ReplyReads(CRegistering, a.registered);
    case SLogin1 => Protocol.ReadsName(y);
    case SLogin2 =>
      Protocol.KnowsUser(y);
      ReplyReads(CLogin2, 0);
      ReplyReads(CLogin2, -1);
  }

  lemma Talking(y: Sys)
    requires Inv(y) && Alive(y.s) && y.s.state in {SInit, SRegistering, SLogin1, SLogin2} && y.up != []
    ensures y.down == [] && (y.s.state == SLogin2 ==> One(y.up, SLogin2))
    ensures y.s.state == SInit ==>
              || (y.c.state == CRegistering && y.up[0].bytes == ZERO)
              || (y.c.state == CLogin1 && y.up[0].bytes == ONE)
    ensures y.s.state == SRegistering ==>
              y.c.asked != [] && y.c.asked == y.s.accounts + [y.c.asked[|y.c.asked| - 1]]
  {
    hide RequestOf, Join, PathOk, ServerOk, SourceOk, Uploads, Downloads, Users, Accounts, Stage;
    var p: seq<Up>, t: seq<Up> :| InvAt(y, p, t);
    Unit(t);
    Opening(y);
    if y.s.state == SRegistering { PacketUnpacks(y.c.asked, y.s.accounts, t); }
  }

  lemma Opening(y: Sys)
    requires InvAt(y, [], y.up) && y.s.state in {SInit, SRegistering, SLogin1, SLogin2} && y.up != []
    ensures y.down == [] && (y.s.state == SRegistering ==> Registers(y.up))
    ensures y.s.state == SLogin2 ==> One(y.up, SLogin2)
    ensures y.s.state == SInit ==>
              || (y.c.state == CRegistering && y.up[0].bytes == ZERO)
              || (y.c.state == CLogin1 && y.up[0].bytes == ONE)
  {
    hide RequestOf, Join, PathOk, ServerOk, SourceOk, Uploads, Downloads, Users, Accounts;
    hide HostInt, ReadHostInt, DataFor;
  }

  /** Transfers: the size announced is the size of the file to come, what is stored are the bytes read, up to
      the last one announced, and the acknowledgement of a download ends it. */
  lemma ServerStores(y: Sys, a: Answers)
    requires Inv(y) && Enabled(y, ServerReads(a)) && y.s.state in {SBeginPuts, SPuts, SGets}
    ensures var z, m := Apply(y, ServerReads(a)), y.up[0].bytes;
            && z.c == y.c && z.up == y.up[1..] && y.down == []
            && match y.s.state
               case SBeginPuts =>
                 && y.c.state == CPuts && Says(z.down, CPuts, 0)
                 && z.s == y.s.(state := SPuts, fileSize := |y.c.source|)
               case SPuts =>
                 && z.down == []
                 && z.s == y.s.(state := z.s.state, fileSize := z.s.fileSize, saved := y.s.saved + m,
                                stored := z.s.stored)
                 && z.s.fileSize + |m| == y.s.fileSize
                 && (z.s.state == SLoggedIn <==> z.s.fileSize == 0) && z.s.state in {SPuts, SLoggedIn}
                 && z.s.stored == y.s.stored + if z.s.fileSize == 0 then [z.s.saved] else []
               case _ =>
                 && z.down == []
                 && z.s == y.s.(state := SLoggedIn, torn := y.s.pumping, pumping := false)
  {
    hide Inv, HostInt, ReadHostInt, Range, CStr;
    Ranges();
    Unit(y.s.stored);
    Storing(y);
    match y.s.state
    case SBeginPuts => ReplyReads(CPuts, 0);
    case SPuts =>
    case SGets => Protocol.AckIsNext(y);
  }

  lemma Storing(y: Sys)
    requires Inv(y) && Alive(y.s) && y.s.state in {SBeginPuts, SPuts, SGets} && y.up != []
    ensures y.down == []
    ensures y.s.state == SBeginPuts ==> y.c.state == CPuts && ReadHostInt(y.up[0].bytes, 8) == |y.c.source|
  {
    hide RequestOf, PathOk, ServerOk, Uploads, Downloads, Users, Accounts, Stage, DataFor, ReadHostInt, Transferable;
    var p: seq<Up>, t: seq<Up> :| InvAt(y, p, t);
    if p == [] {
      Unit(t);
      Announcing(y);
    }
  }

  lemma Announcing(y: Sys)
    requires InvAt(y, [], y.up) && y.s.state in {SBeginPuts, SPuts, SGets} && y.up != []
    ensures y.down == []
    ensures y.s.state == SBeginPuts ==> y.c.state == CPuts && ReadHostInt(y.up[0].bytes, 8) == |y.c.source|
  {
    hide RequestOf, Join, PathOk, ServerOk, Uploads, Downloads, Users, Accounts, HostInt, ReadHostInt, Transferable;
    NoTransferAlone(y);
    if y.s.state == SBeginPuts {
      FileSize(y.c.source);
      SizeReads(|y.c.source|);
    }
  }

  // ---- What the client does with a message ----

  /** A dialogue ends as the answer says; a salt is answered with the whole digest. */
  lemma ClientTalks(y: Sys, digest: seq<byte>)
    requires Inv(y) && y.down != [] && y.c.state in {CRegistering, CLogin1, CLogin2}
    ensures var z, m := Apply(y, ClientReads(digest)), y.down[0].bytes;
            && z.s == y.s && z.down == []
            && match y.c.state
               case CRegistering => z.c == y.c.(state := CInit) && z.up == []
               case CLogin1 =>
                 && z.c == y.c.(state := if m == [] then CInit else CLogin2)
                 && y.s.state == (if m == [] then SInit else SLogin2)
                 && z.up == if m == [] then [] else [Packet(SLogin2, digest)]
               case _ =>
                 && z.c == y.c.(state := if ReadHostInt(m, 4) == 0 then CLoggedIn else CInit) && z.up == []
                 && y.s.state == if ReadHostInt(m, 4) == 0 then SLoggedIn else SInit
  {
    hide Inv, HostInt, ReadHostInt;
    Hearing(y);
    Unit([Packet(SLogin2, digest)]);
  }

  lemma Hearing(y: Sys)
    requires Inv(y) && y.down != []
    ensures y.up == [] && (y.c.state !in {CGets, CBeginGets} ==> y.down[1..] == [])
    ensures y.c.state == CLogin2 ==> y.s.state == if ReadHostInt(y.down[0].bytes, 4) == 0 then SLoggedIn else SInit
    ensures y.c.state == CLogin1 ==> y.s.state == if y.down[0].bytes == [] then SInit else SLogin2
  {
    hide RequestOf, Join, PathOk, ServerOk, SourceOk, Uploads, Downloads, Users, Accounts;
    hide HostInt, ReadHostInt, DataFor;
    var p: seq<Up>, t: seq<Up> :| InvAt(y, p, t);
    Unit(t);
  }

  /** The answers to commands: an upload that is granted is announced with its size and sent, byte for byte, when
      the server says go; of a download the bytes are counted up to the size announced and acknowledged. */
  lemma ClientWorks(y: Sys, digest: seq<byte>)
    requires Inv(y) && y.down != [] && y.c.state !in {CRegistering, CLogin1, CLogin2}
    ensures var z, m := Apply(y, ClientReads(digest)), y.down[0].bytes;
            && z.s == y.s && z.down == y.down[1..] && y.up == []
            && match y.c.state
               case CBeginPuts =>
                 if ReadHostInt(m, 4) == 0 then
                   && z.c == y.c.(state := CPuts, fileSize := |y.c.source|)
                   && One(z.up, SBeginPuts) && (Sized(y.c.source) ==> ReadHostInt(z.up[0].bytes, 8) == |y.c.source|)
                 else z.c == y.c.(state := CLoggedIn) && z.up == []
               case CPuts =>
                 && z.c == y.c.(state := CLoggedIn, sent := y.c.sent + [y.c.source])
                 && DataFor(SPuts, z.up) && Join(Payloads(z.up)) == y.c.source
               case CBeginGets =>
                 && z.c == (if ReadHostInt(m, 8) < 0 then y.c.(state := CLoggedIn)
                            else y.c.(state := CGets, fileSize := ReadHostInt(m, 8), curSize := 0, saved := []))
                 && z.up == []
               case CGets =>
                 && z.c == y.c.(state := z.c.state, curSize := y.c.curSize + |m|, saved := y.c.saved + m,
                                fetched := z.c.fetched)
                 && if y.c.curSize + |m| == y.c.fileSize then
                      && z.c.state == CLoggedIn && z.c.fetched == y.c.fetched + [y.c.saved + m]
                      && One(z.up, SGets) && ReadHostInt(z.up[0].bytes, 4) == 0
                    else z.c.state == CGets && z.c.fetched == y.c.fetched && z.up == []
               case _ => y.c.state in {CPrint, CMkdir, CRemove, CCd} && z.c == y.c.(state := CLoggedIn) && z.up == []
  {
    hide Inv, HostInt, ReadHostInt, Join, Transferable;
    Hearing(y);
    HearingWork(y);
    AckReadsZero();
    match y.c.state
    case CBeginPuts => if Sized(y.c.source) { SizeReads(|y.c.source|); }
    case CPuts =>
      var out := Wrap(SPuts, Chunks(y.c.source));
      FileSize(y.c.source);
      ChunksCarry(y.c.source);
      Unit(out);
      assert Apply(y, ClientReads(digest)).up == out && Payloads(out) == Chunks(y.c.source);
    case _ =>
  }

  lemma HearingWork(y: Sys)
    requires Inv(y) && y.down != []
    ensures y.c.state !in {CInit, CLoggedIn}
    ensures y.c.state == CPuts ==> Transferable(y.c.source) && ReadHostInt(y.down[0].bytes, 4) == 0
  {
    hide RequestOf, Join, PathOk, ServerOk, Uploads, Downloads, Users, Accounts, HostInt, ReadHostInt, DataFor;
    hide Transferable;
    var p: seq<Up>, t: seq<Up> :| InvAt(y, p, t);
    Unit(t);
  }

  // ---- Whole dialogues ----

  ghost predicate Goes(y: Sys, e: Step, z: Sys) {
    Enabled(y, e) && z == Apply(y, e)
  }

  /** At the start nothing is on its way, and every account asked for has been registered. */
  lemma AtStart(y: Sys)
    requires Inv(y) && y.c.state == CInit
    ensures y.s.state == SInit && y.up == [] && y.down == [] && y.c.asked == y.s.accounts && !y.s.crashed
  {
    hide RequestOf, Join, PathOk, SourceOk, Uploads, Downloads, Users, HostInt, ReadHostInt, DataFor;
    var p: seq<Up>, t: seq<Up> :| InvAt(y, p, t);
    Unit(t);
  }

  lemma KeepsInv(y: Sys, e: Step, z: Sys)
    requires Inv(y) && Goes(y, e, z) && Supported(y, e)
    ensures Inv(z)
  {
    StepPreserves(y, e);
  }

  /** "0" and an account typed at the start: the server has registered that very account, in the fields it was
      typed in, and the user is told the result; or the insert statement was too long and the server is stopped. */
  lemma RegistrationEndToEnd(y0: Sys, t: Typed, y1: Sys, a: Answers, y2: Sys, b: Answers, y3: Sys)
    requires Inv(y0) && y0.c.state == CInit && t.line == Ascii("0") && Registration.Fits(t.account)
    requires Goes(y0, Key(t), y1) && Goes(y1, ServerReads(a), y2) && Goes(y2, ServerReads(b), y3)
    ensures y3.s.crashed <==>
            |"insert into UserInfo(UserName,Salt,PassWord) values('','','')"|
            + |CStr(t.account.name)| + |CStr(t.account.salt)| + |CStr(t.account.secret)| > 255
    ensures !y3.s.crashed ==>
              && y3.c.state == CRegistering && y3.s.state == SInit && y3.up == []
              && y3.s.accounts == y0.s.accounts + [t.account] && Says(y3.down, CRegistering, b.registered)
  {
    hide Inv, Says, CStr, Registration.Pack, Survives, ServerOnMessage, Keyboard, Legal, Registration.Fits;
    Spelled();
    AtStart(y0);
    KeyOpens(y0, t);
    KeepsInv(y0, Key(t), y1);
    HandlersNeed(y1, a);
    ServerTalks(y1, a);
    KeepsInv(y1, ServerReads(a), y2);
    HandlersNeed(y2, b);
    if !y3.s.crashed { ServerTalks(y2, b); }
  }

  /** From a salt on: both sides are logged in exactly with the digest that the database holds, the server
      at the root and with the name that the client was given; otherwise both start again. */
  lemma LoginStep(y0: Sys, d: seq<byte>, y1: Sys, a: Answers, y2: Sys, e: seq<byte>, y3: Sys)
    requires Inv(y0) && Alive(y0.s) && y0.c.state == CLogin1
    requires Goes(y0, ClientReads(d), y1) && y0.down[0].bytes != []
    requires Goes(y1, ServerReads(a), y2) && !y2.s.crashed && Goes(y2, ClientReads(e), y3)
    ensures y3.up == [] && y3.down == []
    ensures if d == CStr(a.secret) then
              && y3.c == y0.c.(state := CLoggedIn)
              && y3.s == y0.s.(state := SLoggedIn, path := Ascii("/"), cds := []) && y3.s.user == y0.c.user
            else y3.c == y0.c.(state := CInit) && y3.s == y0.s.(state := SInit)
  {
    hide Inv, CStr, Survives, ServerOnMessage, ClientOnMessage, Legal;
    ClientTalks(y0, d);
    KeepsInv(y0, ClientReads(d), y1);
    ServerTalks(y1, a);
    KeepsInv(y1, ServerReads(a), y2);
    ClientTalks(y2, e);
  }

  /** "1" and a name at the start: the client gets the salt that the database has for that name, and with
      none both start again. */
  lemma LoginBegins(y0: Sys, t: Typed, y1: Sys, a: Answers, y2: Sys, b: Answers, y3: Sys, d: seq<byte>, y4: Sys)
    requires Inv(y0) && y0.c.state == CInit && t.line == Ascii("1")
    requires Goes(y0, Key(t), y1) && Goes(y1, ServerReads(a), y2)
    requires Goes(y2, ServerReads(b), y3) && !y3.s.crashed && Goes(y3, ClientReads(d), y4)
    ensures y3.down == [Packet(CLogin1, CStr(b.salt))] && y3.s.user == t.account.name && y3.c.user == t.account.name
    ensures y3.c.state == CLogin1
    ensures CStr(b.salt) == [] ==> y4.c.state == CInit && y4.s.state == SInit && y4.up == [] && y4.down == []
    ensures CStr(b.salt) != [] ==> y4.c.state == CLogin2 && y4.s.state == SLogin2 && y4.up == [Packet(SLogin2, d)]
  {
    hide Inv, CStr, Survives, ServerOnMessage, ClientOnMessage, Keyboard, Legal;
    Spelled();
    AtStart(y0);
    KeyOpens(y0, t);
    KeepsInv(y0, Key(t), y1);
    HandlersNeed(y1, a);
    ServerTalks(y1, a);
    KeepsInv(y1, ServerReads(a), y2);
    ServerTalks(y2, b);
    KeepsInv(y2, ServerReads(b), y3);
    ClientTalks(y3, d);
  }
}
