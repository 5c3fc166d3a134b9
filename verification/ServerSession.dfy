/** `EchoServer::onMessage`, `handleRegister` and `TcpConnection::handleGets`: the server's side of
    one session, updating the fields kept in its connection object. */
module ServerSession {
  import opened Bytes
  import opened Tokens
  import opened Transfer
  import opened Session
  import Listing
  import Path
  import Registration

  /** The server's tokeniser: four of those loops. */
  method SplitCommand(msg: seq<byte>) returns (cmd: seq<byte>, parm: seq<byte>)
    ensures cmd == Tokenise(msg).cmd && parm == Tokenise(msg).parm
  {
    var start := SkipSpaces(msg, 0);
    cmd, start := PushWord(msg, start);
    start := SkipSpaces(msg, start);
    parm, start := PushWord(msg, start);
  }

  /** `cd ..` below the root: drop the last slash, then characters up to the slash before it. */
  method GoUp(path: seq<byte>) returns (p: seq<byte>)
    requires Path.WellFormed(path) && path != Path.ROOT
    ensures p == Path.Cd(path, Path.DOTDOT, true)
  {
    p := path[..|path| - 1];
    while p[|p| - 1] != Path.SLASH
      invariant p != [] && p[0] == Path.SLASH
      invariant Path.PopToSlash(p) == Path.PopToSlash(path[..|path| - 1])
      decreases |p|
    {
      p := p[..|p| - 1];
    }
  }

  /** `msg.substr(pos, len)`, which throws if its position lies beyond the end. */
  method SubStr(msg: seq<byte>, pos: nat, len: nat) returns (thrown: bool, s: seq<byte>)
    ensures thrown <==> pos > |msg|
    ensures !thrown ==> s == Registration.Substr(msg, pos, len)
  {
    thrown := pos > |msg|;
    s := if thrown then [] else if len <= |msg| - pos then msg[pos..pos + len] else msg[pos..];
  }

  /** The three lengths and the three fields of a registration message. */
  method ReadFields(msg: seq<byte>) returns (thrown: bool, username: seq<byte>, salt: seq<byte>, secret: seq<byte>)
    ensures Registration.Unpack(msg) ==
            if thrown then Registration.OutOfRange
            else Registration.Unpacked(Registration.Account(username, salt, secret))
  {
    hide Bytes.ReadHostInt, Registration.Substr, Registration.Drop;
    var unameLen := Registration.SizeT(ReadHostInt(msg, 4));
    var saltLen := Registration.SizeT(ReadHostInt(Registration.Drop(msg, 4), 4));
    var secretLen := Registration.SizeT(ReadHostInt(Registration.Drop(msg, 8), 4));
    salt, secret := [], [];
    thrown, username := SubStr(msg, 12, unameLen);
    if thrown { return; }
    thrown, salt := SubStr(msg, Registration.SizeT(12 + unameLen), saltLen);
    if thrown { return; }
    thrown, secret := SubStr(msg, Registration.SizeT(12 + unameLen + saltLen), secretLen);
  }

  class Connection {
    var state: ServerState
    var username: seq<byte>
    var relativePath: seq<byte>
    var fileSize: int
    var saved: seq<byte>
    var rest: seq<byte>
    var pumping: bool
    ghost var stored: seq<seq<byte>>
    ghost var offered: seq<seq<byte>>
    ghost var accounts: seq<Registration.Account>
    ghost var cds: seq<Path.CdCall>
    ghost var torn: bool
    ghost var crashed: bool

    ghost function Abs(): Server
      reads this
    {
      Server(state, username, relativePath, fileSize, saved, rest, pumping,
             stored, offered, accounts, cds, torn, crashed)
    }

    constructor ()
      ensures Abs() == Server(SInit, [], [], 0, [], [], false, [], [], [], [], false, false)
    {
      state, username, relativePath, fileSize, saved, rest, pumping := SInit, [], [], 0, [], [], false;
      stored, offered, accounts, cds, torn, crashed := [], [], [], [], false, false;
    }

    method OnMessage(msg: seq<byte>, a: Answers) returns (out: seq<seq<byte>>)
      requires state == SLoggedIn ==> Path.WellFormed(relativePath)
      requires Legal(a)
      modifies this
      ensures Abs() == ServerOnMessage(old(Abs()), msg, a).s
      ensures out == Payloads(ServerOnMessage(old(Abs()), msg, a).out)
    {
      hide Bytes.HostInt, Bytes.ReadHostInt, Bytes.CStr, Serve, TakeData, Registration.Unpack, RegisterFits, QueryFits;
      if state == SLoggedIn {
        out := HandleCommand(msg, a);
      } else if state == SBeginPuts {
        out := AwaitFile(msg);
      } else if state == SPuts {
        StoreData(msg);
        out := [];
      } else if state == SGets {
        EndGets(msg);
        out := [];
      } else {
        out := HandleDialogue(msg, a);
      }
    }

    /** Registration and login. */
    method HandleDialogue(msg: seq<byte>, a: Answers) returns (out: seq<seq<byte>>)
      requires state in {SInit, SRegistering, SLogin1, SLogin2} && Legal(a)
      modifies this
      ensures Abs() == ServerOnMessage(old(Abs()), msg, a).s
      ensures out == Payloads(ServerOnMessage(old(Abs()), msg, a).out)
    {
      hide Bytes.HostInt, Bytes.ReadHostInt, Bytes.CStr, Serve, TakeData, Registration.Unpack, RegisterFits, QueryFits;
      out := [];
      if state == SInit {
        if msg == ZERO {
          state := SRegistering;
        } else if msg == ONE {
          state := SLogin1;
        }
      } else if state == SRegistering {
        state := SInit;
        out := HandleRegister(msg, a);
      } else if state == SLogin1 {
        out := LookUpSalt(msg, a);
      } else {
        out := CheckSecret(msg, a);
      }
    }

    /** The size of an upload. */
    method AwaitFile(msg: seq<byte>) returns (out: seq<seq<byte>>)
      modifies `state, `fileSize
      ensures state == SPuts && fileSize == ReadHostInt(msg, 8) && out == [HostInt(0, 4)]
    {
      hide Bytes.HostInt, Bytes.ReadHostInt;
      fileSize := ReadHostInt(msg, 8);
      state := SPuts;
      out := [HostInt(0, 4)];
    }

    /** The acknowledgement of a download. */
    method EndGets(msg: seq<byte>)
      modifies `state, `torn, `pumping
      ensures if ReadHostInt(msg, 4) != 0
              then state == old(state) && torn == old(torn) && pumping == old(pumping)
              else state == SLoggedIn && torn == (old(torn) || old(pumping)) && !pumping
    {
      hide Bytes.ReadHostInt;
      if ReadHostInt(msg, 4) == 0 {
        torn := torn || pumping;
        pumping := false;
        state := SLoggedIn;
      }
    }

    /** The user name: the answer is the salt, or nothing for an unknown user. */
    method LookUpSalt(msg: seq<byte>, a: Answers) returns (out: seq<seq<byte>>)
      requires state == SLogin1 && Legal(a)
      modifies this
      ensures Abs() == ServerOnMessage(old(Abs()), msg, a).s
      ensures out == Payloads(ServerOnMessage(old(Abs()), msg, a).out)
    {
      hide Bytes.CStr;
      out := [];
      username := msg;
      if !QueryFits(SALT_QUERY, msg, a.salt, SALT_BUFFER) {
        crashed := true;
        return;
      }
      var salt := CStr(a.salt);
      if |salt| == 0 { state := SInit; } else { state := SLogin2; }
      out := [salt];
    }

    /** The digest of the password, compared with the one stored. */
    method CheckSecret(msg: seq<byte>, a: Answers) returns (out: seq<seq<byte>>)
      requires state == SLogin2 && Legal(a)
      modifies this
      ensures Abs() == ServerOnMessage(old(Abs()), msg, a).s
      ensures out == Payloads(ServerOnMessage(old(Abs()), msg, a).out)
    {
      hide Bytes.CStr, Bytes.HostInt;
      if !QueryFits(SECRET_QUERY, username, a.secret, SECRET_BUFFER) {
        crashed := true;
        return [];
      }
      var ret := 0;
      if msg == CStr(a.secret) {
        state := SLoggedIn;
        relativePath := Path.ROOT;
        cds := [];
      } else {
        ret := -1;
        state := SInit;
      }
      out := [HostInt(ret, 4)];
    }

    method StoreData(msg: seq<byte>)
      requires state == SPuts
      modifies this
      ensures Abs() == TakeData(old(Abs()), msg).s && TakeData(old(Abs()), msg).out == []
    {
      fileSize := fileSize - |msg|;
      saved := saved + msg;
      if fileSize == 0 {
        state := SLoggedIn;
        stored := stored + [saved];
      }
    }

    /** Registers what is unpacked, if the insert statement fits the array it is printed into. */
    method HandleRegister(msg: seq<byte>, a: Answers) returns (out: seq<seq<byte>>)
      requires Legal(a)
      modifies `accounts, `crashed
      ensures match Registration.Unpack(msg)
              case OutOfRange => crashed && accounts == old(accounts) && out == []
              case Unpacked(account) =>
                if RegisterFits(account) then
                  crashed == old(crashed) && accounts == old(accounts) + [account] && out == [HostInt(a.registered, 4)]
                else crashed && accounts == old(accounts) && out == []
    {
      hide Registration.Unpack, Bytes.HostInt, Bytes.CStr;
      var thrown, username, salt, secret := ReadFields(msg);
      if thrown || INSERT_TEXT + |CStr(username)| + |CStr(salt)| + |CStr(secret)| >= SQL_BUFFER {
        crashed := true;
        return [];
      }
      accounts := accounts + [Registration.Account(username, salt, secret)];
      out := [HostInt(a.registered, 4)];
    }

    method ChangeDirectory(parm: seq<byte>, opens: bool) returns (ret: int)
      requires Path.WellFormed(relativePath)
      modifies `relativePath
      ensures relativePath == Path.Cd(old(relativePath), parm, opens)
      ensures ret == if parm != [] && parm != Path.DOT && parm != Path.DOTDOT && !opens then -1 else 0
    {
      ret := 0;
      if parm == [] {
        relativePath := Path.ROOT;
      } else if parm == Path.DOT {
      } else if parm == Path.DOTDOT {
        if relativePath != Path.ROOT {
          relativePath := GoUp(relativePath);
        }
      } else {
        ret := if opens then 0 else -1;
        if ret == 0 {
          relativePath := relativePath + parm;
          relativePath := relativePath + Path.ROOT;
        }
      }
    }

    method HandleCd(parm: seq<byte>, opens: bool) returns (out: seq<seq<byte>>)
      requires Path.WellFormed(relativePath)
      modifies `relativePath, `cds
      ensures relativePath == Path.Cd(old(relativePath), parm, opens)
      ensures cds == old(cds) + [Path.CdCall(parm, opens)]
      ensures out == [HostInt(if parm != [] && parm != Path.DOT && parm != Path.DOTDOT && !opens then -1 else 0, 4)]
    {
      hide Bytes.HostInt, Path.Cd;
      var ret := ChangeDirectory(parm, opens);
      cds := cds + [Path.CdCall(parm, opens)];
      out := [HostInt(ret, 4)];
    }

    method HandleLs(a: Answers) returns (out: seq<seq<byte>>)
      modifies `crashed
      ensures match Listing.Ls(Where(old(Abs())), a.dir)
              case Stops => crashed && out == []
              case Text(text) => crashed == old(crashed) && out == [text]
    {
      hide Bytes.CStr, Listing.Ls;
      var listing := Listing.MyLs(CStr(WORK_DIR + username + relativePath), a.dir);
      match listing
      case Stops =>
        crashed := true;
        out := [];
      case Text(text) => out := [text];
    }

    method HandleCommand(msg: seq<byte>, a: Answers) returns (out: seq<seq<byte>>)
      requires state == SLoggedIn && Path.WellFormed(relativePath) && Legal(a)
      modifies this
      ensures Abs() == Serve(old(Abs()), msg, a).s
      ensures out == Payloads(Serve(old(Abs()), msg, a).out)
    {
      hide Bytes.HostInt, Tokenise, Path.Cd, Listing.Ls, Where;
      if msg == PWD {
        out := [relativePath];
      } else if msg == LS {
        out := HandleLs(a);
      } else {
        out := HandleOperand(msg, a);
      }
    }

    /** The commands with an operand. */
    method HandleOperand(msg: seq<byte>, a: Answers) returns (out: seq<seq<byte>>)
      requires state == SLoggedIn && Path.WellFormed(relativePath) && Legal(a) && msg != PWD && msg != LS
      modifies this
      ensures Abs() == Serve(old(Abs()), msg, a).s
      ensures out == Payloads(Serve(old(Abs()), msg, a).out)
    {
      hide Bytes.HostInt, Tokenise, Path.Cd, Listing.Ls, Where;
      var cmd, parm := SplitCommand(msg);
      if cmd == PUTS || cmd == GETS {
        out := HandleTransfer(msg, cmd, a);
      } else if cmd == MKDIR {
        out := [HostInt(a.made, 4)];
      } else if cmd == REMOVE {
        out := [HostInt(a.removed, 4)];
      } else if cmd == CD {
        out := HandleCd(parm, a.opens);
      } else {
        out := [];
      }
    }

    method HandleTransfer(msg: seq<byte>, cmd: seq<byte>, a: Answers) returns (out: seq<seq<byte>>)
      requires state == SLoggedIn && Path.WellFormed(relativePath) && Legal(a) && msg != PWD && msg != LS
      requires cmd == Tokenise(msg).cmd && (cmd == PUTS || cmd == GETS)
      modifies this
      ensures Abs() == Serve(old(Abs()), msg, a).s
      ensures out == Payloads(Serve(old(Abs()), msg, a).out)
    {
      hide Bytes.HostInt, Tokenise, Path.Cd, Listing.Ls, Where;
      if cmd == PUTS {
        var ret := BeginPuts(a);
        out := [HostInt(ret, 4)];
      } else {
        var ret := BeginGets(a);
        out := [HostInt(ret, 8)];
      }
    }

    /** `puts`: only for a name that does not exist yet. */
    method BeginPuts(a: Answers) returns (ret: int)
      modifies `state, `saved
      ensures ret == if a.found then -1 else 0
      ensures state == if a.found then old(state) else SBeginPuts
      ensures saved == if a.found then old(saved) else []
    {
      ret := if !a.found then 0 else -1;
      if ret == 0 {
        state := SBeginPuts;
        saved := [];
      }
    }

    /** `gets`: only for a name that exists and is no directory; the result is the size. */
    method BeginGets(a: Answers) returns (ret: int)
      modifies `state, `fileSize, `rest, `pumping, `offered
      ensures if a.opens || !a.found
              then ret == -1 && state == old(state) && fileSize == old(fileSize) && rest == old(rest)
                   && pumping == old(pumping) && offered == old(offered)
              else ret == fileSize == |a.file| && state == SGets && rest == a.file && pumping
                   && offered == old(offered) + [a.file]
    {
      ret := if !a.opens && a.found then 0 else -1;
      if ret == 0 {
        fileSize := |a.file|;
        ret := |a.file|;
        state := SGets;
        rest := a.file;
        pumping := true;
        offered := offered + [a.file];
      }
    }

    /** One run of the callback on the event descriptor of a download. */
    method HandleGets() returns (out: seq<seq<byte>>)
      modifies this
      ensures Abs() == Pump(old(Abs())).s
      ensures out == Payloads(Pump(old(Abs())).out)
    {
      hide Bytes.CStr;
      var n := ReadLen(rest);
      var buf := rest[..n];
      rest := rest[n..];
      if fileSize == 0 {
        pumping := false;
        return [];
      }
      out := [CStr(buf)];
      fileSize := fileSize - n;
    }
  }
}
