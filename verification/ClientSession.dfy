/** `EchoClient::onMessage` and `TcpConnection::handleKeyboardInput`: the client's side. */
module ClientSession {
  import opened Bytes
  import opened Seqs
  import opened Tokens
  import opened Transfer
  import opened Session
  import Registration

  /** Removing spaces at both ends, a character at a time. */
  method TrimLine(line: seq<byte>) returns (s: seq<byte>)
    requires HasWord(line)
    ensures s == Trim(line) && Trimmed(s)
  {
    TrimKeepsWord(line);
    s := line;
    while s[|s| - 1] == SPACE
      invariant s != [] && TrimBack(s) == TrimBack(line)
      decreases |s|
    {
      s := s[..|s| - 1];
    }
    while s[0] == SPACE
      invariant s != [] && TrimFront(s) == Trim(line)
      decreases |s|
    {
      s := s[1..];
    }
  }

  /** The client's tokeniser has a fifth loop, to notice what follows the parameter. */
  method SplitLine(s: seq<byte>) returns (cmd: seq<byte>, parm: seq<byte>, start: nat)
    ensures Words(cmd, parm, start) == Tokenise(s)
  {
    start := SkipSpaces(s, 0);
    cmd, start := PushWord(s, start);
    start := SkipSpaces(s, start);
    parm, start := PushWord(s, start);
    start := SkipSpaces(s, start);
  }

  /** The loop that reads a file and sends it piece by piece. */
  method SendFile(file: seq<byte>) returns (out: seq<seq<byte>>)
    ensures out == Chunks(file)
  {
    out := [];
    var unread := file;
    var len := ReadLen(unread);
    while len != 0
      invariant len == ReadLen(unread)
      invariant out + Chunks(unread) == Chunks(file)
      decreases |unread|
    {
      Assoc(out, [CStr(unread[..len])], Chunks(unread[len..]));
      out := out + [CStr(unread[..len])];
      unread := unread[len..];
      len := ReadLen(unread);
    }
  }

  class Connection {
    var state: ClientState
    var fileSize: int
    var curSize: int
    var source: seq<byte>
    var saved: seq<byte>
    var user: seq<byte>
    ghost var sent: seq<seq<byte>>
    ghost var fetched: seq<seq<byte>>
    ghost var asked: seq<Registration.Account>

    ghost function Abs(): Client
      reads this
    {
      Client(state, fileSize, curSize, source, saved, user, sent, fetched, asked)
    }

    constructor ()
      ensures Abs() == Client(CInit, 0, 0, [], [], [], [], [], [])
    {
      state, fileSize, curSize, source, saved, user := CInit, 0, 0, [], [], [];
      sent, fetched, asked := [], [], [];
    }

    method HandleKeyboardInput(t: Typed) returns (out: seq<seq<byte>>)
      requires state == CLoggedIn ==> HasWord(t.line)
      modifies this
      ensures Abs() == Keyboard(old(Abs()), t).c
      ensures out == Payloads(Keyboard(old(Abs()), t).out)
    {
      hide Registration.Pack, Trim, Tokenise, Judge;
      out := [];
      if state == CInit {
        if t.line == ZERO {
          state := CRegistering;
          asked := asked + [t.account];
          out := [t.line, Registration.Pack(t.account)];
        } else if t.line == ONE {
          state := CLogin1;
          user := t.account.name;
          out := [t.line, t.account.name];
        }
      } else if state == CLoggedIn {
        out := HandleCommandLine(t);
      }
    }

    /** The line of a logged-in user: refused on the spot, or sent. */
    method HandleCommandLine(t: Typed) returns (out: seq<seq<byte>>)
      requires state == CLoggedIn && HasWord(t.line)
      modifies `state, `source
      ensures match Judge(Trim(t.line), t.present)
              case Refuse => state == old(state) && source == old(source) && out == []
              case Ask(wait) =>
                state == wait && source == (if wait == CBeginPuts then t.content else old(source))
                && out == [Trim(t.line)]
    {
      hide Trim, Tokenise;
      out := [];
      var line := TrimLine(t.line);
      if line == PWD || line == LS {
        state := CPrint;
        out := [line];
      } else if line == CLEAR {
      } else {
        var cmd, parm, start := SplitLine(line);
        if cmd == MKDIR {
          if parm == [] || start < |line| { return; }
          state := CMkdir;
        } else if cmd == REMOVE {
          if parm == [] || start < |line| { return; }
          state := CRemove;
        } else if cmd == CD {
          if start < |line| { return; }
          state := CCd;
        } else if cmd == PUTS {
          if parm == [] || start < |line| || !t.present { return; }
          source := t.content;
          state := CBeginPuts;
        } else if cmd == GETS {
          if parm == [] || start < |line| || t.present { return; }
          state := CBeginGets;
        } else {
          return;
        }
        out := [line];
      }
    }

    method StoreData(msg: seq<byte>) returns (out: seq<seq<byte>>)
      requires state == CGets
      modifies this
      ensures Abs() == ReceiveData(old(Abs()), msg).c
      ensures out == Payloads(ReceiveData(old(Abs()), msg).out)
    {
      hide Bytes.HostInt;
      out := [];
      curSize := curSize + |msg|;
      saved := saved + msg;
      if curSize == fileSize {
        state := CLoggedIn;
        fetched := fetched + [saved];
        out := [HostInt(0, 4)];
      }
    }

    /** Refused, or the size of the file is sent. */
    method AnswerToPuts(msg: seq<byte>) returns (out: seq<seq<byte>>)
      requires state == CBeginPuts
      modifies `state, `fileSize
      ensures if ReadHostInt(msg, 4) != 0 then state == CLoggedIn && fileSize == old(fileSize) && out == []
              else state == CPuts && fileSize == |source| && out == [HostInt(|source|, 8)]
    {
      hide Bytes.HostInt, Bytes.ReadHostInt;
      out := [];
      if ReadHostInt(msg, 4) != 0 {
        state := CLoggedIn;
      } else {
        fileSize := |source|;
        state := CPuts;
        out := [HostInt(|source|, 8)];
      }
    }

    /** The whole file is sent. */
    method GoAhead(msg: seq<byte>) returns (out: seq<seq<byte>>)
      requires state == CPuts
      modifies `state, `sent
      ensures if ReadHostInt(msg, 4) != 0 then state == CPuts && sent == old(sent) && out == []
              else state == CLoggedIn && sent == old(sent) + [source] && out == Chunks(source)
    {
      hide Bytes.ReadHostInt, Chunks;
      out := [];
      if ReadHostInt(msg, 4) == 0 {
        out := SendFile(source);
        state := CLoggedIn;
        sent := sent + [source];
      }
    }

    /** Refused, or the client prepares to receive as many bytes. */
    method AnswerToGets(msg: seq<byte>)
      requires state == CBeginGets
      modifies `state, `fileSize, `curSize, `saved
      ensures var size := ReadHostInt(msg, 8);
              if size < 0
              then state == CLoggedIn && fileSize == old(fileSize) && curSize == old(curSize) && saved == old(saved)
              else state == CGets && fileSize == size && curSize == 0 && saved == []
    {
      hide Bytes.ReadHostInt;
      if ReadHostInt(msg, 8) < 0 {
        state := CLoggedIn;
      } else {
        fileSize := ReadHostInt(msg, 8);
        curSize := 0;
        state := CGets;
        saved := [];
      }
    }

    method OnMessage(msg: seq<byte>, digest: seq<byte>) returns (out: seq<seq<byte>>)
      modifies this
      ensures Abs() == ClientOnMessage(old(Abs()), msg, digest).c
      ensures out == Payloads(ClientOnMessage(old(Abs()), msg, digest).out)
    {
      hide Bytes.HostInt, Bytes.ReadHostInt, Chunks, ReceiveData;
      out := [];
      if state == CPrint || state == CMkdir || state == CRemove || state == CCd {
        state := CLoggedIn;
      } else if state == CBeginPuts || state == CPuts || state == CBeginGets || state == CGets {
        out := HandleTransfer(msg, digest);
      } else {
        out := HandleDialogue(msg, digest);
      }
    }

    /** The messages of uploads and downloads. */
    method HandleTransfer(msg: seq<byte>, digest: seq<byte>) returns (out: seq<seq<byte>>)
      requires state in {CBeginPuts, CPuts, CBeginGets, CGets}
      modifies this
      ensures Abs() == ClientOnMessage(old(Abs()), msg, digest).c
      ensures out == Payloads(ClientOnMessage(old(Abs()), msg, digest).out)
    {
      hide Bytes.HostInt, Bytes.ReadHostInt, Chunks, ReceiveData;
      out := [];
      if state == CBeginPuts {
        out := AnswerToPuts(msg);
      } else if state == CPuts {
        out := GoAhead(msg);
      } else if state == CBeginGets {
        AnswerToGets(msg);
      } else {
        out := StoreData(msg);
      }
    }

    /** The answers during registration and login. */
    method HandleDialogue(msg: seq<byte>, digest: seq<byte>) returns (out: seq<seq<byte>>)
      requires state in {CInit, CRegistering, CLogin1, CLogin2, CLoggedIn}
      modifies this
      ensures Abs() == ClientOnMessage(old(Abs()), msg, digest).c
      ensures out == Payloads(ClientOnMessage(old(Abs()), msg, digest).out)
    {
      hide Bytes.HostInt, Bytes.ReadHostInt, Chunks, ReceiveData;
      out := [];
      if state == CRegistering {
        state := CInit;
      } else if state == CLogin1 {
        if |msg| == 0 {
          state := CInit;
        } else {
          state := CLogin2;
          out := [digest];
        }
      } else if state == CLogin2 {
        if ReadHostInt(msg, 4) == 0 { state := CLoggedIn; } else { state := CInit; }
      }
    }
  }
}
