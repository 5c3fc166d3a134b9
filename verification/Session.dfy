/** The two session state machines as functions: what one keyboard line or one message does. */
module Session {
  import opened Bytes
  import opened Tokens
  import opened Transfer
  import Listing
  import Path
  import Registration

  datatype ClientState =
    | CInit | CRegistering | CLogin1 | CLogin2 | CLoggedIn
    | CPrint | CMkdir | CRemove | CCd | CBeginPuts | CPuts | CBeginGets | CGets

  datatype ServerState =
    | SInit | SRegistering | SLogin1 | SLogin2 | SLoggedIn | SBeginPuts | SPuts | SGets

  /** A message in flight. Only `bytes` travels; `want` records the state in which the sender means
      the other side to read it, and no receiver looks at it. */
  datatype Packet<W> = Packet(want: W, bytes: seq<byte>)
  type Up = Packet<ServerState>
  type Down = Packet<ClientState>

  function Payloads<W>(ps: seq<Packet<W>>): (ms: seq<seq<byte>>)
    ensures |ms| == |ps| && forall i :: 0 <= i < |ps| ==> ms[i] == ps[i].bytes
  {
    seq(|ps|, i requires 0 <= i < |ps| => ps[i].bytes)
  }

  function Wrap<W>(want: W, ms: seq<seq<byte>>): (ps: seq<Packet<W>>)
    ensures |ps| == |ms| && forall i :: 0 <= i < |ms| ==> ps[i] == Packet(want, ms[i])
  {
    seq(|ms|, i requires 0 <= i < |ms| => Packet(want, ms[i]))
  }

  // The words of the protocol, in ASCII.
  const ZERO: seq<byte> := [48]
  const ONE: seq<byte> := [49]
  const PWD: seq<byte> := [112, 119, 100]
  const LS: seq<byte> := [108, 115]
  const CLEAR: seq<byte> := [99, 108, 101, 97, 114]
  const MKDIR: seq<byte> := [109, 107, 100, 105, 114]
  const REMOVE: seq<byte> := [114, 101, 109, 111, 118, 101]
  const CD: seq<byte> := [99, 100]
  const PUTS: seq<byte> := [112, 117, 116, 115]
  const GETS: seq<byte> := [103, 101, 116, 115]

  datatype Request = Pwd | Ls | Mkdir | Remove | Cd | Puts | Gets | Unknown

  function CommandOf(word: seq<byte>): Request {
    if word == MKDIR then Mkdir
    else if word == REMOVE then Remove
    else if word == CD then Cd
    else if word == PUTS then Puts
    else if word == GETS then Gets
    else Unknown
  }

  // ---- Client ----

  /** `user` is the name given at login, `source` the content of the local file named by a `puts`, `saved`
      what a `gets` has written so far; `sent` and `fetched` list the files whose transfer the client has
      finished, `asked` the accounts it has asked the server to register. */
  datatype Client = Client(
    state: ClientState, fileSize: int, curSize: int, source: seq<byte>, saved: seq<byte>, user: seq<byte>,
    sent: seq<seq<byte>>, fetched: seq<seq<byte>>, asked: seq<Registration.Account>)

  /** Everything a keyboard event reads: the line, the account fields asked for at the prompts,
      whether the file named exists locally, and its content. */
  datatype Typed = Typed(line: seq<byte>, account: Registration.Account, present: bool, content: seq<byte>)

  datatype ClientTurn = ClientTurn(c: Client, out: seq<Up>)

  datatype Verdict = Refuse | Ask(wait: ClientState)

  /** What the client makes of a trimmed line: refuse it locally, or send it and wait. */
  function Judge(line: seq<byte>, present: bool): (v: Verdict) {
    if line == PWD || line == LS then Ask(CPrint)
    else if line == CLEAR then Refuse
    else
      var w := Tokenise(line);
      var many := w.next < |line|;
      match CommandOf(w.cmd)
      case Mkdir => if w.parm == [] || many then Refuse else Ask(CMkdir)
      case Remove => if w.parm == [] || many then Refuse else Ask(CRemove)
      case Cd => if many then Refuse else Ask(CCd)
      case Puts => if w.parm == [] || many || !present then Refuse else Ask(CBeginPuts)
      case Gets => if w.parm == [] || many || present then Refuse else Ask(CBeginGets)
      case _ => Refuse
  }

  /** Trimming an empty or blank line is undefined in the source, hence the precondition. */
  function Keyboard(c: Client, t: Typed): (r: ClientTurn)
    requires c.state == CLoggedIn ==> HasWord(t.line)
  {
    match c.state
    case CInit =>
      if t.line == ZERO then
        ClientTurn(c.(state := CRegistering, asked := c.asked + [t.account]),
          [Packet(SInit, ZERO), Packet(SRegistering, Registration.Pack(t.account))])
      else if t.line == ONE then
        ClientTurn(c.(state := CLogin1, user := t.account.name),
          [Packet(SInit, ONE), Packet(SLogin1, t.account.name)])
      else ClientTurn(c, [])
    case CLoggedIn =>
      var line := Trim(t.line);
      (match Judge(line, t.present)
       case Refuse => ClientTurn(c, [])
       case Ask(wait) =>
         ClientTurn(c.(state := wait, source := if wait == CBeginPuts then t.content else c.source),
           [Packet(SLoggedIn, line)]))
    case _ => ClientTurn(c, [])
  }

  /** One data message of a download. */
  function ReceiveData(c: Client, msg: seq<byte>): (r: ClientTurn) {
    var d := c.(curSize := c.curSize + |msg|, saved := c.saved + msg);
    if d.curSize != d.fileSize then ClientTurn(d, [])
    else ClientTurn(d.(state := CLoggedIn, fetched := d.fetched + [d.saved]), [Packet(SGets, HostInt(0, 4))])
  }

  /** `digest` is what `crypt` makes of the password typed, without its first 12 characters. */
  function ClientOnMessage(c: Client, msg: seq<byte>, digest: seq<byte>): (r: ClientTurn) {
    match c.state
    case CRegistering => ClientTurn(c.(state := CInit), [])
    case CLogin1 =>
      if |msg| == 0 then ClientTurn(c.(state := CInit), [])
      else ClientTurn(c.(state := CLogin2), [Packet(SLogin2, digest)])
    case CLogin2 =>
      ClientTurn(c.(state := if ReadHostInt(msg, 4) == 0 then CLoggedIn else CInit), [])
    case CPrint => ClientTurn(c.(state := CLoggedIn), [])
    case CMkdir => ClientTurn(c.(state := CLoggedIn), [])
    case CRemove => ClientTurn(c.(state := CLoggedIn), [])
    case CCd => ClientTurn(c.(state := CLoggedIn), [])
    case CBeginPuts =>
      if ReadHostInt(msg, 4) != 0 then ClientTurn(c.(state := CLoggedIn), [])
      else ClientTurn(c.(state := CPuts, fileSize := |c.source|), [Packet(SBeginPuts, HostInt(|c.source|, 8))])
    case CPuts =>
      if ReadHostInt(msg, 4) != 0 then ClientTurn(c, [])
      else ClientTurn(c.(state := CLoggedIn, sent := c.sent + [c.source]), Wrap(SPuts, Chunks(c.source)))
    case CBeginGets =>
      var size := ReadHostInt(msg, 8);
      if size < 0 then ClientTurn(c.(state := CLoggedIn), [])
      else ClientTurn(c.(state := CGets, fileSize := size, curSize := 0, saved := []), [])
    case CGets => ReceiveData(c, msg)
    case _ => ClientTurn(c, [])
  }

  // ---- Server ----

  /** `saved` is what a `puts` has stored so far, `rest` the unread part of the file a `gets` sends,
      `pumping` whether `gets_channel_` is registered. `stored` and `offered` list the uploads
      completed and the downloads begun, `accounts` the registrations unpacked, `cds` the `cd` commands
      of the current login. `torn` records that the channel object was destroyed while still registered,
      where an assertion stops the process; `crashed` that an exception was thrown that nothing catches, a
      null directory was read, or a text overran its array. Nothing is said about the other fields after
      either; the server takes no further step. */
  datatype Server = Server(
    state: ServerState, user: seq<byte>, path: seq<byte>, fileSize: int,
    saved: seq<byte>, rest: seq<byte>, pumping: bool,
    stored: seq<seq<byte>>, offered: seq<seq<byte>>, accounts: seq<Registration.Account>,
    cds: seq<Path.CdCall>, torn: bool, crashed: bool)

  /** What the database and the file system answer while one message is handled. */
  datatype Answers = Answers(
    registered: int, salt: seq<byte>, secret: seq<byte>, dir: Listing.Directory,
    made: int, removed: int, opens: bool, found: bool, file: seq<byte>)

  predicate Alive(s: Server) {
    !s.torn && !s.crashed
  }

  // The arrays that texts are printed and copied into, and the lengths of the fixed parts of the queries.
  const SQL_BUFFER: nat := 256
  const SALT_BUFFER: nat := 32
  const SECRET_BUFFER: nat := 128
  const INSERT_TEXT: nat := 61
  const SALT_QUERY: nat := 43
  const SECRET_QUERY: nat := 47

  // "/home/yu/my_project/deploy/home/", in ASCII.
  const WORK_DIR: seq<byte> :=
    [47, 104, 111, 109, 101, 47, 121, 117, 47, 109, 121, 95, 112, 114, 111, 106, 101, 99, 116, 47, 100, 101, 112,
     108, 111, 121, 47, 104, 111, 109, 101, 47]

  /** The insert statement fits its array. */
  predicate RegisterFits(a: Registration.Account) {
    INSERT_TEXT + |CStr(a.name)| + |CStr(a.salt)| + |CStr(a.secret)| < SQL_BUFFER
  }

  /** A query about a user fits its array, and so does its result. */
  predicate QueryFits(text: nat, user: seq<byte>, result: seq<byte>, size: nat) {
    text + |CStr(user)| < SQL_BUFFER && |CStr(result)| < size
  }

  /** The directory that `ls` lists. */
  function Where(s: Server): seq<byte> {
    CStr(WORK_DIR + s.user + s.path)
  }

  /** What the handler of a message needs so that it neither throws nor leaves its arrays. */
  predicate Survives(s: Server, msg: seq<byte>, a: Answers) {
    match s.state
    case SRegistering =>
      var u := Registration.Unpack(msg);
      u.Unpacked? && RegisterFits(u.account)
    case SLogin1 => QueryFits(SALT_QUERY, msg, a.salt, SALT_BUFFER)
    case SLogin2 => QueryFits(SECRET_QUERY, s.user, a.secret, SECRET_BUFFER)
    case SLoggedIn => RequestOf(msg) == Ls ==> Listing.Ls(Where(s), a.dir).Text?
    case _ => true
  }

  datatype ServerTurn = ServerTurn(s: Server, out: seq<Down>)

  /** How the logged-in server reads a message. */
  function RequestOf(msg: seq<byte>): Request {
    if msg == PWD then Pwd else if msg == LS then Ls else CommandOf(Tokenise(msg).cmd)
  }

  function ReturnInt(want: ClientState, v: int): (d: Down)
    requires -Range(4) <= v
  {
    Packet(want, HostInt(v, 4))
  }

  ghost predicate Legal(a: Answers) {
    && -Range(4) <= 2 * a.registered < Range(4)
    && -Range(4) <= 2 * a.made < Range(4)
    && -Range(4) <= 2 * a.removed < Range(4)
  }

  /** One command of a logged-in user. */
  function Serve(s: Server, msg: seq<byte>, a: Answers): (r: ServerTurn)
    requires Path.WellFormed(s.path) && Legal(a)
  {
    var parm := Tokenise(msg).parm;
    match RequestOf(msg)
    case Pwd => ServerTurn(s, [Packet(CPrint, s.path)])
    case Ls =>
      (match Listing.Ls(Where(s), a.dir)
       case Stops => ServerTurn(s.(crashed := true), [])
       case Text(text) => ServerTurn(s, [Packet(CPrint, text)]))
    case Mkdir => ServerTurn(s, [ReturnInt(CMkdir, a.made)])
    case Remove => ServerTurn(s, [ReturnInt(CRemove, a.removed)])
    case Cd =>
      var named := parm != [] && parm != Path.DOT && parm != Path.DOTDOT;
      ServerTurn(s.(path := Path.Cd(s.path, parm, a.opens), cds := s.cds + [Path.CdCall(parm, a.opens)]),
        [ReturnInt(CCd, if named && !a.opens then -1 else 0)])
    case Puts =>
      if a.found then ServerTurn(s, [ReturnInt(CBeginPuts, -1)])
      else ServerTurn(s.(state := SBeginPuts, saved := []), [ReturnInt(CBeginPuts, 0)])
    case Gets =>
      if a.opens || !a.found then ServerTurn(s, [Packet(CBeginGets, HostInt(-1, 8))])
      else ServerTurn(
        s.(state := SGets, fileSize := |a.file|, rest := a.file, pumping := true, offered := s.offered + [a.file]),
        [Packet(CBeginGets, HostInt(|a.file|, 8))])
    case Unknown => ServerTurn(s, [])
  }

  /** One data message of an upload. */
  function TakeData(s: Server, msg: seq<byte>): (r: ServerTurn) {
    var left := s.fileSize - |msg|;
    var t := s.(fileSize := left, saved := s.saved + msg);
    if left == 0 then ServerTurn(t.(state := SLoggedIn, stored := t.stored + [t.saved]), [])
    else ServerTurn(t, [])
  }

  function ServerOnMessage(s: Server, msg: seq<byte>, a: Answers): (r: ServerTurn)
    requires s.state == SLoggedIn ==> Path.WellFormed(s.path)
    requires Legal(a)
  {
    match s.state
    case SInit =>
      ServerTurn(s.(state := if msg == ZERO then SRegistering else if msg == ONE then SLogin1 else SInit), [])
    case SRegistering =>
      (match Registration.Unpack(msg)
       case OutOfRange => ServerTurn(s.(state := SInit, crashed := true), [])
       case Unpacked(account) =>
         if !RegisterFits(account) then ServerTurn(s.(state := SInit, crashed := true), [])
         else ServerTurn(s.(state := SInit, accounts := s.accounts + [account]),
                [ReturnInt(CRegistering, a.registered)]))
    case SLogin1 =>
      var t := s.(user := msg);
      var salt := CStr(a.salt);
      if !QueryFits(SALT_QUERY, msg, a.salt, SALT_BUFFER) then ServerTurn(t.(crashed := true), [])
      else ServerTurn(t.(state := if |salt| == 0 then SInit else SLogin2), [Packet(CLogin1, salt)])
    case SLogin2 =>
      if !QueryFits(SECRET_QUERY, s.user, a.secret, SECRET_BUFFER) then ServerTurn(s.(crashed := true), [])
      else if msg == CStr(a.secret) then
        ServerTurn(s.(state := SLoggedIn, path := Path.ROOT, cds := []), [ReturnInt(CLogin2, 0)])
      else ServerTurn(s.(state := SInit), [ReturnInt(CLogin2, -1)])
    case SLoggedIn => Serve(s, msg, a)
    case SBeginPuts =>
      ServerTurn(s.(state := SPuts, fileSize := ReadHostInt(msg, 8)), [ReturnInt(CPuts, 0)])
    case SPuts => TakeData(s, msg)
    case SGets =>
      if ReadHostInt(msg, 4) != 0 then ServerTurn(s, [])
      else ServerTurn(s.(state := SLoggedIn, torn := s.torn || s.pumping, pumping := false), [])
  }

  /** `handleGets`, run while the always readable event descriptor is registered. */
  function Pump(s: Server): (r: ServerTurn) {
    var n := ReadLen(s.rest);
    if s.fileSize == 0 then ServerTurn(s.(rest := s.rest[n..], pumping := false), [])
    else ServerTurn(s.(rest := s.rest[n..], fileSize := s.fileSize - n), [Packet(CGets, CStr(s.rest[..n]))])
  }
}
