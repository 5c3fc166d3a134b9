/** Command lines: the keyboard line is trimmed by the client, sent whole, and both sides cut it
    into a command word and at most one parameter with the same loops. */
module Tokens {
  import opened Bytes
  import opened Seqs

  const SPACE: byte := 32

  ghost predicate AllSpaces(s: seq<byte>) {
    forall i :: 0 <= i < |s| ==> s[i] == SPACE
  }

  /** First index at or after `i` that does not hold a space (`spaces`), or that holds one. */
  function Scan(s: seq<byte>, i: nat, spaces: bool): (j: nat)
    requires i <= |s|
    ensures i <= j <= |s|
    ensures forall k :: i <= k < j ==> (s[k] == SPACE) == spaces
    ensures j < |s| ==> (s[j] == SPACE) != spaces
    decreases |s| - i
  {
    if i < |s| && (s[i] == SPACE) == spaces then Scan(s, i + 1, spaces) else i
  }

  datatype Words = Words(cmd: seq<byte>, parm: seq<byte>, next: nat)

  /** The five loops of the tokeniser; `next` is where the client's last loop stops. */
  function Tokenise(s: seq<byte>): (w: Words)
    ensures w.next <= |s|
  {
    var a := Scan(s, 0, true);
    var b := Scan(s, a, false);
    var c := Scan(s, b, true);
    var d := Scan(s, c, false);
    Words(s[a..b], s[c..d], Scan(s, d, true))
  }

  /** `while (start < size && s[start] == ' ') start++;` */
  method SkipSpaces(s: seq<byte>, start: nat) returns (i: nat)
    requires start <= |s|
    ensures i == Scan(s, start, true)
  {
    i := start;
    while i < |s| && s[i] == SPACE
      invariant i <= |s| && Scan(s, i, true) == Scan(s, start, true)
    {
      i := i + 1;
    }
  }

  /** `while (start < size && s[start] != ' ') word.push_back(s[start++]);` */
  method PushWord(s: seq<byte>, start: nat) returns (word: seq<byte>, i: nat)
    requires start <= |s|
    ensures i == Scan(s, start, false) && word == s[start..i]
  {
    i := start;
    word := [];
    while i < |s| && s[i] != SPACE
      invariant start <= i <= |s| && Scan(s, i, false) == Scan(s, start, false)
      invariant word == s[start..i]
    {
      word := word + [s[i]];
      i := i + 1;
    }
  }

  ghost predicate Run(s: seq<byte>, i: nat, j: nat, spaces: bool) {
    && i <= j <= |s|
    && (forall k :: i <= k < j ==> (s[k] == SPACE) == spaces)
    && (j < |s| ==> (s[j] == SPACE) != spaces)
  }

  /** The line cut at a, b, c, d, e: spaces, the first word, spaces, the second word, spaces, where
      no part is cut short. */
  ghost predicate CutsAt(s: seq<byte>, a: nat, b: nat, c: nat, d: nat, e: nat) {
    Run(s, 0, a, true) && Run(s, a, b, false) && Run(s, b, c, true) && Run(s, c, d, false) && Run(s, d, e, true)
  }

  /** The words found are the first two maximal runs without a space, and no others. */
  lemma TokeniseIff(s: seq<byte>, a: nat, b: nat, c: nat, d: nat, e: nat)
    requires CutsAt(s, a, b, c, d, e)
    ensures Tokenise(s) == Words(s[a..b], s[c..d], e)
  {
    ScanIs(s, 0, a, true);
    ScanIs(s, a, b, false);
    ScanIs(s, b, c, true);
    ScanIs(s, c, d, false);
    ScanIs(s, d, e, true);
  }

  lemma ScanIs(s: seq<byte>, i: nat, j: nat, spaces: bool)
    requires Run(s, i, j, spaces)
    ensures Scan(s, i, spaces) == j
  {
  }

  /** What the client may send for a command with one operand is read back as that command and operand. */
  lemma TokenisePrinted(cmd: seq<byte>, parm: seq<byte>)
    requires cmd != [] && parm != [] && SPACE !in cmd && SPACE !in parm
    ensures Tokenise(cmd + [SPACE] + parm) == Words(cmd, parm, |cmd| + 1 + |parm|)
  {
    var s := cmd + [SPACE] + parm;
    var b := |cmd|;
    assert s[..b] == cmd && s[b] == SPACE && s[b + 1..] == parm;
    assert forall k :: 0 <= k < b ==> s[k] == cmd[k];
    assert forall k :: b + 1 <= k < |s| ==> s[k] == parm[k - b - 1];
    TokeniseIff(s, 0, b, b + 1, |s|, |s|);
    assert s[b + 1..|s|] == parm;
  }

  lemma TokeniseWord(cmd: seq<byte>)
    requires SPACE !in cmd
    ensures Tokenise(cmd) == Words(cmd, [], |cmd|)
  {
    TokeniseIff(cmd, 0, |cmd|, |cmd|, |cmd|, |cmd|);
  }

  // Trimming. The source calls `back()` and `*begin()`, which need a character that is not a space.

  ghost predicate HasWord(s: seq<byte>) {
    exists i :: 0 <= i < |s| && s[i] != SPACE
  }

  function TrimBack(s: seq<byte>): (t: seq<byte>)
    ensures t <= s && AllSpaces(s[|t|..])
    ensures t != [] ==> t[|t| - 1] != SPACE
  {
    if s != [] && s[|s| - 1] == SPACE then TrimBack(s[..|s| - 1]) else s
  }

  function TrimFront(s: seq<byte>): (t: seq<byte>)
    ensures |t| <= |s| && t == s[|s| - |t|..] && AllSpaces(s[..|s| - |t|])
    ensures t != [] ==> t[0] != SPACE
  {
    if s != [] && s[0] == SPACE then TrimFront(s[1..]) else s
  }

  function Trim(s: seq<byte>): (t: seq<byte>) {
    TrimFront(TrimBack(s))
  }

  /** Trimming at the back leaves nothing, and the source's next `back()` has no character to look
      at, exactly if the line is blank. */
  lemma {:induction false} BlankIff(s: seq<byte>)
    ensures TrimBack(s) == [] <==> !HasWord(s)
  {
    if s != [] && s[|s| - 1] == SPACE {
      var r := s[..|s| - 1];
      BlankIff(r);
      assert HasWord(s) ==> HasWord(r);
      if HasWord(r) {
        var i :| 0 <= i < |r| && r[i] != SPACE;
        assert s[i] != SPACE;
      }
    } else if s != [] {
      assert s[|s| - 1] != SPACE;
    }
  }

  /** No space at either end. */
  ghost predicate Trimmed(s: seq<byte>) {
    s != [] && s[0] != SPACE && s[|s| - 1] != SPACE
  }

  lemma TrimKeepsWord(s: seq<byte>)
    requires HasWord(s)
    ensures Trimmed(Trim(s))
  {
    var i :| 0 <= i < |s| && s[i] != SPACE;
    var t := TrimBack(s);
    Split(s, |t|);
    assert s[..|t|] == t;
    NotInSpaces(t, s[|t|..], i);
    var u := TrimFront(t);
    Split(t, |t| - |u|);
    assert u != [];
    assert u[|u| - 1] == t[|t| - 1];
  }

  lemma NotInSpaces(x: seq<byte>, y: seq<byte>, i: nat)
    requires i < |x + y| && (x + y)[i] != SPACE && AllSpaces(y)
    ensures i < |x| && x[i] != SPACE
  {
  }

  // ---- The list of all words, defined without indices ----

  function WordList(s: seq<byte>): (ws: seq<seq<byte>>)
    ensures s != [] && s[0] != SPACE ==> ws != []
  {
    if s == [] then []
    else if s[0] == SPACE then WordList(s[1..])
    else if |s| == 1 || s[1] == SPACE then [[s[0]]] + WordList(s[1..])
    else
      var ws := WordList(s[1..]);
      [[s[0]] + ws[0]] + ws[1..]
  }

  /** Leading spaces do not count. */
  lemma {:induction false} SkipsSpaces(s: seq<byte>, i: nat)
    requires i <= |s| && forall k :: 0 <= k < i ==> s[k] == SPACE
    ensures WordList(s) == WordList(s[i..])
  {
    if i > 0 {
      SkipsSpaces(s[1..], i - 1);
      assert s[1..][i - 1..] == s[i..];
    } else {
      assert s[0..] == s;
    }
  }

  /** A maximal run of other characters at the front is the first word. */
  lemma {:induction false} TakesWord(s: seq<byte>, i: nat)
    requires 0 < i && Run(s, 0, i, false)
    ensures WordList(s) == [s[..i]] + WordList(s[i..])
  {
    if i == 1 {
      assert s[..1] == [s[0]];
    } else {
      TakesWord(s[1..], i - 1);
      assert s[1..][i - 1..] == s[i..];
      assert [s[0]] + s[1..][..i - 1] == s[..i];
    }
  }

  /** The parts of a line from index `i` on: one word and the rest, or nothing. */
  lemma NextWord(s: seq<byte>, i: nat)
    requires i <= |s|
    ensures var a := Scan(s, i, true); var b := Scan(s, a, false);
            WordList(s[i..]) == if a < |s| then [s[a..b]] + WordList(s[b..]) else []
    ensures var a := Scan(s, i, true); a < |s| ==> s[a..Scan(s, a, false)] != []
    ensures var a := Scan(s, i, true); a == |s| ==> s[a..Scan(s, a, false)] == []
  {
    var a := Scan(s, i, true);
    var b := Scan(s, a, false);
    SkipsSpaces(s[i..], a - i);
    assert s[i..][a - i..] == s[a..];
    if a < |s| {
      TakesWord(s[a..], b - a);
      assert s[a..][b - a..] == s[b..];
      assert s[a..][..b - a] == s[a..b];
    }
  }

  /** The tokeniser finds the first two words, empty where there are none, and its last index reaches
      the end of the line exactly if there is no third. */
  lemma TokeniseWords(s: seq<byte>)
    ensures var w, ws := Tokenise(s), WordList(s);
            && w.cmd == (if |ws| > 0 then ws[0] else [])
            && w.parm == (if |ws| > 1 then ws[1] else [])
            && (w.parm == [] <==> |ws| <= 1)
            && (w.next < |s| <==> |ws| > 2)
  {
    hide WordList, Scan;
    NextWord(s, 0);
    assert s[0..] == s;
    var b := Scan(s, Scan(s, 0, true), false);
    NextWord(s, b);
    var d := Scan(s, Scan(s, b, true), false);
    NextWord(s, d);
    ScanAtEnd(s);
  }

  lemma ScanAtEnd(s: seq<byte>)
    ensures Scan(s, |s|, true) == |s| && Scan(s, |s|, false) == |s|
  {
  }

  /** A trimmed line is one word exactly if it holds no space. */
  lemma SingleWord(s: seq<byte>)
    requires Trimmed(s)
    ensures SPACE !in s ==> WordList(s) == [s]
    ensures SPACE in s ==> |WordList(s)| > 1
  {
    hide WordList;
    var b := Scan(s, 0, false);
    assert Scan(s, 0, true) == 0;
    NextWord(s, 0);
    NextWord(s, b);
    assert s[0..] == s && s[0..b] == s[..b];
    if b == |s| {
      ScanAtEnd(s);
      assert s[..b] == s;
      assert forall k :: 0 <= k < |s| ==> s[k] != SPACE;
    } else {
      assert Scan(s, b, true) < |s|;
    }
  }

  /** The spaces are the ASCII ones. */
  lemma Spelled()
    ensures [SPACE] == Ascii(" ")
  {
  }

  lemma {:induction false} SpacesAtEnd(s: seq<byte>, t: seq<byte>)
    requires AllSpaces(t)
    ensures WordList(s + t) == WordList(s)
    decreases |s|
  {
    if s == [] {
      Unit(t);
      SkipsSpaces(t, |t|);
      assert t[|t|..] == [];
    } else {
      SpacesAtEnd(s[1..], t);
      Uncons(s, t);
      if |s| == 1 {
        assert s[1..] == [];
        Unit(t);
        SkipsSpaces(t, |t|);
        assert t[|t|..] == [];
      }
    }
  }

  /** Trimming loses no word. */
  lemma TrimKeepsWords(s: seq<byte>)
    ensures WordList(Trim(s)) == WordList(s)
  {
    var t := TrimBack(s);
    Split(s, |t|);
    assert s[..|t|] == t;
    SpacesAtEnd(t, s[|t|..]);
    var u := TrimFront(t);
    var i := |t| - |u|;
    assert forall k :: 0 <= k < i ==> t[k] == t[..i][k] == SPACE;
    SkipsSpaces(t, i);
  }
}
