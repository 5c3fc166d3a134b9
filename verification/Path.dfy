/** The server's working directory: the string `relativePath_` and the `cd` command. */
module Path {
  import opened Bytes
  import opened Seqs

  const SLASH: byte := 47
  const ROOT: seq<byte> := [SLASH]
  const DOT: seq<byte> := [46]
  const DOTDOT: seq<byte> := [46, 46]

  /** A path begins and ends with a slash (the root is one slash). */
  predicate WellFormed(p: seq<byte>) {
    p != [] && p[0] == SLASH && p[|p| - 1] == SLASH
  }

  /** `while (back() != '/') pop_back();` */
  function PopToSlash(p: seq<byte>): (q: seq<byte>)
    ensures q <= p && SLASH !in p[|q|..]
    ensures q != [] ==> q[|q| - 1] == SLASH
    ensures SLASH in p ==> q != []
  {
    if p == [] || p[|p| - 1] == SLASH then p else
      var q := PopToSlash(p[..|p| - 1]);
      assert p[|q|..] == p[..|p| - 1][|q|..] + [p[|p| - 1]];
      q
  }

  /** The new path; `opens` tells whether `testOpenDir` could open the directory named. */
  function Cd(path: seq<byte>, parm: seq<byte>, opens: bool): (p: seq<byte>)
    requires WellFormed(path)
    ensures WellFormed(p)
  {
    if parm == [] then ROOT
    else if parm == DOT then path
    else if parm == DOTDOT then
      if path == ROOT then path else
        var up := path[..|path| - 1];
        assert up[0] == SLASH;
        var p := PopToSlash(up);
        assert p[0] == up[0];
        p
    else if opens then path + parm + ROOT
    else path
  }

  ghost predicate IsName(n: seq<byte>) {
    n != [] && n != DOT && n != DOTDOT && SLASH !in n
  }

  ghost predicate Names(st: seq<seq<byte>>) {
    forall i :: 0 <= i < |st| ==> IsName(st[i])
  }

  /** The string for a stack of directory names, the innermost last. */
  ghost function Render(st: seq<seq<byte>>): (p: seq<byte>)
    ensures WellFormed(p)
  {
    if st == [] then ROOT else Render(st[..|st| - 1]) + st[|st| - 1] + ROOT
  }

  /** What `cd` means for the stack. */
  ghost function CdStack(st: seq<seq<byte>>, parm: seq<byte>, opens: bool): seq<seq<byte>> {
    if parm == [] then []
    else if parm == DOT then st
    else if parm == DOTDOT then if st == [] then st else st[..|st| - 1]
    else if opens then st + [parm]
    else st
  }

  /** Dropping the last byte and popping to a slash removes exactly what follows the last slash. */
  lemma {:induction false} PopExact(p: seq<byte>, n: seq<byte>)
    requires p != [] && p[|p| - 1] == SLASH && SLASH !in n
    ensures PopToSlash(p + n) == p
    decreases |n|
  {
    if n == [] {
      Unit(p);
    } else {
      var m := n[..|n| - 1];
      PopExact(p, m);
      assert (p + n)[..|p + n| - 1] == p + m;
    }
  }

  /** One `cd` whose operand has no slash moves the string as it moves the stack. */
  lemma CdRefinesStack(st: seq<seq<byte>>, parm: seq<byte>, opens: bool)
    requires Names(st) && SLASH !in parm
    ensures Names(CdStack(st, parm, opens))
    ensures Cd(Render(st), parm, opens) == Render(CdStack(st, parm, opens))
  {
    if parm == [] || parm == DOT {
    } else if parm == DOTDOT {
      if st != [] {
        var below, top := Render(st[..|st| - 1]), st[|st| - 1];
        PopExact(below, top);
        assert Render(st)[..|Render(st)| - 1] == below + top;
        assert |Render(st)| > |ROOT|;
      }
    } else if opens {
      assert (st + [parm])[..|st|] == st;
    }
  }

  datatype CdCall = CdCall(parm: seq<byte>, opens: bool)

  ghost function CdAll(path: seq<byte>, calls: seq<CdCall>): (p: seq<byte>)
    requires WellFormed(path)
    ensures WellFormed(p)
    decreases |calls|
  {
    if calls == [] then path else CdAll(Cd(path, calls[0].parm, calls[0].opens), calls[1..])
  }

  lemma {:induction false} CdAllOneMore(path: seq<byte>, calls: seq<CdCall>, call: CdCall)
    requires WellFormed(path)
    ensures CdAll(path, calls + [call]) == Cd(CdAll(path, calls), call.parm, call.opens)
    decreases |calls|
  {
    hide Cd;
    if calls == [] {
      Unit([call]);
      assert [call][1..] == [];
    } else {
      Uncons(calls, [call]);
      CdAllOneMore(Cd(path, calls[0].parm, calls[0].opens), calls[1..], call);
    }
  }

  ghost function CdStackAll(st: seq<seq<byte>>, calls: seq<CdCall>): seq<seq<byte>>
    decreases |calls|
  {
    if calls == [] then st else CdStackAll(CdStack(st, calls[0].parm, calls[0].opens), calls[1..])
  }

  /** After any history of `cd` commands without a slash in an operand, the path string is the
      rendering of the directory stack, starting at the root where login puts it. */
  lemma {:induction false} HistoryRefinesStack(st: seq<seq<byte>>, calls: seq<CdCall>)
    requires Names(st)
    requires forall i :: 0 <= i < |calls| ==> SLASH !in calls[i].parm
    ensures Names(CdStackAll(st, calls))
    ensures CdAll(Render(st), calls) == Render(CdStackAll(st, calls))
    decreases |calls|
  {
    if calls != [] {
      CdRefinesStack(st, calls[0].parm, calls[0].opens);
      HistoryRefinesStack(CdStack(st, calls[0].parm, calls[0].opens), calls[1..]);
    }
  }

  /** `cd parm` and then `cd ..` come back to the same directory string exactly when the operand
      held no slash; otherwise only its last component is undone. */
  lemma UndoIff(path: seq<byte>, parm: seq<byte>)
    requires WellFormed(path) && parm != [] && parm != DOT && parm != DOTDOT
    ensures Cd(Cd(path, parm, true), DOTDOT, true) == path <==> SLASH !in parm
  {
    var down := path + parm + ROOT;
    assert down[..|down| - 1] == path + parm;
    if SLASH !in parm {
      PopExact(path, parm);
    } else {
      Cut(path, parm);
    }
  }
}
