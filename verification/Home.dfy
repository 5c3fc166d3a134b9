/** Where the server's working directory string leads once its components are resolved, and when that is
    inside the user's own directory. */
module Home {
  import opened Bytes
  import opened Seqs
  import opened Path

  type Name = seq<byte>

  /** The parts between slashes; some may be empty. */
  function Components(s: seq<byte>): (cs: seq<Name>)
    ensures |cs| >= 1
    ensures forall i :: 0 <= i < |cs| ==> SLASH !in cs[i]
  {
    if s == [] then [[]]
    else
      var cs := Components(s[1..]);
      if s[0] == SLASH then [[]] + cs else [[s[0]] + cs[0]] + cs[1..]
  }

  ghost predicate NoSlash(cs: seq<Name>) {
    forall i :: 0 <= i < |cs| ==> SLASH !in cs[i]
  }

  // ---- The string is a list of components, whatever the operands ----

  function CdList(cs: seq<Name>, parm: seq<byte>, opens: bool): (ds: seq<Name>) {
    if parm == [] then []
    else if parm == DOT then cs
    else if parm == DOTDOT then if cs == [] then cs else cs[..|cs| - 1]
    else if opens then cs + Components(parm)
    else cs
  }

  ghost function Tail(cs: seq<Name>): seq<byte> {
    if cs == [] then [] else cs[0] + ROOT + Tail(cs[1..])
  }

  lemma {:induction false} RenderTail(cs: seq<Name>, ds: seq<Name>)
    ensures Render(cs + ds) == Render(cs) + Tail(ds)
    decreases |ds|
  {
    if ds == [] {
      Unit(cs);
      Unit(Render(cs));
    } else {
      Split(ds, 1);
      Assoc(cs, [ds[0]], ds[1..]);
      assert ds[..1] == [ds[0]];
      RenderTail(cs + [ds[0]], ds[1..]);
      Cut(cs, [ds[0]]);
      Assoc(Render(cs), ds[0], ROOT);
      Assoc(Render(cs), ds[0] + ROOT, Tail(ds[1..]));
    }
  }

  lemma {:induction false} TailOfComponents(s: seq<byte>)
    ensures Tail(Components(s)) == s + ROOT
  {
    if s == [] {
      assert Components(s)[1..] == [];
    } else {
      TailOfComponents(s[1..]);
      var cs := Components(s[1..]);
      if s[0] == SLASH {
        assert Components(s)[1..] == cs;
        assert [] + ROOT + Tail(cs) == [s[0]] + Tail(cs);
      } else {
        assert Components(s)[1..] == cs[1..];
        Assoc([s[0]], cs[0], ROOT);
        Assoc([s[0]], cs[0] + ROOT, Tail(cs[1..]));
      }
      Split(s, 1);
      assert s[..1] == [s[0]];
      Assoc([s[0]], s[1..], ROOT);
    }
  }

  /** One `cd` moves the string as it moves the list, for every operand. */
  lemma CdRefinesList(cs: seq<Name>, parm: seq<byte>, opens: bool)
    requires NoSlash(cs)
    ensures NoSlash(CdList(cs, parm, opens))
    ensures Cd(Render(cs), parm, opens) == Render(CdList(cs, parm, opens))
  {
    hide Components;
    if parm == DOTDOT && cs != [] {
      var below, top := Render(cs[..|cs| - 1]), cs[|cs| - 1];
      PopExact(below, top);
      assert Render(cs)[..|Render(cs)| - 1] == below + top;
      assert |Render(cs)| > |ROOT|;
    } else if parm != [] && parm != DOT && parm != DOTDOT && opens {
      RenderTail(cs, Components(parm));
      TailOfComponents(parm);
      Assoc(Render(cs), parm, ROOT);
    }
  }

  function ListAll(calls: seq<CdCall>): (cs: seq<Name>) {
    if calls == [] then [] else
      var last := calls[|calls| - 1];
      CdList(ListAll(calls[..|calls| - 1]), last.parm, last.opens)
  }

  /** After any history of `cd` commands the path spells the list. */
  lemma {:induction false} HistoryRefinesList(calls: seq<CdCall>)
    ensures NoSlash(ListAll(calls)) && CdAll(ROOT, calls) == Render(ListAll(calls))
  {
    hide Cd, Render, CdList;
    if calls == [] {
      RenderRoot();
    } else {
      var n := |calls| - 1;
      HistoryRefinesList(calls[..n]);
      CdAllOneMore(ROOT, calls[..n], calls[n]);
      assert calls[..n] + [calls[n]] == calls;
      CdRefinesList(ListAll(calls[..n]), calls[n].parm, calls[n].opens);
    }
  }

  lemma RenderRoot()
    ensures Render([]) == ROOT
  {
  }

  // ---- Where it leads ----

  function Enter(dir: seq<Name>, c: Name): (d: seq<Name>) {
    if c == [] || c == DOT then dir
    else if c == DOTDOT then if dir == [] then dir else dir[..|dir| - 1]
    else dir + [c]
  }

  /** The directory that the components lead to from `base`, as the system resolves a path. */
  function Resolve(base: seq<Name>, cs: seq<Name>): (dir: seq<Name>) {
    if cs == [] then base else Enter(Resolve(base, cs[..|cs| - 1]), cs[|cs| - 1])
  }

  function Depth(cs: seq<Name>): int {
    if cs == [] then 0 else
      var c := cs[|cs| - 1];
      Depth(cs[..|cs| - 1]) + if c == [] || c == DOT then 0 else if c == DOTDOT then -1 else 1
  }

  /** No part of the way leads above its start. */
  ghost predicate Within(cs: seq<Name>) {
    forall n :: 0 <= n <= |cs| ==> Depth(cs[..n]) >= 0
  }

  lemma {:induction false} StaysBelow(base: seq<Name>, cs: seq<Name>)
    requires Within(cs)
    ensures base <= Resolve(base, cs) && |Resolve(base, cs)| == |base| + Depth(cs)
  {
    if cs != [] {
      var front := cs[..|cs| - 1];
      forall n | 0 <= n <= |front| ensures Depth(front[..n]) >= 0 { assert front[..n] == cs[..n]; }
      StaysBelow(base, front);
      assert cs[..|cs|] == cs;
    }
  }

  /** A name that no component is. */
  function Fresh(cs: seq<Name>): (user: Name)
    ensures user !in cs && IsName(user)
  {
    seq(3 + Longest(cs), _ => 97)
  }

  function Longest(cs: seq<Name>): (n: nat)
    ensures forall i :: 0 <= i < |cs| ==> |cs[i]| <= n
  {
    if cs == [] then 0 else
      var n := Longest(cs[1..]);
      if |cs[0]| > n then |cs[0]| else n
  }

  /** Once the way has left the directory of such a user it does not come back. */
  lemma {:induction false} NeverBackHome(user: Name, cs: seq<Name>, n: nat)
    requires user !in cs && n <= |cs| && user !in Resolve([user], cs[..n])
    ensures user !in Resolve([user], cs)
    decreases |cs| - n
  {
    if n < |cs| {
      assert cs[..n + 1][..n] == cs[..n];
      NeverBackHome(user, cs, n + 1);
    } else {
      assert cs[..n] == cs;
    }
  }

  lemma {:induction false} FirstStepOut(cs: seq<Name>) returns (n: nat)
    requires !Within(cs)
    ensures n < |cs| && Within(cs[..n]) && Depth(cs[..n]) == 0 && cs[n] == DOTDOT
  {
    assert cs[..|cs|] == cs;
    var front := cs[..|cs| - if cs == [] then 0 else 1];
    if !Within(front) {
      n := FirstStepOut(front);
      assert front[..n] == cs[..n];
    } else {
      n := |front|;
      assert forall k :: 0 <= k <= |front| ==> front[..k] == cs[..k];
      assert front[..|front|] == front;
    }
  }

  lemma NotIn(user: Name, dir: seq<Name>)
    requires user !in dir
    ensures !([user] <= dir)
  {
    if dir != [] { assert dir[0] in dir && [user][0] != dir[0]; }
  }

  /** The way stays inside the directory it starts from, whatever that is, exactly if no part of it leads
      above the start. */
  lemma HomeIff(cs: seq<Name>)
    ensures Within(cs) <==> forall base :: base <= Resolve(base, cs)
  {
    if Within(cs) {
      forall base ensures base <= Resolve(base, cs) { StaysBelow(base, cs); }
    } else {
      var n := FirstStepOut(cs);
      var user := Fresh(cs);
      StaysBelow([user], cs[..n]);
      assert cs[..n + 1][..n] == cs[..n];
      assert Resolve([user], cs[..n + 1]) == [];
      NeverBackHome(user, cs, n + 1);
      NotIn(user, Resolve([user], cs));
    }
  }

  lemma {:induction false} DepthAppend(a: seq<Name>, b: seq<Name>)
    ensures Depth(a + b) == Depth(a) + Depth(b)
    decreases |b|
  {
    if b == [] {
      Unit(a);
    } else {
      DepthAppend(a, b[..|b| - 1]);
      assert (a + b)[..|a + b| - 1] == a + b[..|b| - 1];
    }
  }

  /** The test that the source does not make: the operand does not climb further than the path has come. */
  ghost predicate Climbs(cs: seq<Name>, call: CdCall) {
    && call.parm != [] && call.parm != DOT && call.parm != DOTDOT && call.opens
    && exists n :: 0 <= n <= |Components(call.parm)| && Depth(cs) + Depth(Components(call.parm)[..n]) < 0
  }

  lemma StepStaysIff(cs: seq<Name>, call: CdCall)
    requires Within(cs)
    ensures Within(CdList(cs, call.parm, call.opens)) <==> !Climbs(cs, call)
  {
    hide Components;
    if call.parm == [] || call.parm == DOT || call.parm == DOTDOT || !call.opens {
      var ds := CdList(cs, call.parm, call.opens);
      forall n | 0 <= n <= |ds| ensures Depth(ds[..n]) >= 0 { assert ds[..n] == cs[..n]; }
    } else {
      var ds := Components(call.parm);
      forall n | 0 <= n <= |cs| ensures (cs + ds)[..n] == cs[..n] { Front(cs, ds, n); }
      forall n | 0 <= n <= |ds| ensures Depth((cs + ds)[..|cs| + n]) == Depth(cs) + Depth(ds[..n]) {
        DepthAppend(cs, ds[..n]);
        assert (cs + ds)[..|cs| + n] == cs + ds[..n];
      }
      if Climbs(cs, call) {
        var n :| 0 <= n <= |ds| && Depth(cs) + Depth(ds[..n]) < 0;
        assert Depth((cs + ds)[..|cs| + n]) < 0;
      } else {
        forall n | 0 <= n <= |cs + ds| ensures Depth((cs + ds)[..n]) >= 0 {
          if n > |cs| {
            var m := n - |cs|;
            assert Depth(cs) + Depth(ds[..m]) >= 0;
            assert n == |cs| + m;
          } else {
            assert (cs + ds)[..n] == cs[..n];
          }
        }
      }
    }
  }

  /** The directory is inside the user's own after every command of the history. */
  ghost predicate AlwaysHome(calls: seq<CdCall>) {
    forall k :: 0 <= k <= |calls| ==> Within(ListAll(calls[..k]))
  }

  ghost predicate NeverClimbs(calls: seq<CdCall>) {
    forall k :: 0 <= k < |calls| ==> !Climbs(ListAll(calls[..k]), calls[k])
  }

  lemma OneMoreCall(calls: seq<CdCall>, call: CdCall)
    ensures AlwaysHome(calls + [call]) <==> AlwaysHome(calls) && Within(ListAll(calls + [call]))
    ensures NeverClimbs(calls + [call]) <==> NeverClimbs(calls) && !Climbs(ListAll(calls), call)
  {
    hide Within, Climbs, ListAll;
    var all := calls + [call];
    forall k | 0 <= k <= |calls| ensures all[..k] == calls[..k] { Front(calls, [call], k); }
    assert all[..|all|] == all && calls[..|calls|] == calls;
    assert forall k :: 0 <= k < |calls| ==> all[k] == calls[k];
  }

  /** Over all histories: the user stays inside his own directory exactly if no `cd` that is carried out has an
      operand that climbs further than the path has come. */
  lemma {:induction false} HistoryStaysIff(calls: seq<CdCall>)
    ensures AlwaysHome(calls) <==> NeverClimbs(calls)
    decreases |calls|
  {
    hide AlwaysHome, NeverClimbs, Within, Climbs, CdList;
    if calls == [] {
      NowhereIsWithin();
    } else {
      var n := |calls| - 1;
      var front, call := calls[..n], calls[n];
      assert calls == front + [call];
      HistoryStaysIff(front);
      OneMoreCall(front, call);
      EndsHome(front);
      if Within(ListAll(front)) { StepStaysIff(ListAll(front), call); }
    }
  }

  lemma EndsHome(calls: seq<CdCall>)
    ensures AlwaysHome(calls) ==> Within(ListAll(calls))
  {
    hide Within;
    assert calls[..|calls|] == calls;
  }

  lemma NowhereIsWithin()
    ensures AlwaysHome([]) && NeverClimbs([])
  {
  }

  // "../b", in ASCII.
  const OUT: seq<byte> := [46, 46, 47, 98]

  /** Such a `cd` is carried out: from the user's own directory `cd ../b` leads to the directory of user b. */
  lemma LeavesHome(user: Name)
    requires IsName(user)
    ensures Cd(ROOT, OUT, true) == ROOT + OUT + ROOT
    ensures Resolve([user], ListAll([CdCall(OUT, true)])) == [[98]]
    ensures !Within(ListAll([CdCall(OUT, true)]))
  {
    var calls := [CdCall(OUT, true)];
    assert calls[..0] == [];
    OutComponents();
    Unit([DOTDOT, [98]]);
    var cs: seq<Name> := [DOTDOT, [98]];
    assert ListAll(calls) == cs;
    assert cs[..1] == [DOTDOT] && [DOTDOT][..0] == [];
    assert Resolve([user], [DOTDOT]) == [];
    assert Depth(cs[..1]) == -1;
  }

  /** A character that is no slash goes to the front of the first component. */
  lemma OneMore(c: byte, s: seq<byte>, first: Name, rest: seq<Name>)
    requires c != SLASH && Components(s) == [first] + rest
    ensures Components([c] + s) == [[c] + first] + rest
  {
    assert ([c] + s)[1..] == s;
    assert ([first] + rest)[1..] == rest;
  }

  lemma OutComponents()
    ensures Components(OUT) == [DOTDOT, [98]]
  {
    OneMore(98, [], [], []);
    var b: seq<byte> := [98];
    assert b == [98] + [] && Components(b) == [b];
    assert OUT[2..] == [SLASH] + b && OUT[2..][1..] == b;
    OneMore(46, OUT[2..], [], [b]);
    Unit<byte>([46]);
    OneMore(46, [46] + OUT[2..], [46], [b]);
    assert OUT == [46] + ([46] + OUT[2..]);
    assert [46] + [46] == DOTDOT && [DOTDOT] + [b] == [DOTDOT, b];
  }
}
