/** `myls`: the text of a directory listing, put together in an array of fixed size. */
module Listing {
  import opened Bytes
  import opened Seqs
  import Tokens
  import Path

  const LINE_BUFFER: nat := 288
  const NEWLINE: byte := 10

  /** `info` is what mode, size and time of the entry are printed as. */
  datatype Entry = Entry(name: seq<byte>, info: seq<byte>)

  /** What `opendir` and `readdir` find. */
  datatype Directory = Missing | Found(entries: seq<Entry>)

  /** `Stops` when `readdir` gets no directory or a text does not fit the array. */
  datatype Listed = Stops | Text(text: seq<byte>)

  predicate Hidden(e: Entry) {
    e.name == Path.DOT || e.name == Path.DOTDOT
  }

  function Line(e: Entry): (s: seq<byte>) {
    e.info + [Tokens.SPACE] + e.name + [NEWLINE]
  }

  predicate EntryFits(path: seq<byte>, e: Entry) {
    Hidden(e) || (|path| + |e.name| < LINE_BUFFER && |Line(e)| < LINE_BUFFER)
  }

  function Lines(entries: seq<Entry>): (ls: seq<seq<byte>>) {
    if entries == [] then [] else (if Hidden(entries[0]) then [] else [Line(entries[0])]) + Lines(entries[1..])
  }

  /** One line for each entry but the two that every directory has, without the last newline. */
  function Ls(path: seq<byte>, dir: Directory): (r: Listed) {
    match dir
    case Missing => Stops
    case Found(entries) =>
      if exists i :: 0 <= i < |entries| && !EntryFits(path, entries[i]) then Stops
      else
        var s := Join(Lines(entries));
        Text(if s == [] then s else s[..|s| - 1])
  }

  lemma {:induction false} LinesEndInNewline(entries: seq<Entry>)
    ensures var s := Join(Lines(entries)); s != [] ==> s[|s| - 1] == NEWLINE
  {
    if entries != [] {
      var later := Lines(entries[1..]);
      LinesEndInNewline(entries[1..]);
      if Hidden(entries[0]) {
        Unit(later);
      } else {
        Uncons([Line(entries[0])], later);
        Unit(later);
        assert Lines(entries)[1..] == later;
        assert Join(Lines(entries)) == Line(entries[0]) + Join(later);
      }
    }
  }

  /** What `pop_back` takes off is the newline after the last entry. */
  lemma OnlyNewlineDropped(path: seq<byte>, entries: seq<Entry>)
    requires Ls(path, Found(entries)).Text? && Lines(entries) != []
    ensures Ls(path, Found(entries)).text + [NEWLINE] == Join(Lines(entries))
  {
    LinesEndInNewline(entries);
    LinesLong(entries);
  }

  lemma {:induction false} LinesLong(entries: seq<Entry>)
    requires Lines(entries) != []
    ensures Join(Lines(entries)) != []
  {
    if Hidden(entries[0]) {
      Unit(Lines(entries[1..]));
      LinesLong(entries[1..]);
    } else {
      assert |Lines(entries)[0]| > 0;
    }
  }

  lemma LinesOneMore(entries: seq<Entry>, e: Entry)
    ensures Join(Lines(entries + [e])) == Join(Lines(entries)) + if Hidden(e) then [] else Line(e)
  {
    if entries == [] {
      assert [e][1..] == [];
      assert entries + [e] == [e];
      Unit(Line(e));
    } else {
      Uncons(entries, [e]);
      LinesOneMore(entries[1..], e);
      var first := if Hidden(entries[0]) then [] else [Line(entries[0])];
      JoinAppend(first, Lines(entries[1..]));
      JoinAppend(first, Lines((entries + [e])[1..]));
      Assoc(Join(first), Join(Lines(entries[1..])), if Hidden(e) then [] else Line(e));
    }
  }

  /** The loop over the entries. */
  method MyLs(path: seq<byte>, dir: Directory) returns (r: Listed)
    ensures r == Ls(path, dir)
  {
    if dir.Missing? {
      return Stops;
    }
    var lsInfo: seq<byte> := [];
    var i := 0;
    assert dir.entries[..0] == [];
    while i < |dir.entries|
      invariant i <= |dir.entries| && lsInfo == Join(Lines(dir.entries[..i]))
      invariant forall k :: 0 <= k < i ==> EntryFits(path, dir.entries[k])
    {
      var e := dir.entries[i];
      LinesOneMore(dir.entries[..i], e);
      assert dir.entries[..i + 1] == dir.entries[..i] + [e];
      if Hidden(e) {
        Unit(lsInfo);
      } else {
        if |path| + |e.name| >= LINE_BUFFER || |Line(e)| >= LINE_BUFFER {
          assert !EntryFits(path, dir.entries[i]);
          return Stops;
        }
        lsInfo := lsInfo + Line(e);
      }
      i := i + 1;
    }
    assert dir.entries[..i] == dir.entries;
    if |lsInfo| > 0 {
      lsInfo := lsInfo[..|lsInfo| - 1];
    }
    r := Text(lsInfo);
  }

  /** The listing of one entry spells the printed fields, a space and the name. */
  lemma OneEntry(path: seq<byte>, e: Entry)
    requires Ordinary(e)
    requires |path| + |e.name| < 288 && |e.info| + |e.name| + 2 < 288
    ensures Ls(path, Found([e])) == Text(e.info + Ascii(" ") + e.name)
  {
    Spelled();
    var none: seq<Entry> := [];
    assert none + [e] == [e] && Join(Lines(none)) == [];
    LinesOneMore(none, e);
    Unit(Line(e));
    var text := e.info + [Tokens.SPACE] + e.name;
    assert Line(e) == text + [NEWLINE];
    assert EntryFits(path, [e][0]);
    Cut(text, [NEWLINE]);
    assert Line(e)[..|Line(e)| - 1] == text;
  }

  predicate Ordinary(e: Entry) {
    e.name != Ascii(".") && e.name != Ascii("..")
  }

  /** Entries are listed in order, one to a line: a further one that fits is added on a line of its own. */
  lemma EntryAppends(path: seq<byte>, entries: seq<Entry>, e: Entry)
    requires Ls(path, Found(entries)).Text? && Ls(path, Found(entries + [e])).Text?
    ensures var t := Ls(path, Found(entries)).text;
            Ls(path, Found(entries + [e])).text ==
            if !Ordinary(e) then t
            else (if exists i :: 0 <= i < |entries| && Ordinary(entries[i]) then t + Ascii("\n") else t)
                 + (e.info + Ascii(" ") + e.name)
  {
    Spelled();
    LinesOneMore(entries, e);
    var before := Join(Lines(entries));
    SomeLine(entries);
    if Ordinary(e) {
      var text := e.info + Ascii(" ") + e.name;
      assert Line(e) == text + [NEWLINE];
      Assoc(before, text, [NEWLINE]);
      Cut(before + text, [NEWLINE]);
      Unit(text);
      assert Ls(path, Found(entries + [e])).text == before + text;
      if Lines(entries) != [] {
        OnlyNewlineDropped(path, entries);
      } else {
        assert before == [];
      }
    } else {
      Unit(before);
    }
  }

  lemma {:induction false} SomeLine(entries: seq<Entry>)
    ensures Lines(entries) != [] <==> exists i :: 0 <= i < |entries| && Ordinary(entries[i])
  {
    Spelled();
    if entries != [] {
      SomeLine(entries[1..]);
      assert forall i :: 0 < i < |entries| ==> entries[i] == entries[1..][i - 1];
      if Hidden(entries[0]) { Unit(Lines(entries[1..])); }
      if Lines(entries[1..]) != [] {
        var i :| 0 <= i < |entries[1..]| && Ordinary(entries[1..][i]);
        assert Ordinary(entries[i + 1]);
      }
    }
  }

  ghost predicate TooLong(path: seq<byte>, e: Entry) {
    Ordinary(e) && (|path| + |e.name| > 287 || |e.info| + |e.name| + 2 > 287)
  }

  /** `ls` stops the process exactly if the directory cannot be opened, or some entry but the two that every
      directory has makes the path or the line too long for 288 bytes with the final NUL. */
  lemma StopsIff(path: seq<byte>, dir: Directory)
    ensures Ls(path, dir) == Stops <==>
              dir.Missing? || exists i :: 0 <= i < |dir.entries| && TooLong(path, dir.entries[i])
  {
    Spelled();
    if dir.Found? {
      forall i | 0 <= i < |dir.entries| ensures TooLong(path, dir.entries[i]) <==> !EntryFits(path, dir.entries[i]) {
      }
    }
  }

  lemma Spelled()
    ensures Path.DOT == Ascii(".") && Path.DOTDOT == Ascii("..") && [Tokens.SPACE] == Ascii(" ")
    ensures [NEWLINE] == Ascii("\n")
  {
  }
}
