/**
 The caller's array in array mode: a PHP array with its keys, to which lines are appended under
 the next free index, and the element that is reported in the end, which is looked up under the
 index one below the number of elements.
 */
module ExecArray {
  import opened Basics
  import opened ExecLines

  datatype Key = Index(index: int) | Name(name: string)

  datatype Cell = Line(text: Text) | Other(id: nat)

  datatype Entry = Entry(key: Key, cell: Cell)

  /** `next` is the next free index. */
  datatype Table = Table(entries: seq<Entry>, next: int)

  predicate Valid(t: Table) {
    && (forall i, j :: 0 <= i < j < |t.entries| ==> t.entries[i].key != t.entries[j].key)
    && (forall i :: 0 <= i < |t.entries| && t.entries[i].key.Index? ==> t.entries[i].key.index < t.next)
  }

  function Append(t: Table, line: Text): Table {
    Table(t.entries + [Entry(Index(t.next), Line(line))], t.next + 1)
  }

  function AppendAll(t: Table, lines: seq<Text>): Table {
    if lines == [] then t else Append(AppendAll(t, lines[..|lines| - 1]), lines[|lines| - 1])
  }

  function Lookup(entries: seq<Entry>, index: int): Option<Cell> {
    if entries == [] then None
    else if entries[0].key == Index(index) then Some(entries[0].cell)
    else Lookup(entries[1..], index)
  }

  /** What is reported when no unfinished line is left: the empty line if there is no such
      element. */
  function Reported(t: Table): Cell {
    match Lookup(t.entries, |t.entries| - 1)
    case Some(cell) => cell
    case None => Line([])
  }

  /** All lines of a stream, the unfinished one among them, and the last of them. */
  function FinalLines(stream: Text): seq<Text> {
    StripAll(Lines(stream)) + if Tail(stream) == [] then [] else [Strip(Tail(stream))]
  }

  function FinalLine(stream: Text): Text {
    if FinalLines(stream) == [] then [] else FinalLines(stream)[|FinalLines(stream)| - 1]
  }

  /** What the call returns in array mode. */
  function ArrayResult(before: Table, stream: Text): Cell {
    if Tail(stream) != [] then Line(Strip(Tail(stream)))
    else Reported(AppendAll(before, StripAll(Lines(stream))))
  }

  // ---------------------------------------------------------------------------------- lookups

  lemma {:induction false} LookupAppend(entries: seq<Entry>, e: Entry, index: int)
    ensures Lookup(entries + [e], index) ==
              if Lookup(entries, index).Some? then Lookup(entries, index)
              else if e.key == Index(index) then Some(e.cell) else None
  {
    if entries == [] {
      assert entries + [e] == [e] && [e][1..] == [];
    } else {
      assert (entries + [e])[1..] == entries[1..] + [e];
      LookupAppend(entries[1..], e, index);
    }
  }

  lemma {:induction false} LookupAbsent(entries: seq<Entry>, index: int)
    requires forall i :: 0 <= i < |entries| ==> entries[i].key != Index(index)
    ensures Lookup(entries, index).None?
  {
    if entries != [] {
      LookupAbsent(entries[1..], index);
    }
  }

  lemma {:induction false} AppendAllIs(t: Table, lines: seq<Text>)
    requires Valid(t)
    ensures var u := AppendAll(t, lines);
            Valid(u) && u.next == t.next + |lines| && |u.entries| == |t.entries| + |lines|
  {
    if lines != [] {
      AppendAllIs(t, lines[..|lines| - 1]);
    }
  }

  lemma AppendAllLast(t: Table, lines: seq<Text>)
    requires Valid(t) && lines != []
    ensures Lookup(AppendAll(t, lines).entries, t.next + |lines| - 1) == Some(Line(lines[|lines| - 1]))
  {
    var n := |lines| - 1;
    var u := AppendAll(t, lines[..n]);
    AppendAllIs(t, lines[..n]);
    LookupAbsent(u.entries, u.next);
    LookupAppend(u.entries, Entry(Index(u.next), Line(lines[n])), u.next);
  }

  lemma {:induction false} StripAllLength(lines: seq<Text>)
    ensures |StripAll(lines)| == |lines|
  {
    if lines != [] {
      StripAllLength(lines[1..]);
    }
  }

  // ---------------------------------------------------------- when the right line is reported

  /** The index looked up is that of the last appended element: as many elements as the next
      free index, which is so for a list. */
  predicate ListLike(t: Table) { t.next == |t.entries| }

  lemma SingleLine(b: Byte)
    requires b != NEWLINE && !IsSpace(b)
    ensures Lines([b, NEWLINE]) == [[b]] && Tail([b, NEWLINE]) == [] && StripAll([[b]]) == [[b]]
    ensures FinalLine([b, NEWLINE]) == [b]
  {
    assert Glue([[b]]) + [] == [b, NEWLINE];
    SplitIsUnique([[b]], []);
  }

  lemma PrintedIsReported(t: Table, stream: Text)
    requires Valid(t) && ListLike(t) && stream != []
    ensures ArrayResult(t, stream) == Line(FinalLine(stream))
  {
    var lines := StripAll(Lines(stream));
    StripAllLength(Lines(stream));
    if Tail(stream) == [] {
      SplitGlues(stream);
      assert Lines(stream) != [];
      AppendAllIs(t, lines);
      AppendAllLast(t, lines);
      assert FinalLines(stream) == lines;
    }
  }

  lemma OneLineReports(t: Table, b: Byte)
    requires Valid(t) && !ListLike(t) && b != NEWLINE && !IsSpace(b)
    ensures ArrayResult(t, [b, NEWLINE]) == Reported(Table(t.entries + [Entry(Index(t.next), Line([b]))], t.next + 1))
    ensures ArrayResult(t, [b, NEWLINE]) ==
              if Lookup(t.entries, |t.entries|).Some? then Lookup(t.entries, |t.entries|).value else Line([])
  {
    SingleLine(b);
    assert [[b]][..0] == [];
    assert AppendAll(t, [[b]]) == Append(t, [b]);
    LookupAppend(t.entries, Entry(Index(t.next), Line([b])), |t.entries|);
  }

  /** A silent command is reported as the empty line: nothing, or an empty line, stands under the
      index looked up. */
  predicate QuietWhenSilent(t: Table) {
    match Lookup(t.entries, |t.entries| - 1)
    case None => true
    case Some(cell) => cell == Line([])
  }

  /** The last line is reported for every output that prints something, exactly if the caller's
      array is like a list; and for every output at all, exactly if besides its last element is
      an empty line or there is none. */
  lemma LastLineReportedIff(t: Table)
    requires Valid(t)
    ensures (forall stream :: stream != [] ==> ArrayResult(t, stream) == Line(FinalLine(stream))) <==> ListLike(t)
    ensures (forall stream :: ArrayResult(t, stream) == Line(FinalLine(stream))) <==> ListLike(t) && QuietWhenSilent(t)
  {
    assert ArrayResult(t, []) == Line(FinalLine([])) <==> QuietWhenSilent(t);
    if ListLike(t) {
      forall stream | stream != [] ensures ArrayResult(t, stream) == Line(FinalLine(stream)) {
        PrintedIsReported(t, stream);
      }
    } else {
      OneLineReports(t, 112);
      OneLineReports(t, 113);
      SingleLine(112);
      SingleLine(113);
      assert Line(FinalLine([112, NEWLINE])) != Line(FinalLine([113, NEWLINE]));
      assert ArrayResult(t, [112, NEWLINE]) == ArrayResult(t, [113, NEWLINE]);
    }
  }

  /** An array with a gap: the call prints "p" and reports the caller's own "z". */
  lemma GapReportsOldLine()
    ensures var t := Table([Entry(Index(1), Line([122]))], 2);
            Valid(t) && ArrayResult(t, [112, NEWLINE]) == Line([122]) && FinalLine([112, NEWLINE]) == [112]
  {
    var t := Table([Entry(Index(1), Line([122]))], 2);
    SingleLine(112);
    OneLineReports(t, 112);
  }

  lemma TwoLines(a: Byte, b: Byte)
    requires a != NEWLINE && !IsSpace(a) && b != NEWLINE && !IsSpace(b)
    ensures var stream := [a, NEWLINE, b, NEWLINE];
            Lines(stream) == [[a], [b]] && Tail(stream) == [] && StripAll(Lines(stream)) == [[a], [b]]
  {
    var lines := [[a], [b]];
    assert lines[1..] == [[b]];
    assert Glue([[b]]) == [b, NEWLINE];
    assert Glue(lines) + [] == [a, NEWLINE, b, NEWLINE];
    SplitIsUnique(lines, []);
    assert StripAll([[b]]) == [[b]];
  }

  /** An array with a name: the call prints "p" and "q" and reports the empty line. */
  lemma NameReportsNothing()
    ensures var t := Table([Entry(Name("a"), Other(1))], 0);
            && Valid(t) && ArrayResult(t, [112, NEWLINE, 113, NEWLINE]) == Line([])
            && FinalLine([112, NEWLINE, 113, NEWLINE]) == [113]
  {
    var t := Table([Entry(Name("a"), Other(1))], 0);
    TwoLines(112, 113);
    assert [[112], [113]][..1] == [[112]] && [[112]][..0] == [];
    var u := AppendAll(t, [[112], [113]]);
    assert u.entries == [t.entries[0], Entry(Index(0), Line([112])), Entry(Index(1), Line([113]))];
    LookupAbsent(u.entries, 2);
  }

  /** An array that holds something: the call prints nothing and reports the caller's element. */
  lemma SilenceReportsOldLine()
    ensures var t := Table([Entry(Index(0), Line([122]))], 1);
            Valid(t) && ListLike(t) && ArrayResult(t, []) == Line([122]) && FinalLine([]) == []
  {
  }
}
