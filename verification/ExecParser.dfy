/**
 The parser with its growable line buffer.
 */
module ExecParser {
  import opened Basics
  import opened ExecLines
  import opened ExecArray

  /** One string is wanted, or the caller's array. */
  datatype Mode = LastLine | Array

  function LastOf(lines: seq<Text>): Option<Text> {
    if lines == [] then None else Some(lines[|lines| - 1])
  }

  method StripTrailing(line: Text) returns (r: Text)
    ensures r == Strip(line)
  {
    var len := |line|;
    assert line[..len] == line;
    while len > 0 && IsSpace(line[len - 1])
      invariant 0 <= len <= |line| && Strip(line[..len]) == Strip(line)
    {
      assert line[..len][..len - 1] == line[..len - 1];
      len := len - 1;
    }
    r := line[..len];
  }

  /** Where the next newline at or after `from` stands. */
  method FindNewline(data: Text, from: nat) returns (at: Option<nat>)
    requires from <= |data|
    ensures at.None? ==> NEWLINE !in data[from..]
    ensures at.Some? ==> from <= at.value < |data| && data[at.value] == NEWLINE && NEWLINE !in data[from..at.value]
  {
    var i := from;
    while i < |data| && data[i] != NEWLINE
      invariant from <= i <= |data| && NEWLINE !in data[from..i]
    {
      assert data[from..i + 1] == data[from..i] + [data[i]];
      i := i + 1;
    }
    if i == |data| {
      assert data[from..i] == data[from..];
      return None;
    }
    at := Some(i);
  }

  class Parser {
    var buf: array?<Byte>
    var len: nat
    const mode: Mode
    var last: Option<Text>
    var table: Table                  // the caller's array
    ghost const before: Table         // what it held before
    ghost var stream: Text            // everything received so far

    ghost predicate Sized()
      reads this
    {
      if buf == null then len == 0 else 0 < buf.Length && len <= buf.Length
    }

    ghost function Pending(): Text
      requires Sized()
      reads this, buf
    {
      if buf == null then [] else buf[..len]
    }

    /** The state is the newline split of the stream, however it was cut into chunks. */
    ghost predicate Valid()
      reads this, buf
    {
      && Sized() && Pending() == Tail(stream)
      && var lines := StripAll(Lines(stream));
         if mode.Array? then table == AppendAll(before, lines) else last == LastOf(lines)
    }

    constructor (mode: Mode, before: Table)
      ensures Valid() && this.mode == mode && this.before == before && stream == [] && buf == null
    {
      buf, len := null, 0;
      this.mode, this.before := mode, before;
      last, table := None, before;
      stream := [];
    }

    /** Room for `needed` bytes: 8 KB or what is needed at first, then doubling. */
    method Reserve(needed: nat)
      requires Sized() && needed > 0
      modifies this`buf
      ensures Sized() && buf != null && needed <= buf.Length && Pending() == old(Pending())
      ensures buf == old(buf) || fresh(buf)
    {
      if buf == null {
        buf := new Byte[if INITIAL_CAPACITY > needed then INITIAL_CAPACITY else needed];
      } else if needed > buf.Length {
        var capacity := buf.Length;
        while capacity < needed
          invariant capacity >= buf.Length
          decreases needed - capacity
        {
          capacity := capacity * 2;
        }
        var bigger := new Byte[capacity];
        forall i | 0 <= i < len {
          bigger[i] := buf[i];
        }
        assert bigger[..len] == buf[..len];
        buf := bigger;
      }
    }

    method Append(data: Text)
      requires Sized()
      modifies this`buf, this`len, buf
      ensures Sized() && Pending() == old(Pending()) + data
      ensures buf == old(buf) || fresh(buf)
    {
      if |data| == 0 {
        return;
      }
      Reserve(len + |data|);
      forall i | 0 <= i < |data| {
        buf[len + i] := data[i];
      }
      len := len + |data|;
    }

    /** One complete line: the array grows, or the last line is replaced. */
    method Emit(line: Text)
      modifies this`last, this`table
      ensures if mode.Array? then table == ExecArray.Append(old(table), Strip(line)) && last == old(last)
              else last == Some(Strip(line)) && table == old(table)
    {
      var stripped := StripTrailing(line);
      if mode.Array? {
        table := ExecArray.Append(table, stripped);
      } else {
        last := Some(stripped);
      }
    }

    /** The pending text and one more segment make a line. */
    method Combine(segment: Text)
      requires Sized()
      modifies this`buf, this`len, this`last, this`table, buf
      ensures Sized() && len == 0 && (buf == old(buf) || fresh(buf))
      ensures var line := Strip(old(Pending()) + segment);
              if mode.Array? then table == ExecArray.Append(old(table), line) && last == old(last)
              else last == Some(line) && table == old(table)
    {
      if len > 0 {
        Append(segment);
        Emit(buf[..len]);
        len := 0;
      } else {
        assert Pending() + segment == segment;
        Emit(segment);
      }
    }

    /** One segment that ended in a newline. */
    method EndLine(segment: Text)
      requires Valid() && NEWLINE !in segment
      modifies this, buf
      ensures Valid() && stream == old(stream) + segment + [NEWLINE] && (buf == old(buf) || fresh(buf))
    {
      LineDone(stream, segment);
      Combine(segment);
      stream := stream + segment + [NEWLINE];
    }

    /** A segment without a newline waits for the rest of its line. */
    method KeepRest(rest: Text)
      requires Valid() && NEWLINE !in rest
      modifies this, buf
      ensures Valid() && stream == old(stream) + rest && (buf == old(buf) || fresh(buf))
    {
      TailGrows(stream, rest);
      Append(rest);
      stream := stream + rest;
    }

    /** The complete lines of a chunk; what follows the last newline starts at `start`. */
    method ProcessLines(data: Text) returns (start: nat)
      requires Valid()
      modifies this, buf
      ensures start <= |data| && NEWLINE !in data[start..]
      ensures Valid() && stream == old(stream) + data[..start] && (buf == old(buf) || fresh(buf))
    {
      start := 0;
      assert data[..0] == [] && stream + [] == stream;
      var at := FindNewline(data, start);
      while at.Some?
        invariant 0 <= start <= |data| && Valid() && stream == old(stream) + data[..start]
        invariant at.None? ==> NEWLINE !in data[start..]
        invariant at.Some? ==> start <= at.value < |data| && data[at.value] == NEWLINE
        invariant at.Some? ==> NEWLINE !in data[start..at.value]
        invariant buf == old(buf) || fresh(buf)
        decreases |data| - start, if at.Some? then 1 else 0
      {
        EndLine(data[start..at.value]);
        Segments(old(stream), data, start, at.value);
        start := at.value + 1;
        at := FindNewline(data, start);
      }
    }

    /** A chunk of whatever size, wherever it was cut. */
    method ProcessChunk(data: Text)
      requires Valid()
      modifies this, buf
      ensures Valid() && stream == old(stream) + data && (buf == old(buf) || fresh(buf))
    {
      var start := ProcessLines(data);
      Whole(old(stream), data, start);
      if start < |data| {
        KeepRest(data[start..]);
      }
    }

    /** The final flush: the unfinished line counts as the last one, in the array and in what is
        returned; without one the array's element one below its count is looked up. */
    method Finish() returns (result: Cell, all: Table)
      requires Valid()
      ensures mode.LastLine? ==> result == Line(FinalLine(stream))
      ensures mode.Array? ==> all == AppendAll(before, FinalLines(stream)) && result == ArrayResult(before, stream)
    {
      all := table;
      if len > 0 {
        var line := StripTrailing(buf[..len]);
        all := ExecArray.Append(all, line);
        result := Line(line);
        ghost var lines := StripAll(Lines(stream));
        assert FinalLines(stream) == lines + [line] && (lines + [line])[..|lines|] == lines;
      } else if mode.Array? {
        result := Reported(all);
        assert FinalLines(stream) == StripAll(Lines(stream));
      } else {
        result := Line(if last.Some? then last.value else []);
        assert FinalLines(stream) == StripAll(Lines(stream));
      }
    }
  }

  // --------------------------------------------------------------- what the results come to

  lemma LineDone(stream: Text, segment: Text)
    requires NEWLINE !in segment
    ensures var line := Tail(stream) + segment;
            && StripAll(Lines(stream + segment + [NEWLINE])) == StripAll(Lines(stream)) + [Strip(line)]
            && Tail(stream + segment + [NEWLINE]) == []
  {
    var line := Tail(stream) + segment;
    SplitGlues(stream);
    Assoc(stream, segment, [NEWLINE]);
    SplitAppend(stream, segment + [NEWLINE]);
    Assoc(Tail(stream), segment, [NEWLINE]);
    OneLine(line);
    StripAllAppend(Lines(stream), [line]);
  }

  lemma OneLine(line: Text)
    requires NEWLINE !in line
    ensures Lines(line + [NEWLINE]) == [line] && Tail(line + [NEWLINE]) == [] && StripAll([line]) == [Strip(line)]
  {
    assert Glue([line]) + [] == line + [NEWLINE];
    SplitIsUnique([line], []);
  }

  lemma Segments(stream: Text, data: Text, start: nat, at: nat)
    requires start <= at < |data| && data[at] == NEWLINE
    ensures stream + data[..start] + data[start..at] + [NEWLINE] == stream + data[..at + 1]
  {
    assert data[..at + 1] == data[..start] + data[start..at] + [NEWLINE];
  }

  lemma Whole(stream: Text, data: Text, start: nat)
    requires start <= |data|
    ensures stream + data[..start] + data[start..] == stream + data
    ensures start == |data| ==> stream + data[..start] == stream + data
  {
    assert data == data[..start] + data[start..];
  }

  lemma TailGrows(stream: Text, rest: Text)
    requires NEWLINE !in rest
    ensures Lines(stream + rest) == Lines(stream) && Tail(stream + rest) == Tail(stream) + rest
  {
    SplitGlues(stream);
    SplitAppend(stream, rest);
  }

  function Concat(chunks: seq<Text>): Text {
    if chunks == [] then [] else Concat(chunks[..|chunks| - 1]) + chunks[|chunks| - 1]
  }

  /** A whole run: however the output was cut into chunks, the results are those of the output
      in one piece. */
  method ParseChunks(mode: Mode, before: Table, chunks: seq<Text>) returns (result: Cell, all: Table)
    ensures mode.LastLine? ==> result == Line(FinalLine(Concat(chunks)))
    ensures mode.Array? ==> all == AppendAll(before, FinalLines(Concat(chunks)))
    ensures mode.Array? ==> result == ArrayResult(before, Concat(chunks))
  {
    var parser := new Parser(mode, before);
    var i := 0;
    while i < |chunks|
      invariant 0 <= i <= |chunks| && parser.Valid() && parser.stream == Concat(chunks[..i])
      invariant fresh(parser) && (parser.buf == null || fresh(parser.buf))
      invariant parser.mode == mode && parser.before == before
    {
      assert chunks[..i + 1][..i] == chunks[..i];
      parser.ProcessChunk(chunks[i]);
      i := i + 1;
    }
    assert chunks[..i] == chunks;
    result, all := parser.Finish();
  }
}
