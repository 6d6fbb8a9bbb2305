/**
 The line parser for the output of a child process: chunks of any size come in, lines without
 their trailing white space go out, and what follows the last newline waits in a buffer.
 */
module ExecLines {

  type Byte = b: int | 0 <= b < 256

  type Text = seq<Byte>

  const NEWLINE: Byte := 10

  const INITIAL_CAPACITY: nat := 8192

  /** isspace() in the C locale. */
  predicate IsSpace(b: Byte) { b == 32 || 9 <= b <= 13 }

  // ------------------------------------------------------------------------ the specification

  /** The complete lines of a stream, and what follows its last newline. */
  function Lines(stream: Text): seq<Text> {
    if NEWLINE !in stream then []
    else [stream[..Newline(stream)]] + Lines(stream[Newline(stream) + 1..])
  }

  function Tail(stream: Text): Text {
    if NEWLINE !in stream then stream else Tail(stream[Newline(stream) + 1..])
  }

  /** Where the first newline stands. */
  function Newline(stream: Text): (i: nat)
    requires NEWLINE in stream
    ensures i < |stream| && stream[i] == NEWLINE && NEWLINE !in stream[..i]
  {
    if stream[0] == NEWLINE then 0
    else
      var i := 1 + Newline(stream[1..]);
      assert stream[..i] == [stream[0]] + stream[1..][..i - 1];
      i
  }

  function Strip(line: Text): Text {
    if line != [] && IsSpace(line[|line| - 1]) then Strip(line[..|line| - 1]) else line
  }

  function StripAll(lines: seq<Text>): seq<Text> {
    if lines == [] then [] else [Strip(lines[0])] + StripAll(lines[1..])
  }

  /** The lines glued together again, each with its newline. */
  function Glue(lines: seq<Text>): Text {
    if lines == [] then [] else lines[0] + [NEWLINE] + Glue(lines[1..])
  }

  predicate NoNewlines(lines: seq<Text>) { forall i :: 0 <= i < |lines| ==> NEWLINE !in lines[i] }

  lemma Assoc(a: Text, b: Text, c: Text)
    ensures a + b + c == a + (b + c)
  {
  }

  lemma GlueFirst(line: Text, lines: seq<Text>, tail: Text)
    ensures Glue([line] + lines) + tail == line + [NEWLINE] + (Glue(lines) + tail)
  {
    assert ([line] + lines)[1..] == lines;
    Assoc(line + [NEWLINE], Glue(lines), tail);
  }

  lemma CutAt(stream: Text, i: nat)
    requires i < |stream|
    ensures stream == stream[..i] + [stream[i]] + stream[i + 1..]
  {
  }

  lemma {:induction false} GluesBack(stream: Text)
    ensures Glue(Lines(stream)) + Tail(stream) == stream
  {
    if NEWLINE in stream {
      var i := Newline(stream);
      var rest := stream[i + 1..];
      GluesBack(rest);
      GlueFirst(stream[..i], Lines(rest), Tail(rest));
      CutAt(stream, i);
    }
  }

  /** Splitting loses nothing, and no line holds a newline ... */
  lemma {:induction false} SplitGlues(stream: Text)
    ensures Glue(Lines(stream)) + Tail(stream) == stream
    ensures NoNewlines(Lines(stream)) && NEWLINE !in Tail(stream)
  {
    if NEWLINE in stream {
      SplitGlues(stream[Newline(stream) + 1..]);
    }
    GluesBack(stream);
  }

  lemma FirstNewline(line: Text, rest: Text)
    requires NEWLINE !in line
    ensures NEWLINE in line + [NEWLINE] + rest && Newline(line + [NEWLINE] + rest) == |line|
  {
    var all := line + [NEWLINE] + rest;
    assert all[|line|] == NEWLINE;
    var i := Newline(all);
    assert forall j :: 0 <= j < |line| ==> all[j] == line[j] && line[j] in line;
    assert forall j :: 0 <= j < i ==> all[..i][j] == all[j] && all[j] != NEWLINE;
  }

  /** ... and there is only one way to do it. */
  lemma {:induction false} SplitIsUnique(lines: seq<Text>, tail: Text)
    requires NoNewlines(lines) && NEWLINE !in tail
    ensures Lines(Glue(lines) + tail) == lines && Tail(Glue(lines) + tail) == tail
  {
    if lines == [] {
      assert Glue(lines) + tail == tail;
    } else {
      var rest := Glue(lines[1..]) + tail;
      assert Glue(lines) + tail == lines[0] + [NEWLINE] + rest;
      FirstNewline(lines[0], rest);
      SplitIsUnique(lines[1..], tail);
      var all := lines[0] + [NEWLINE] + rest;
      assert all[..|lines[0]|] == lines[0] && all[|lines[0]| + 1..] == rest;
    }
  }

  lemma {:induction false} GlueAppend(a: seq<Text>, b: seq<Text>)
    ensures Glue(a + b) == Glue(a) + Glue(b)
  {
    if a == [] {
      assert a + b == b;
    } else {
      assert (a + b)[1..] == a[1..] + b;
      GlueAppend(a[1..], b);
    }
  }

  /** What came before a point matters only through its unfinished line. */
  lemma SplitAppend(a: Text, b: Text)
    ensures Lines(a + b) == Lines(a) + Lines(Tail(a) + b)
    ensures Tail(a + b) == Tail(Tail(a) + b)
  {
    var c := Tail(a) + b;
    SplitGlues(a);
    SplitGlues(c);
    var lines := Lines(a) + Lines(c);
    GlueAppend(Lines(a), Lines(c));
    Assoc(Glue(Lines(a)), Glue(Lines(c)), Tail(c));
    Assoc(Glue(Lines(a)), Tail(a), b);
    SplitIsUnique(lines, Tail(c));
  }

  lemma {:induction false} StripAllAppend(a: seq<Text>, b: seq<Text>)
    ensures StripAll(a + b) == StripAll(a) + StripAll(b)
  {
    if a == [] {
      assert a + b == b;
    } else {
      assert (a + b)[1..] == a[1..] + b;
      StripAllAppend(a[1..], b);
    }
  }

  /** Stripping takes off white space only, and all there is at the end. */
  lemma {:induction false} StripIs(line: Text)
    ensures Strip(line) <= line
    ensures forall i :: |Strip(line)| <= i < |line| ==> IsSpace(line[i])
    ensures Strip(line) != [] ==> !IsSpace(Strip(line)[|Strip(line)| - 1])
  {
    if line != [] && IsSpace(line[|line| - 1]) {
      StripIs(line[..|line| - 1]);
    }
  }
}
