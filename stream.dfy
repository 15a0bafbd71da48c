/** What one reader thread of `run_command` sees of a pipe: the text the
    process wrote to it (already decoded, with universal newlines applied),
    consumed one `readline()` at a time until `readline()` returns ''. */
module Stream {

  /** Where `readline()` stops on a text pipe whose whole contents are
      `data`, after `pos` characters have been read: just past the next
      newline, or at the end of the data if no newline is left. At the end
      of the data it reads nothing. */
  function LineEnd(data: string, pos: nat): (e: nat)
    requires pos <= |data|
    ensures pos <= e <= |data| && (e == pos <==> pos == |data|)
    ensures forall i :: pos <= i < e - 1 ==> data[i] != '\n'
    ensures pos < e < |data| ==> data[e - 1] == '\n'
    decreases |data| - pos
  {
    if pos == |data| then pos
    else if data[pos] == '\n' then pos + 1
    else LineEnd(data, pos + 1)
  }

  /** `readline()`: the next line with its newline, or '' at the end. */
  function ReadLine(data: string, pos: nat): string
    requires pos <= |data|
  {
    data[pos..LineEnd(data, pos)]
  }

  /** The successive lengths of `total_output` in the reader loop that
      starts at `pos`: one entry per line read, each the position just
      past that line. These are the values the loop passes to the progress
      bar, in tenths (the source sets `len(total_output) / 10`). */
  function LineEnds(data: string, pos: nat): seq<nat>
    requires pos <= |data|
    decreases |data| - pos
  {
    if pos == |data| then []
    else
      var next := LineEnd(data, pos);
      [next] + LineEnds(data, next)
  }

  /** A reader sets the progress at least once exactly when its stream is
      not exhausted, and every value lies past the start and within the
      data. */
  lemma {:induction false} LineEndsBounds(data: string, pos: nat)
    requires pos <= |data|
    ensures LineEnds(data, pos) == [] <==> pos == |data|
    ensures forall i :: 0 <= i < |LineEnds(data, pos)| ==> pos < LineEnds(data, pos)[i] <= |data|
    decreases |data| - pos
  {
    if pos < |data| {
      var next := LineEnd(data, pos);
      LineEndsBounds(data, next);
    }
  }

  /** Within one reader the progress strictly increases. */
  lemma {:induction false} LineEndsIncreasing(data: string, pos: nat)
    requires pos <= |data|
    ensures forall i, j :: 0 <= i < j < |LineEnds(data, pos)| ==> LineEnds(data, pos)[i] < LineEnds(data, pos)[j]
    decreases |data| - pos
  {
    if pos < |data| {
      var next := LineEnd(data, pos);
      LineEndsBounds(data, next);
      LineEndsIncreasing(data, next);
      var ends := LineEnds(data, pos);
      assert forall i :: 1 <= i < |ends| ==> ends[i] == LineEnds(data, next)[i - 1];
    }
  }

  /** The last progress value a reader sets is the length of its stream. */
  lemma {:induction false} LineEndsLast(data: string, pos: nat)
    requires pos < |data|
    ensures LineEnds(data, pos) != [] && LineEnds(data, pos)[|LineEnds(data, pos)| - 1] == |data|
    decreases |data| - pos
  {
    var next := LineEnd(data, pos);
    if next < |data| {
      LineEndsLast(data, next);
    }
  }

  /** The lines `readline()` returns, in order, starting at `pos`. */
  function Lines(data: string, pos: nat): seq<string>
    requires pos <= |data|
    decreases |data| - pos
  {
    if pos == |data| then []
    else [ReadLine(data, pos)] + Lines(data, LineEnd(data, pos))
  }

  /** `"".join(lines)`. */
  function Concat(lines: seq<string>): string {
    if lines == [] then [] else lines[0] + Concat(lines[1..])
  }

  /** Reading line by line loses and adds nothing: the lines join back to
      the rest of the stream. */
  lemma {:induction false} LinesJoin(data: string, pos: nat)
    requires pos <= |data|
    ensures Concat(Lines(data, pos)) == data[pos..]
    decreases |data| - pos
  {
    if pos < |data| {
      var next := LineEnd(data, pos);
      LinesJoin(data, next);
      var ls := Lines(data, pos);
      assert ls[1..] == Lines(data, next);
      assert data[pos..] == data[pos..next] + data[next..];
    }
  }

  /** One progress value per line read. */
  lemma {:induction false} LinesCount(data: string, pos: nat)
    requires pos <= |data|
    ensures |Lines(data, pos)| == |LineEnds(data, pos)|
    decreases |data| - pos
  {
    if pos < |data| {
      LinesCount(data, LineEnd(data, pos));
    }
  }

  /** Each progress value is the length of `total_output` after the line
      that set it: the start position plus the length of the lines read so
      far, joined. */
  lemma {:induction false} LineEndsAreOutputLengths(data: string, pos: nat, i: nat)
    requires pos <= |data|
    requires i < |LineEnds(data, pos)|
    ensures i < |Lines(data, pos)|
    ensures LineEnds(data, pos)[i] == pos + |Concat(Lines(data, pos)[..i + 1])|
    decreases |data| - pos
  {
    LinesCount(data, pos);
    var next := LineEnd(data, pos);
    var ls := Lines(data, pos);
    assert ls[1..] == Lines(data, next);
    assert ls[..i + 1] == [ls[0]] + ls[1..][..i];
    if i > 0 {
      LineEndsAreOutputLengths(data, next, i - 1);
    } else {
      assert ls[1..][..0] == [];
    }
  }
}
