/**
 * Line framing on the transport: `emit` writes each serialised message
 * followed by one newline (index.js:63), and the receiving side splits the
 * byte stream back into lines before parsing them (index.js:21).
 */
module Framing {

  /** The text written for a sequence of serialised messages, one line each. */
  function Frame(lines: seq<string>): string
  {
    if lines == [] then "" else lines[0] + "\n" + Frame(lines[1..])
  }

  /** Writing one more line appends exactly that line and one newline. */
  lemma {:induction false} FrameAppend(lines: seq<string>, line: string)
    ensures Frame(lines + [line]) == Frame(lines) + line + "\n"
    decreases |lines|
  {
    if lines == [] {
      assert lines + [line] == [line];
      assert [line][1..] == [];
    } else {
      assert (lines + [line])[0] == lines[0];
      assert (lines + [line])[1..] == lines[1..] + [line];
      FrameAppend(lines[1..], line);
    }
  }

  /** The length of the first line of `s`: the index of its first newline, or `|s|`. */
  function LineEnd(s: string): (k: nat)
    ensures k <= |s|
    ensures '\n' !in s[..k]
    ensures k < |s| ==> s[k] == '\n'
    decreases |s|
  {
    if s == [] || s[0] == '\n' then 0 else 1 + LineEnd(s[1..])
  }

  /** A line splitter: the newline-free chunks of `s`, with a final unterminated chunk kept. */
  function Lines(s: string): seq<string>
    decreases |s|
  {
    if s == [] then []
    else
      var k := LineEnd(s);
      [s[..k]] + (if k < |s| then Lines(s[k + 1..]) else [])
  }

  /** The first line of `line + "\n" + rest` is `line` when `line` holds no newline. */
  lemma {:induction false} LineEndOfFramed(line: string, rest: string)
    requires '\n' !in line
    ensures LineEnd(line + "\n" + rest) == |line|
    decreases |line|
  {
    if line != [] {
      assert (line + "\n" + rest)[0] == line[0];
      assert (line + "\n" + rest)[1..] == line[1..] + "\n" + rest;
      LineEndOfFramed(line[1..], rest);
    }
  }

  /**
   * Splitting the framed text recovers the lines exactly, one per message,
   * provided no serialised message contains a newline of its own.
   */
  lemma {:induction false} LinesOfFrame(lines: seq<string>)
    requires forall i :: 0 <= i < |lines| ==> '\n' !in lines[i]
    ensures Lines(Frame(lines)) == lines
    decreases |lines|
  {
    if lines != [] {
      var rest := Frame(lines[1..]);
      var s := lines[0] + "\n" + rest;
      LineEndOfFramed(lines[0], rest);
      assert s[..|lines[0]|] == lines[0];
      assert s[|lines[0]| + 1..] == rest;
      LinesOfFrame(lines[1..]);
      assert lines == [lines[0]] + lines[1..];
    }
  }
}
