/**
 * Newline-delimited framing of the chat response stream, as done by the read loop of the
 * chat widget: every chunk is appended to a text buffer, the buffer is split on line feeds,
 * the last piece becomes the new buffer and every earlier piece is a complete line.
 */
module Framing {

  /** The received text, chunk after chunk. */
  function Concat(chunks: seq<string>): string
  {
    if chunks == [] then "" else Concat(chunks[..|chunks| - 1]) + chunks[|chunks| - 1]
  }

  /** Each of `lines` followed by a line feed, one after the other. */
  function Terminated(lines: seq<string>): string
  {
    if lines == [] then "" else lines[0] + "\n" + Terminated(lines[1..])
  }

  /** No element of `lines` holds a line feed. */
  predicate NoNewlines(lines: seq<string>)
  {
    forall k :: 0 <= k < |lines| ==> '\n' !in lines[k]
  }

  lemma {:induction false} TerminatedAppend(a: seq<string>, b: seq<string>)
    ensures Terminated(a + b) == Terminated(a) + Terminated(b)
    decreases |a|
  {
    if a == [] {
      assert a + b == b;
    } else {
      assert (a + b)[1..] == a[1..] + b;
      TerminatedAppend(a[1..], b);
    }
  }

  lemma {:induction false} TerminatedCons(line: string, lines: seq<string>)
    ensures Terminated([line] + lines) == line + "\n" + Terminated(lines)
  {
    assert ([line] + lines)[1..] == lines;
  }

  /** The position of the first line feed of `s`. */
  function FirstNewline(s: string): (i: nat)
    requires '\n' in s
    ensures i < |s| && s[i] == '\n'
    ensures '\n' !in s[..i]
  {
    if s[0] == '\n' then 0
    else
      assert s == [s[0]] + s[1..];
      var j := FirstNewline(s[1..]);
      assert s[..1 + j] == [s[0]] + s[1..][..j];
      1 + j
  }

  lemma {:induction false} FirstNewlineAfter(x: string, y: string)
    requires '\n' !in x
    ensures '\n' in x + "\n" + y
    ensures FirstNewline(x + "\n" + y) == |x|
  {
    var t := x + "\n" + y;
    assert t[|x|] == '\n';
    var i := FirstNewline(t);
  }

  /** `s.split('\n')`: the pieces of `s` between line feeds; there is always at least one. */
  function Split(s: string): (pieces: seq<string>)
    ensures |pieces| >= 1
    ensures NoNewlines(pieces)
    ensures Terminated(pieces[..|pieces| - 1]) + pieces[|pieces| - 1] == s
    decreases |s|
  {
    if '\n' !in s then [s]
    else
      var i := FirstNewline(s);
      var rest := Split(s[i + 1..]);
      SplitJoin(s, i, rest);
      [s[..i]] + rest
  }

  /** The first piece, its line feed and the pieces of the rest put back together are `s`. */
  lemma {:induction false} SplitJoin(s: string, i: nat, rest: seq<string>)
    requires i < |s| && s[i] == '\n' && '\n' !in s[..i]
    requires |rest| >= 1 && NoNewlines(rest)
    requires Terminated(rest[..|rest| - 1]) + rest[|rest| - 1] == s[i + 1..]
    ensures NoNewlines([s[..i]] + rest)
    ensures var pieces := [s[..i]] + rest;
            Terminated(pieces[..|pieces| - 1]) + pieces[|pieces| - 1] == s
  {
    var pieces := [s[..i]] + rest;
    assert pieces[..|pieces| - 1] == [s[..i]] + rest[..|rest| - 1];
    TerminatedCons(s[..i], rest[..|rest| - 1]);
    assert s == s[..i] + "\n" + s[i + 1..];
    forall k | 0 <= k < |pieces| ensures '\n' !in pieces[k] {
      if k > 0 { assert pieces[k] == rest[k - 1]; }
    }
  }

  /** A line free of line feeds, then a line feed: split hands it out first. */
  lemma {:induction false} SplitAfterNewline(line: string, rest: string)
    requires '\n' !in line
    ensures Split(line + "\n" + rest) == [line] + Split(rest)
  {
    var t := line + "\n" + rest;
    FirstNewlineAfter(line, rest);
    assert t[..|line|] == line;
    assert t[|line| + 1..] == rest;
  }

  /** Splitting undoes terminating: the line-feed-free lines and the unterminated tail come back. */
  lemma {:induction false} SplitTerminated(lines: seq<string>, tail: string)
    requires NoNewlines(lines) && '\n' !in tail
    ensures Split(Terminated(lines) + tail) == lines + [tail]
    decreases |lines|
  {
    if lines == [] {
      assert Terminated(lines) + tail == tail;
    } else {
      assert lines == [lines[0]] + lines[1..];
      assert '\n' !in lines[0];
      SplitTerminated(lines[1..], tail);
      SplitTerminatedStep(lines[0], lines[1..], tail);
      assert [lines[0]] + (lines[1..] + [tail]) == lines + [tail];
    }
  }

  lemma {:induction false} SplitTerminatedStep(line: string, lines: seq<string>, tail: string)
    requires '\n' !in line
    ensures Split(Terminated([line] + lines) + tail) == [line] + Split(Terminated(lines) + tail)
  {
    TerminatedConsTail(line, lines, tail);
    SplitAfterNewline(line, Terminated(lines) + tail);
  }

  lemma TerminatedConsTail(line: string, lines: seq<string>, tail: string)
    ensures Terminated([line] + lines) + tail == line + "\n" + (Terminated(lines) + tail)
  {
    TerminatedCons(line, lines);
  }

  /** The lines of `text` that a line feed has closed. */
  function CompleteLines(text: string): seq<string>
  {
    var pieces := Split(text);
    pieces[..|pieces| - 1]
  }

  /** The unterminated text after the last line feed of `text`. */
  function Remainder(text: string): string
  {
    var pieces := Split(text);
    pieces[|pieces| - 1]
  }

  /** One turn of the read loop: append the chunk, split, keep the last piece as the buffer. */
  function FeedChunk(buffer: string, chunk: string): (r: (seq<string>, string))
    ensures NoNewlines(r.0) && '\n' !in r.1
    ensures Terminated(r.0) + r.1 == buffer + chunk
  {
    var pieces := Split(buffer + chunk);
    (pieces[..|pieces| - 1], pieces[|pieces| - 1])
  }

  /** Re-association of the text pieces one turn of the read loop joins. */
  lemma {:induction false} Regroup(a: string, b: string, c: string, buffer: string, chunk: string, before: string)
    requires b + c == buffer + chunk && a + buffer == before
    ensures (a + b) + c == before + chunk
  {
    calc {
      (a + b) + c;
      a + (b + c);
      a + (buffer + chunk);
      (a + buffer) + chunk;
    }
  }

  /** The complete lines handed out so far and the text held back for the next chunk. */
  datatype Framed = Framed(lines: seq<string>, buffer: string)

  /** The read loop over a sequence of chunks, starting from an empty buffer. */
  function FrameAll(chunks: seq<string>): (r: Framed)
    ensures NoNewlines(r.lines) && '\n' !in r.buffer
    ensures Terminated(r.lines) + r.buffer == Concat(chunks)
  {
    if chunks == [] then Framed([], "")
    else
      var prev := FrameAll(chunks[..|chunks| - 1]);
      var step := FeedChunk(prev.buffer, chunks[|chunks| - 1]);
      TerminatedAppend(prev.lines, step.0);
      Regroup(Terminated(prev.lines), Terminated(step.0), step.1,
              prev.buffer, chunks[|chunks| - 1], Concat(chunks[..|chunks| - 1]));
      assert NoNewlines(prev.lines + step.0) by {
        forall k | 0 <= k < |prev.lines + step.0| ensures '\n' !in (prev.lines + step.0)[k] {
          if k >= |prev.lines| { assert (prev.lines + step.0)[k] == step.0[k - |prev.lines|]; }
        }
      }
      Framed(prev.lines + step.0, step.1)
  }

  /**
   * The lines the read loop hands out, and the buffer it is left with, depend only on the
   * text received and not on where the transport cut it into chunks.
   */
  lemma {:induction false} FrameAllIsSplit(chunks: seq<string>)
    ensures FrameAll(chunks) == Framed(CompleteLines(Concat(chunks)), Remainder(Concat(chunks)))
  {
    var f := FrameAll(chunks);
    SplitTerminated(f.lines, f.buffer);
  }

  /** Two chunkings of the same text frame to the same lines and the same buffer. */
  lemma {:induction false} ChunkingInvariance(chunks1: seq<string>, chunks2: seq<string>)
    requires Concat(chunks1) == Concat(chunks2)
    ensures FrameAll(chunks1) == FrameAll(chunks2)
  {
    FrameAllIsSplit(chunks1);
    FrameAllIsSplit(chunks2);
  }

  /** Text after the last line feed never becomes a line: only terminated lines are handed out. */
  lemma {:induction false} UnterminatedTailNeverFramed(lines: seq<string>, tail: string)
    requires NoNewlines(lines) && '\n' !in tail
    ensures CompleteLines(Terminated(lines) + tail) == lines
    ensures Remainder(Terminated(lines) + tail) == tail
  {
    SplitTerminated(lines, tail);
    assert (lines + [tail])[..|lines|] == lines;
  }

  /** The number of line feeds in `t`. */
  function NewlineCount(t: string): nat
  {
    if t == [] then 0 else (if t[0] == '\n' then 1 else 0) + NewlineCount(t[1..])
  }

  lemma {:induction false} NewlineCountAppend(a: string, b: string)
    ensures NewlineCount(a + b) == NewlineCount(a) + NewlineCount(b)
    decreases |a|
  {
    if a != [] {
      assert (a + b)[1..] == a[1..] + b;
      NewlineCountAppend(a[1..], b);
    } else {
      assert a + b == b;
    }
  }

  lemma {:induction false} NoNewlineCount(t: string)
    requires '\n' !in t
    ensures NewlineCount(t) == 0
    decreases |t|
  {
    if t != [] {
      assert t[0] in t;
      assert forall c :: c in t[1..] ==> c in t;
      NoNewlineCount(t[1..]);
    }
  }

  lemma TakeCons(lines: seq<string>, k: nat)
    requires k < |lines|
    ensures [lines[0]] + lines[1..][..k] == lines[..k + 1]
  {
  }

  /** A line followed by a line feed is split off whole from whatever follows. */
  lemma {:induction false} SplitAfterLine(line: string, rest: string)
    requires '\n' !in line
    ensures CompleteLines(line + "\n" + rest) == [line] + CompleteLines(rest)
  {
    SplitAfterNewline(line, rest);
    var pieces := Split(line + "\n" + rest);
    assert pieces[..|pieces| - 1] == [line] + Split(rest)[..|Split(rest)| - 1];
  }

  /** A cut inside the first line leaves nothing framed. */
  lemma {:induction false} CutInsideLine(line: string, t: string)
    requires '\n' !in line
    requires |t| <= |line| && t == line[..|t|]
    ensures NewlineCount(t) == 0
    ensures CompleteLines(t) == []
  {
    assert '\n' !in t by {
      assert forall k :: 0 <= k < |t| ==> t[k] == line[k];
    }
    NoNewlineCount(t);
    assert Split(t) == [t];
  }

  /** A cut past the first line's line feed is that line, the line feed, and a cut of the rest. */
  lemma CutAfterLine(line: string, rest: string, t: string)
    requires |line| < |t| <= |line + "\n" + rest| && t == (line + "\n" + rest)[..|t|]
    ensures t == line + "\n" + t[|line| + 1..]
    ensures t[|line| + 1..] == rest[..|t| - |line| - 1]
  {
  }

  lemma {:induction false} CountAfterLine(line: string, after: string)
    requires '\n' !in line
    ensures NewlineCount(line + "\n" + after) == 1 + NewlineCount(after)
  {
    assert line + "\n" + after == line + ("\n" + after);
    NewlineCountAppend(line, "\n" + after);
    NewlineCountAppend("\n", after);
    NoNewlineCount(line);
    assert NewlineCount("\n") == 1;
  }

  /**
   * A stream cut anywhere: any prefix of terminated lines frames to exactly the lines whose
   * line feed arrived, one line per line feed received, and nothing of the line cut short.
   */
  lemma {:induction false} PrefixFramesArrivedLines(lines: seq<string>, t: string)
    requires NoNewlines(lines)
    requires |t| <= |Terminated(lines)| && t == Terminated(lines)[..|t|]
    ensures NewlineCount(t) <= |lines|
    ensures CompleteLines(t) == lines[..NewlineCount(t)]
    decreases |lines|
  {
    if lines == [] {
      assert t == "";
    } else {
      var line := lines[0];
      var rest := Terminated(lines[1..]);
      assert lines == [line] + lines[1..];
      TerminatedCons(line, lines[1..]);
      assert Terminated(lines) == line + "\n" + rest;
      if |t| <= |line| {
        assert t == line[..|t|];
        CutInsideLine(line, t);
      } else {
        var after := t[|line| + 1..];
        CutAfterLine(line, rest, t);
        PrefixFramesArrivedLines(lines[1..], after);
        SplitAfterLine(line, after);
        CountAfterLine(line, after);
        TakeCons(lines, NewlineCount(after));
      }
    }
  }
}
