/** The buffer abstraction `i_log_buffer` as a state machine over the history
    of calls made on it, and the call sequence one logger engine produces. */
module Trace {
  import opened Formatting

  /** The file `file_buff::open` opens, whatever name the buffer was built with. */
  const LogPath: string := "log.txt"

  /** The buffer variants: `console_buff`, and `file_buff` with the name given
      to its constructor (stored but never used). */
  datatype BufferKind = Console | File(fname: string)

  /** One call on a buffer: `open()`, `write(text)` or `close()`. */
  datatype Call = Opened | Wrote(text: string) | Closed

  /** What a buffer's calls can observe: whether the stream is attached to its
      output, whether the stream is in a failed state (`ofstream`'s failbit or
      badbit, under which every insertion is dropped), the file last opened
      ("" while none has been), and the chunks that reached the output (stdout
      or the file), in order. */
  datatype BufferState = BufferState(isOpen: bool, failed: bool, openedPath: string, written: seq<string>)

  /** A fresh buffer: the console is always writable, a file stream starts
      closed and in the good state. */
  function Initial(kind: BufferKind): BufferState
  {
    BufferState(kind.Console?, false, "", [])
  }

  /** The effect of one call.
      Console open/close are no-ops and console writes always go through.
      File open: on a stream that is already open, `ofstream::open` fails and
      sets failbit; otherwise it attaches the stream to `LogPath` and clears
      the state. File close: closes an open stream, keeping its state; on a
      closed stream it fails and sets failbit. A write reaches the output,
      verbatim, only on an open stream in the good state; otherwise nothing
      is written, and inserting characters into a closed stream sets badbit. */
  function Step(kind: BufferKind, st: BufferState, c: Call): (next: BufferState)
    ensures st.written <= next.written
    ensures next.written != st.written ==> c.Wrote? && next.written == st.written + [c.text]
    ensures c.Wrote? && st.isOpen && !st.failed ==> next.written == st.written + [c.text]
    ensures kind.Console? && st.isOpen && !st.failed ==> next.isOpen && !next.failed
    ensures kind.File? && c.Opened? ==> next.isOpen && next.failed == st.isOpen
    ensures kind.File? && c.Closed? ==> !next.isOpen
    ensures next.openedPath == st.openedPath || next.openedPath == LogPath
  {
    match c
    case Opened =>
      if kind.Console? then st
      else if st.isOpen then st.(failed := true)
      else st.(isOpen := true, failed := false, openedPath := LogPath)
    case Wrote(text) =>
      if st.isOpen && !st.failed then st.(written := st.written + [text])
      else st.(failed := st.failed || (!st.isOpen && text != ""))
    case Closed =>
      if kind.Console? then st
      else if st.isOpen then st.(isOpen := false)
      else st.(failed := true)
  }

  /** The state reached from `st` by the calls in order. */
  function Replay(kind: BufferKind, st: BufferState, calls: seq<Call>): BufferState
  {
    if calls == [] then st
    else Step(kind, Replay(kind, st, calls[..|calls| - 1]), calls[|calls| - 1])
  }

  /** Each line in its output form. */
  function Formatted(f: Formatter, lines: seq<string>): seq<string>
  {
    seq(|lines|, i requires 0 <= i < |lines| => Format(f, lines[i]))
  }

  /** The buffer writes a logger engine issues for `lines`, one per `log` call. */
  function Writes(f: Formatter, lines: seq<string>): (ws: seq<Call>)
    ensures |ws| == |lines|
    ensures forall i :: 0 <= i < |ws| ==> ws[i].Wrote?
  {
    if lines == [] then []
    else Writes(f, lines[..|lines| - 1]) + [Wrote(Format(f, lines[|lines| - 1]))]
  }

  /** Everything one engine does to its buffer: open on construction, one
      write per logged line, and close on destruction once `closed`. */
  function Session(f: Formatter, lines: seq<string>, closed: bool): (s: seq<Call>)
    ensures |s| == |lines| + if closed then 2 else 1
    ensures s[0] == Opened
    ensures closed <==> s[|s| - 1] == Closed
  {
    [Opened] + Writes(f, lines) + (if closed then [Closed] else [])
  }

  /** A call history that opens first, then only writes, and closes at most
      once, as its last call. */
  predicate WellBracketed(calls: seq<Call>)
  {
    |calls| > 0 && calls[0] == Opened &&
    forall i :: 0 < i < |calls| ==> calls[i].Wrote? || (calls[i] == Closed && i == |calls| - 1)
  }

  /** The i-th write of an engine carries exactly the i-th line, formatted. */
  lemma {:induction false} WritesAt(f: Formatter, lines: seq<string>)
    ensures forall i :: 0 <= i < |lines| ==> Writes(f, lines)[i] == Wrote(Format(f, lines[i]))
  {
    if lines != [] {
      var init := lines[..|lines| - 1];
      WritesAt(f, init);
      forall i | 0 <= i < |lines| ensures Writes(f, lines)[i] == Wrote(Format(f, lines[i])) {
        if i < |init| {
          assert lines[i] == init[i];
        }
      }
    }
  }

  /** Every write an engine issues lands after its open and, once it is
      destroyed, before its close; the history holds nothing else. */
  lemma SessionBracketed(f: Formatter, lines: seq<string>, closed: bool)
    ensures WellBracketed(Session(f, lines, closed))
    ensures forall i :: 0 <= i < |lines| ==> Session(f, lines, closed)[i + 1] == Wrote(Format(f, lines[i]))
  {
    WritesAt(f, lines);
    var ws := Writes(f, lines);
    var tail: seq<Call> := if closed then [Closed] else [];
    var s := Session(f, lines, closed);
    assert s == [Opened] + ws + tail;
    assert forall i :: 0 < i <= |lines| ==> s[i] == ws[i - 1];
    assert forall i :: |lines| < i < |s| ==> s[i] == tail[i - |lines| - 1];
    forall i | 0 <= i < |lines| ensures s[i + 1] == Wrote(Format(f, lines[i])) {
      assert s[i + 1] == ws[i];
    }
  }

  /** Replaying two histories one after the other is replaying their concatenation. */
  lemma {:induction false} ReplayAppend(kind: BufferKind, st: BufferState, a: seq<Call>, b: seq<Call>)
    ensures Replay(kind, st, a + b) == Replay(kind, Replay(kind, st, a), b)
  {
    if b == [] {
      assert a + b == a;
    } else {
      var init := b[..|b| - 1];
      assert (a + b)[..|a + b| - 1] == a + init;
      assert (a + b)[|a + b| - 1] == b[|b| - 1];
      ReplayAppend(kind, st, a, init);
    }
  }

  /** The engine's writes on an open buffer in the good state append each
      formatted line verbatim and in order, and change nothing else. */
  lemma {:induction false} ReplayWrites(kind: BufferKind, st: BufferState, f: Formatter, lines: seq<string>)
    requires st.isOpen && !st.failed
    ensures Replay(kind, st, Writes(f, lines)) == st.(written := st.written + Formatted(f, lines))
  {
    if lines != [] {
      var init := lines[..|lines| - 1];
      var last := Format(f, lines[|lines| - 1]);
      var w := Writes(f, init);
      assert Writes(f, lines) == w + [Wrote(last)];
      ReplayAppend(kind, st, w, [Wrote(last)]);
      ReplayWrites(kind, st, f, init);
      assert Formatted(f, lines) == Formatted(f, init) + [last];
      assert Replay(kind, Replay(kind, st, w), [Wrote(last)])
          == Step(kind, Replay(kind, st, w), Wrote(last));
    }
  }

  /** On an open stream in a failed state the engine's writes are all lost:
      the buffer does not change at all. */
  lemma {:induction false} ReplayWritesLost(kind: BufferKind, st: BufferState, f: Formatter, lines: seq<string>)
    requires st.isOpen && st.failed
    ensures Replay(kind, st, Writes(f, lines)) == st
  {
    if lines != [] {
      var init := lines[..|lines| - 1];
      var last := Format(f, lines[|lines| - 1]);
      var w := Writes(f, init);
      assert Writes(f, lines) == w + [Wrote(last)];
      ReplayAppend(kind, st, w, [Wrote(last)]);
      ReplayWritesLost(kind, st, f, init);
      assert Replay(kind, Replay(kind, st, w), [Wrote(last)])
          == Step(kind, Replay(kind, st, w), Wrote(last));
    }
  }

  /** Nothing closes the console or puts it in a failed state. */
  lemma {:induction false} ConsoleStaysOpen(st: BufferState, calls: seq<Call>)
    requires st.isOpen && !st.failed
    ensures Replay(Console, st, calls).isOpen && !Replay(Console, st, calls).failed
  {
    if calls != [] {
      ConsoleStaysOpen(st, calls[..|calls| - 1]);
    }
  }

  /** What an engine's session does to a buffer that starts in any reachable
      state. If the buffer is a file stream that is already open, the
      engine's open fails and every line it logs is lost; otherwise the
      output grows by exactly the logged lines, formatted, in order.
      Afterwards the buffer is open unless the engine is gone and the buffer
      is a file. */
  lemma SessionOutput(kind: BufferKind, prefix: seq<Call>, f: Formatter, lines: seq<string>, closed: bool)
    ensures var st0 := Replay(kind, Initial(kind), prefix);
            var st := Replay(kind, Initial(kind), prefix + Session(f, lines, closed));
            && st.written == st0.written + (if kind.File? && st0.isOpen then [] else Formatted(f, lines))
            && st.isOpen == (!closed || kind.Console?)
            && st.failed == (kind.File? && st0.isOpen)
  {
    var st0 := Replay(kind, Initial(kind), prefix);
    if kind.Console? {
      ConsoleStaysOpen(Initial(kind), prefix);
    }
    var ws := Writes(f, lines);
    var tail: seq<Call> := if closed then [Closed] else [];
    var st1 := Step(kind, st0, Opened);
    assert st1.isOpen && st1.failed == (kind.File? && st0.isOpen) && st1.written == st0.written;
    var st2 := Replay(kind, st1, ws);
    if st1.failed {
      ReplayWritesLost(kind, st1, f, lines);
    } else {
      ReplayWrites(kind, st1, f, lines);
    }
    assert st2.isOpen && st2.failed == st1.failed;
    assert st2.written == st0.written + (if kind.File? && st0.isOpen then [] else Formatted(f, lines));
    var st3 := Replay(kind, st2, tail);
    assert st3 == if closed then Step(kind, st2, Closed) else st2 by {
      if closed {
        assert tail[..|tail| - 1] == [] && tail[|tail| - 1] == Closed;
        assert Replay(kind, st2, tail) == Step(kind, Replay(kind, st2, []), Closed);
      } else {
        assert tail == [];
      }
    }
    assert Session(f, lines, closed) == [Opened] + (ws + tail);
    calc {
      Replay(kind, Initial(kind), prefix + Session(f, lines, closed));
      { ReplayAppend(kind, Initial(kind), prefix, Session(f, lines, closed)); }
      Replay(kind, st0, [Opened] + (ws + tail));
      { ReplayAppend(kind, st0, [Opened], ws + tail);
        assert [Opened][..0] == []; }
      Replay(kind, st1, ws + tail);
      { ReplayAppend(kind, st1, ws, tail); }
      st3;
    }
  }

  /** Re-opening an open file stream loses every later write: after
      `open(); open(); write(line)` nothing has reached the file. */
  lemma ReopenLosesWrites(fname: string, line: string)
    ensures Replay(File(fname), Initial(File(fname)), [Opened, Opened, Wrote(line)]).written == []
    ensures Replay(File(fname), Initial(File(fname)), [Opened, Wrote(line)]).written == [line]
  {
    var k := File(fname);
    var s0 := Initial(k);
    var s1 := Step(k, s0, Opened);
    assert [Opened][..0] == [];
    assert Replay(k, s0, [Opened]) == s1;
    assert [Opened, Opened][..1] == [Opened];
    assert Replay(k, s0, [Opened, Opened]) == Step(k, s1, Opened);
    assert [Opened, Opened, Wrote(line)][..2] == [Opened, Opened];
    assert [Opened, Wrote(line)][..1] == [Opened];
  }

  /** The name a file buffer was built with is never used: any history has
      the same effect whatever the name. */
  lemma {:induction false} FileNameIgnored(a: string, b: string, st: BufferState, calls: seq<Call>)
    ensures Replay(File(a), st, calls) == Replay(File(b), st, calls)
  {
    if calls != [] {
      FileNameIgnored(a, b, st, calls[..|calls| - 1]);
    }
  }
}
