/** `logger_engine`: opens its buffer on construction, writes each logged
    line through the formatter, and closes the buffer on destruction. */
module Engine {
  import opened Formatting
  import opened Trace
  import opened Buffers

  class LoggerEngine {
    const buff: LogBuffer
    const format: Formatter
    /** False once the destructor (`Close`) has run. */
    var alive: bool
    /** The buffer's call history before this engine was constructed. */
    ghost const before: seq<Call>
    /** Whether the buffer was a file stream already open at construction, so
        that the engine's own open failed and its writes are all dropped. */
    ghost const reopened: bool
    /** The lines passed to `Log` so far. */
    ghost var logged: seq<string>

    /** The engine is the only user of its buffer since construction: what it
        added to the history is exactly its session. */
    ghost predicate Valid()
      reads this, buff
    {
      buff.Valid() &&
      buff.calls == before + Session(format, logged, !alive) &&
      reopened == (buff.kind.File? && Replay(buff.kind, Initial(buff.kind), before).isOpen) &&
      buff.failed == reopened &&
      (alive ==> buff.isOpen)
    }

    /** Constructing an engine opens its buffer exactly once. The open fails,
        and so every later write is lost, when the buffer is a file stream
        that is already open. */
    constructor (buff: LogBuffer, format: Formatter)
      requires buff.Valid()
      modifies buff
      ensures Valid() && alive && logged == []
      ensures this.buff == buff && this.format == format && before == old(buff.calls)
      ensures reopened == (buff.kind.File? && old(buff.isOpen)) && buff.failed == reopened
      ensures buff.calls == old(buff.calls) + [Opened]
      ensures buff.isOpen && buff.written == old(buff.written)
      ensures buff.kind.File? ==> buff.openedPath == LogPath
    {
      this.buff := buff;
      this.format := format;
      alive := true;
      before := buff.calls;
      reopened := buff.kind.File? && buff.isOpen;
      logged := [];
      new;
      buff.Open();
    }

    /** `log(line)`: exactly one buffer write, of the formatted line, which
        reaches the output unless the engine's open failed; nothing else in
        the buffer changes. */
    method Log(line: string)
      requires Valid() && alive
      modifies this`logged, buff
      ensures Valid() && logged == old(logged) + [line]
      ensures buff.calls == old(buff.calls) + [Wrote(Format(format, line))]
      ensures buff.written == old(buff.written) + if reopened then [] else [Format(format, line)]
      ensures buff.isOpen && buff.failed == reopened && buff.openedPath == old(buff.openedPath)
    {
      var text := Format(format, line);
      ghost var prev := logged;
      assert buff.calls == before + ([Opened] + Writes(format, prev));
      buff.Write(text);
      logged := logged + [line];
      assert Writes(format, logged) == Writes(format, prev) + [Wrote(text)] by {
        assert logged[..|logged| - 1] == prev;
      }
      assert buff.calls == before + ([Opened] + Writes(format, logged));
      assert Session(format, logged, false) == [Opened] + Writes(format, logged) + [];
    }

    /** The destructor: closes the buffer; the engine may not be used after. */
    method Close()
      requires Valid() && alive
      modifies this`alive, buff
      ensures Valid() && !alive && logged == old(logged)
      ensures buff.calls == old(buff.calls) + [Closed]
      ensures buff.written == old(buff.written) && buff.openedPath == old(buff.openedPath)
      ensures buff.isOpen == buff.kind.Console? && buff.failed == reopened
    {
      buff.Close();
      alive := false;
    }
  }

  /** Whatever the buffer held before the engine took it over, the engine
      has added exactly its logged lines, formatted, in order, unless its
      open failed on an already open file stream, when it has added nothing. */
  lemma EngineOutput(e: LoggerEngine)
    requires e.Valid()
    ensures e.buff.written
         == Replay(e.buff.kind, Initial(e.buff.kind), e.before).written
          + if e.reopened then [] else Formatted(e.format, e.logged)
  {
    SessionOutput(e.buff.kind, e.before, e.format, e.logged, !e.alive);
  }

  /** The demonstration driver: one console engine and one file engine each
      log "some line"; both go out of scope at the end, the file engine first.
      Returns what reached stdout, what reached the file, and the file opened. */
  method RunMain() returns (console: seq<string>, file: seq<string>, filePath: string)
    ensures console == ["some line\n"]
    ensures file == ["some line\n"]
    ensures filePath == LogPath
  {
    var cb := new LogBuffer.ConsoleBuff();
    var fb := new LogBuffer.FileBuff("log.txt");
    var l1 := new LoggerEngine(cb, Endliner);
    l1.Log("some line");
    var l2 := new LoggerEngine(fb, Endliner);
    l2.Log("some line");
    l2.Close();
    l1.Close();
    assert Format(Endliner, "some line") == "some line\n";
    console, file, filePath := cb.written, fb.written, fb.openedPath;
  }

  /** A file buffer built with any name writes to `LogPath` once an engine opens it. */
  method FileTarget(fname: string, line: string) returns (path: string, out: seq<string>)
    ensures path == LogPath
    ensures out == [line + "\n"]
  {
    var fb := new LogBuffer.FileBuff(fname);
    var l := new LoggerEngine(fb, Endliner);
    l.Log(line);
    l.Close();
    path, out := fb.openedPath, fb.written;
  }
}
