/** The log buffers `console_buff` and `file_buff`: sinks with an
    open/write/close lifecycle. One class covers both variants, told apart by
    `kind`; the output stream is the sequence `written` of chunks that reached
    stdout or the file. */
module Buffers {
  import opened Trace

  class LogBuffer {
    /** Which variant this is; for a file, the name given to the constructor. */
    const kind: BufferKind
    /** Whether a write reaches the output (for a file: the stream is open). */
    var isOpen: bool
    /** Whether the stream is in a failed state, so that writes are dropped. */
    var failed: bool
    /** The file the stream was last opened on ("" while none has been). */
    var openedPath: string
    /** The chunks written to stdout or the file, in call order. */
    var written: seq<string>
    /** Every call made on this buffer so far. */
    ghost var calls: seq<Call>

    function State(): BufferState
      reads this
    {
      BufferState(isOpen, failed, openedPath, written)
    }

    /** The buffer's state is what its call history produces from a fresh buffer. */
    ghost predicate Valid()
      reads this
    {
      State() == Replay(kind, Initial(kind), calls) &&
      (kind.Console? ==> isOpen && !failed) &&
      (kind.File? && isOpen ==> openedPath == LogPath)
    }

    /** `console_buff`: stdout needs no preparation and is always writable. */
    constructor ConsoleBuff()
      ensures Valid() && kind == Console
      ensures calls == [] && written == [] && isOpen && !failed && openedPath == ""
    {
      kind := Console;
      isOpen, failed, openedPath, written := true, false, "", [];
      calls := [];
    }

    /** `file_buff(fname)`: stores the name; the stream starts closed. */
    constructor FileBuff(fname: string)
      ensures Valid() && kind == File(fname)
      ensures calls == [] && written == [] && !isOpen && !failed && openedPath == ""
    {
      kind := File(fname);
      isOpen, failed, openedPath, written := false, false, "", [];
      calls := [];
    }

    /** `open()`: a no-op on the console. A file opens `LogPath` for
        appending, not the name it was built with; on a stream that is
        already open the open fails and the stream enters the failed state,
        otherwise a successful open clears that state. */
    method Open()
      requires Valid()
      modifies this
      ensures Valid() && calls == old(calls) + [Opened]
      ensures isOpen && written == old(written)
      ensures kind.Console? ==> !failed && openedPath == old(openedPath)
      ensures kind.File? ==> openedPath == LogPath && failed == old(isOpen)
    {
      if kind.File? {
        if isOpen {
          failed := true;
        } else {
          isOpen, failed, openedPath := true, false, LogPath;
        }
      }
      calls := calls + [Opened];
    }

    /** `write(line)`: appends the line verbatim when the stream is open and
        in the good state. Otherwise nothing is written, and inserting
        characters into a closed file stream puts it in the failed state. */
    method Write(line: string)
      requires Valid()
      modifies this
      ensures Valid() && calls == old(calls) + [Wrote(line)]
      ensures written == if old(isOpen) && !old(failed) then old(written) + [line] else old(written)
      ensures failed == (old(failed) || (!old(isOpen) && line != ""))
      ensures isOpen == old(isOpen) && openedPath == old(openedPath)
    {
      if isOpen && !failed {
        written := written + [line];
      } else {
        failed := failed || (!isOpen && line != "");
      }
      calls := calls + [Wrote(line)];
    }

    /** `close()`: a no-op on the console. A file stream is closed, keeping
        its state; closing a stream that is not open fails and puts it in the
        failed state. */
    method Close()
      requires Valid()
      modifies this
      ensures Valid() && calls == old(calls) + [Closed]
      ensures written == old(written) && openedPath == old(openedPath)
      ensures isOpen == kind.Console?
      ensures failed == (kind.File? && (old(failed) || !old(isOpen)))
    {
      if kind.File? {
        if isOpen {
          isOpen := false;
        } else {
          failed := true;
        }
      }
      calls := calls + [Closed];
    }
  }
}
