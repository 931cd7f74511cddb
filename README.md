# Strategy-pattern logger: a Dafny model

This project models a small C++ logging pipeline built on the strategy
pattern (`main.cpp`). It has three parts:

- **Log buffers** (`i_log_buffer`). These are sinks with an `open` / `write` /
  `close` lifecycle. The two variants are `console_buff`, which writes to
  stdout, and `file_buff`, which writes to an append-mode `ofstream`.
- **The formatter** (`i_formatter`). Its one variant, `endliner`, appends a
  newline to a line.
- **`logger_engine`**. It opens its buffer when constructed and closes it when
  destroyed. Each `log(line)` writes the formatted line to the buffer.

Dafny traits are not used. The two buffer variants are one class,
`Buffers.LogBuffer`, told apart by `kind` (`Console` or `File(fname)`). The
formatter is the datatype `Formatting.Formatter`.

A buffer holds four things:

- `isOpen`: whether the stream is attached to its output;
- `failed`: whether the stream is in a failed state (`ofstream`'s failbit or
  badbit), in which every write is dropped;
- `openedPath`: the file the stream was opened on;
- `written`: the chunks that reached stdout or the file, in order.

A ghost field `calls` records every `open`, `write` and `close` made on the
buffer. The buffer's invariant says that its state is always
`Trace.Replay` of that history from a fresh buffer. `Trace.Replay` is a fold
of the one-call transition `Trace.Step`. The engine's invariant says that,
since construction, the engine has added exactly `Trace.Session` to the
buffer's history: one open, one write per logged line, and one close once
the engine is destroyed. The C++ destructor is the method `Close`.

The behaviour follows the code:

- Console `open` and `close` do nothing, and the console is always writable.
- `file_buff::open` always opens `"log.txt"` (`Trace.LogPath`). The name given
  to the constructor is stored but never used.
- A write reaches the output only on an open stream in the good state.
- `std::ofstream` failures that change what is written are modelled. Opening a
  file stream that is already open fails and puts it in the failed state, so
  every later write is lost until it is closed and opened again; a successful
  open clears the state. Writing characters to a closed file stream, or
  closing one that is not open, also puts it in the failed state.
- Consequently an engine built over a file buffer that is already open logs
  nothing: its own open fails (`Trace.ReopenLosesWrites`).

## Model

| member | source | states |
|---|---|---|
| `Formatting.Format` | main.cpp:48-52 | the result has length \|s\|+1, has `s` as its prefix, and its last character is `'\n'` |
| `Formatting.UnformatFormat` | main.cpp:48-52 | formatting can be undone: dropping the trailing newline gives back the line |
| `Formatting.FormatUnformat` | main.cpp:48-52 | a string is the formatted form of `s` exactly when stripping its trailing newline gives `s` (both directions) |
| `Formatting.FormatInjective` | main.cpp:48-52 | two lines format to the same output if and only if they are equal |
| `Formatting.FormatTwice` | main.cpp:48-51 | formatting twice appends two newlines, so the result differs from formatting once (not idempotent) |
| `Trace.Step` | main.cpp:17-37 | the output only ever grows, by at most the written text, and only on a write; a write on an open good stream appends it verbatim; the console stays open and good; a file open leaves the stream open and failed exactly when it was already open; a file close leaves it closed |
| `Trace.Writes` | main.cpp:66-68 | an engine that logged n lines has issued exactly n buffer calls, all of them writes |
| `Trace.Session` | main.cpp:59-68 | an engine's history starts with its open, and ends with a close exactly when the engine has been destroyed |
| `Trace.WritesAt` | main.cpp:66-68 | the engine's i-th buffer write carries exactly the i-th logged line, formatted; one write per line |
| `Trace.SessionBracketed` | main.cpp:59-68 | an engine's calls are one open, then only writes, each the formatted line in call order, then one close once destroyed |
| `Trace.ReplayWrites` | main.cpp:18-34 | the engine's writes on an open buffer in the good state append each formatted line verbatim and in call order, and change nothing else |
| `Trace.ReplayWritesLost` | main.cpp:30-33 | the engine's writes on an open stream in the failed state leave the buffer entirely unchanged |
| `Trace.ConsoleStaysOpen` | main.cpp:15-22 | no sequence of calls closes the console or puts it in a failed state |
| `Trace.SessionOutput` | main.cpp:59-68 | after an engine's session from any reachable state, the buffer's output has grown by exactly the logged lines, formatted and in order, except on a file stream already open, where it has not grown at all; the buffer stays open unless it is a file and the engine is gone |
| `Trace.ReopenLosesWrites` | main.cpp:29-34 | after `open(); open(); write(line)` on a file buffer nothing has been written, while after `open(); write(line)` the line has |
| `Trace.FileNameIgnored` | main.cpp:25-30 | any history of calls has the same effect on a file buffer whatever name it was built with |
| `Buffers.LogBuffer.ConsoleBuff` | main.cpp:15-22 | a new console buffer has written nothing and is writable |
| `Buffers.LogBuffer.FileBuff` | main.cpp:24-28 | a new file buffer keeps the given name, has written nothing, and its stream is closed |
| `Buffers.LogBuffer.Open` | main.cpp:17-31 | console open changes nothing except the call history; file open attaches the stream to `"log.txt"`, leaves the written output unchanged, and leaves the stream failed exactly when it was already open |
| `Buffers.LogBuffer.Write` | main.cpp:18-34 | the line is appended verbatim when the stream is open and good, and nothing is written otherwise; a non-empty write to a closed stream puts it in the failed state |
| `Buffers.LogBuffer.Close` | main.cpp:21-37 | console close changes nothing except the call history; file close closes the stream and keeps the output; closing a stream that is not open puts it in the failed state |
| `Engine.LoggerEngine.constructor` | main.cpp:59-62 | construction calls the buffer's `open` exactly once and leaves the buffer open, with its output unchanged; the stream is failed exactly when the buffer was a file already open |
| `Engine.LoggerEngine.Log` | main.cpp:66-68 | exactly one buffer write, of `format(line)`, which reaches the output unless the engine's open failed; nothing else in the buffer changes |
| `Engine.LoggerEngine.Close` | main.cpp:63-65 | destruction calls the buffer's `close` exactly once and keeps the output; afterwards the engine's history is a complete bracketed session |
| `Engine.EngineOutput` | main.cpp:59-68 | a valid engine's buffer output is what it held before the engine plus every logged line, formatted, in order, or plus nothing when the engine's open failed on an already open file |
| `Engine.RunMain` | main.cpp:71-81 | the driver puts `"some line\n"` once on stdout and once in the file, and the file opened is `"log.txt"` |
| `Engine.FileTarget` | main.cpp:24-34 | a file buffer built with any name, driven by an engine, writes the formatted line to `"log.txt"` |

## Left out

- Real I/O. `cout` and `ofstream` are represented by the `written` sequence of
  each buffer. Failures that come from the platform (a file that cannot be
  created, a full disk, a failing stdout), flushing and the file system are
  not modelled. The stream's failbit and badbit are merged into one `failed`
  flag, since either one makes every write a no-op.
- Sharing of `"log.txt"`. Two file buffers both write to that one file; here
  each buffer keeps its own `written` sequence.
- Virtual dispatch and reference lifetimes. A `const` kind and a datatype
  stand in for the two class hierarchies. The buffer is held by reference in
  the C++ engine. The engine's invariant assumes that nothing else calls that
  buffer while the engine is alive, as in the driver.
- Destructor timing. Scope exit is modelled as an explicit `Close` call.
  `Engine.RunMain` makes these calls in C++ destruction order: `l2`, then `l1`.
- `console_buff` and `file_buff` destructors. They are defaulted; the
  `ofstream` destructor would close a stream left open, and nothing observable
  here depends on that.
