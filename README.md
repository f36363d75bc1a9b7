# maulogger core in Dafny

A model of the core of maulogger, a small levelled logger for Go programs, and
proofs about it. Two pieces are modelled:

- **The Sublogger tree and logging facade** (`sublogger.go`, module
  `Subloggers` in `sublogger.dfy`). A `Sublogger` is a class with the Go
  record's four fields (`topLevel`, `parent`, `Module`, `DefaultLevel`). `Sub`
  and `WithDefaultLevel` build new records; `SetModule`, `SetDefaultLevel`
  and `SetParent` update fields in place. Every logging call (`Write`, `Log`,
  `Logf`, `Debug` … `Fatalf`) makes exactly one `Raw(level, module, message)`
  call on the shared top-level logger. Here that logger (`BasicLogger`)
  records each call as an `Event` in a trace.
- **The top-level `Logger`** (`logger.go`, module `Logging` in `logger.dfy`).
  It has an optional buffered file writer (pending and flushed bytes), a line
  counter `lines` that triggers a flush every `FlushLineThreshold` lines, and
  the process's standard output and standard error. Its `OpenFile` scans for
  a free log-file index. Its `Raw` renders the line, writes it to the file,
  and echoes it on the console by severity.

`Raw(level, module, message)` is the interface the two pieces share. The two
source files come from different revisions of the repository, and apart from
that interface the model does not join them.

Helper modules:
- `levels.dfy` (`Levels`): the `Level` record, plus the five built-in levels
  as opaque constants.
- `text.dfy` (`Text`): `strings.Join`, fmt's `%02d`, and `fmt.Sprintln` /
  `fmt.Sprintf` as uninterpreted constants over an opaque argument type.
- `wrappers.dfy` (`Wrappers`): `Option`.

Inputs rather than effects:
- The clock: `Raw` takes the formatted time, and `OpenFile` takes the
  formatted date.
- The filesystem: `OpenFile` takes the set of names that exist, plus the
  outcome of the open call.
- A file write failing: `Raw` takes the error, if any.

## Model

| member | source | states |
|---|---|---|
| `Text.Join` | sublogger.go:27 | `strings.Join`: no elements give ""; one element gives that element; otherwise the result starts with the first element |
| `Text.Decimal` | logger.go:72 | the decimal form of a natural number: only the characters '0'..'9'; one digit below 10, two from 10 to 99, at least three from 100 on |
| `Text.ZeroPad2` | logger.go:72 | fmt's `%02d`: at least two characters; exactly two on 0..99; larger numbers are not cut |
| `Text.JoinConcat` | sublogger.go:46 | joining two non-empty segment lists equals joining each and putting one "/" between (the `strings.Join` behaviour module paths rely on) |
| `Text.ZeroPad2TwoDigits` | logger.go:72 | `%02d` of 0..99 is exactly two characters: tens digit then units digit |
| `Text.ZeroPad2Injective` | logger.go:72 | `%02d` on 0..99 can be read back: equal outputs mean equal numbers |
| `Subloggers.ChildModule` | sublogger.go:46 | a child's module path is the parent's path, then "/", then the segments joined by "/", even when the parent's path or the segment list is empty |
| `Subloggers.ChildOfChild` | sublogger.go:42-49 | on a Sublogger, `Sub(xs).Sub(ys)` gets the same module as `Sub(xs + ys)` for non-empty xs, ys |
| `Subloggers.TopChildThenChild` | sublogger.go:23-49 | `Sub(xs)` on the top-level logger followed by `Sub(ys)` gets module `Join(xs + ys, "/")`, so `Sub("a").Sub("b")` is `a/b` |
| `Subloggers.BasicLogger.constructor` | sublogger.go:34 | no source in these files (see the BasicLogger line under Left out): an empty trace and an embedded root view with the new logger as top level, no parent, an empty module and level Info |
| `Subloggers.BasicLogger.Raw` | sublogger.go:77 | the shared sink: each call appends exactly the event (level, module, message) to the trace |
| `Subloggers.BasicLogger.Sub` | sublogger.go:23-30 | new record: module = segments joined by "/" (no leading "/"), level Info, parent and top-level logger both the receiver |
| `Subloggers.BasicLogger.WithDefaultLevel` | sublogger.go:33-35 | same as the embedded root view's `WithDefaultLevel`: its top level, parent and module, with the given level |
| `Subloggers.Sublogger.constructor` | sublogger.go:15-20 | the struct literal: the four fields take the given values |
| `Subloggers.Sublogger.GetParent` | sublogger.go:37-39 | returns the `parent` field (set by `Sub`, never changed by `SetParent`) |
| `Subloggers.Sublogger.Sub` | sublogger.go:42-49 | new record: module = own module + "/" + segments joined by "/"; level and top-level logger inherited; parent = the receiver; receiver unchanged |
| `Subloggers.Sublogger.WithDefaultLevel` | sublogger.go:52-59 | new record with the same top-level logger, parent and module and the given level; receiver unchanged |
| `Subloggers.Sublogger.SetModule` | sublogger.go:62-64 | sets `Module`; the other three fields are unchanged |
| `Subloggers.Sublogger.SetDefaultLevel` | sublogger.go:67-69 | sets `DefaultLevel`; the other three fields are unchanged |
| `Subloggers.Sublogger.SetParent` | sublogger.go:72-74 | replaces `topLevel`, NOT `parent`; `parent`, `Module` and `DefaultLevel` are unchanged |
| `Subloggers.Sublogger.Write` | sublogger.go:76-79 | appends one event (DefaultLevel, Module, p) and nothing else; returns (len(p), nil) |
| `Subloggers.Sublogger.Log` | sublogger.go:82-84 | appends one event at the given level with an EMPTY module, whatever `Module` is, message `Sprintln(parts)` |
| `Subloggers.Sublogger.Logf` | sublogger.go:87-89 | appends one event at the given level with an EMPTY module, message `Sprintf(format, args)` (no newline added) |
| `Subloggers.Sublogger.Debug` | sublogger.go:92-94 | appends one event (LevelDebug, Module, Sprintln(parts)) |
| `Subloggers.Sublogger.Debugf` | sublogger.go:97-99 | appends one event (LevelDebug, Module, Sprintf(format + "\n", args)) |
| `Subloggers.Sublogger.Info` | sublogger.go:102-104 | appends one event (LevelInfo, Module, Sprintln(parts)) |
| `Subloggers.Sublogger.Infof` | sublogger.go:107-109 | appends one event (LevelInfo, Module, Sprintf(format + "\n", args)) |
| `Subloggers.Sublogger.Warn` | sublogger.go:112-114 | appends one event (LevelWarn, Module, Sprintln(parts)) |
| `Subloggers.Sublogger.Warnf` | sublogger.go:117-119 | appends one event (LevelWarn, Module, Sprintf(format + "\n", args)) |
| `Subloggers.Sublogger.Error` | sublogger.go:122-124 | appends one event (LevelError, Module, Sprintln(parts)) |
| `Subloggers.Sublogger.Errorf` | sublogger.go:127-129 | appends one event (LevelError, Module, Sprintf(format + "\n", args)) |
| `Subloggers.Sublogger.Fatal` | sublogger.go:132-134 | appends one event (LevelFatal, Module, Sprintln(parts)); nothing else happens (no exit) |
| `Subloggers.Sublogger.Fatalf` | sublogger.go:137-139 | appends one event (LevelFatal, Module, Sprintf(format + "\n", args)); nothing else happens |
| `Subloggers.NestedErrorScenario` | sublogger.go:42-124 | `Sub("auth").Sub("login").Error(parts)` on a fresh top-level logger leaves exactly one event, at Error, under module `auth/login` |
| `Logging.DefaultFileFormat` | logger.go:72 | the default name starts with the date and "-" and ends with ".log"; for indices 0..99 it is 7 characters longer than the date, and the two characters after the "-" are the tens digit and the units digit |
| `Logging.DefaultFileFormatInjective` | logger.go:72 | the default name `now-NN.log` is different for each index 1..99 |
| `Logging.FreeIndexFrom` | logger.go:90-98 | the index the scan settles on is always in 1..99 |
| `Logging.FreeIndexFromIsLeast` | logger.go:90-98 | from index i, the scan picks the least free index at or above i; if every name from i to 99 is taken, it picks 1 |
| `Logging.ChosenIndexIsLeastFree` | logger.go:89-98 | OpenFile's index is in 1..99. If its name is free, every lower name is taken. If its name is taken, all 99 are taken and the index is 1 (the wrap-around that reuses file 01) |
| `Logging.ChooseIndex` | logger.go:89-98 | the `for ;; i++` loop with its two breaks computes exactly that index |
| `Logging.Tag` | logger.go:119-122 | the bracketed label: the level name alone when the module is empty, else the module, "/", and the level name |
| `Logging.RenderLine` | logger.go:118-123 | the line is "[" + time + "] [", then the tag and "] ", then the message verbatim with nothing appended; the tag is the level name alone for an empty module, else module + "/" + name |
| `Logging.RenderLineInjective` | logger.go:118-123 | with the same time, level and module, different messages render differently |
| `Logging.Route` | logger.go:138-148 | echoed iff severity >= PrintLevel; on stderr iff also severity >= LevelError's severity; otherwise stdout |
| `Logging.ThresholdSeparates` | logger.go:138 | a threshold at a level's severity stops every less severe level and lets that level through |
| `Logging.RouteMonotone` | logger.go:138-139 | raising severity never removes an echo and never moves it from stderr to stdout |
| `Logging.Echo` | logger.go:139-147 | what one echo writes to a console stream: the level's colour, the line verbatim, then the level's reset |
| `Logging.WriteFailureNotice` | logger.go:128 | the `fmt.Println` notice: "Failed to write to log file: ", the error text, one newline |
| `Logging.LinesAfterWrite` | logger.go:131-135 | after a write the counter resets to 0 exactly when it reaches the threshold, else grows by one; it stays in [0, threshold). The flush test `FlushesAfter(lines, threshold)` is `lines + 1 == threshold`, which is the source's `log.lines == log.FlushLineThreshold` checked after the increment |
| `Logging.NoFlushPastThreshold` | logger.go:131-132 | once the counter is at or past the threshold (the public field was lowered), no later write flushes |
| `Logging.WriteRun` | logger.go:131-135 | the `LinesAfterWrite` step, run for k successful writes from a zero counter; counter plus flushes never exceeds k |
| `Logging.FlushEveryN` | logger.go:131-135 | after k successful writes from a zero counter with threshold N >= 1: counter + N * flushes == k and counter < N |
| `Logging.FlushEveryNDivMod` | logger.go:131-135 | the same as counter == k mod N and flushes == k div N |
| `Logging.BufferedWriter.constructor` | logger.go:105 | `bufio.NewWriter(file)`: a writer on that file with nothing pending and nothing flushed |
| `Logging.BufferedWriter.Write` | logger.go:126 | buffers p and returns nil, or on a failure changes nothing and returns the error |
| `Logging.BufferedWriter.Flush` | logger.go:134 | moves everything pending to the flushed output, in order |
| `Logging.Logger.Create` | logger.go:68-77 | PrintLevel 10, FlushLineThreshold 5, lines 0, FileMode 0600, the two time layouts, the default file template, no writer |
| `Logging.Logger.SetWriter` | logger.go:83-85 | installs the given writer; no other field changes |
| `Logging.Logger.OpenFile` | logger.go:88-107 | on success a fresh, empty writer on `FileFormat(now, i)`, where i is the scan's index. An open error is returned unchanged, a nil file gives `ErrInvalid`, and in both cases the writer is unchanged |
| `Logging.Logger.Close` | logger.go:110-114 | flushes iff a writer is present; the writer stays installed |
| `Logging.Logger.Raw` | logger.go:117-149 | See the notes under the table. |

Notes on `Logging.Logger.Raw`:
- No writer: `lines` and the file are unchanged, and the line is echoed per `Route`.
- The write fails: buffer and `lines` are unchanged, the "Failed to write to log file:" notice goes to stdout, and there is no echo.
- Otherwise: the line is buffered and `lines` advances per `LinesAfterWrite`. At the threshold everything is flushed. Then the line is echoed as colour + line + reset on the stream `Route` picks.
- `0 <= lines < FlushLineThreshold` is preserved.

## Left out

- `defaults.go`: the package-level default logger and forwarding wrappers; they have no logic of their own.
- Level values: `Level`'s definition, the built-in levels' names, severities and colours, and `GetColor` / `GetReset` live in a file that is not part of this model. The five levels are opaque constants, and `Color` / `Reset` stand for the bytes the two methods return.
- Severity order: the model assumes no ordering among the built-in severities.
- BasicLogger: its definition and construction are in a file that is not part of this model. Its constructor here exists so `WithDefaultLevel` has an embedded root view. That view has an empty module and level Info, like logger.go:78's default sublogger.
- `Subloggers.Sublogger.SetParent` / `topLevel`: a nil top-level logger is excluded by the non-null type. In Go, `SetParent(nil)` or a zero `Sublogger{}` is accepted, and every later logging call then calls `Raw` on a nil receiver.
- `Subloggers.BasicLogger.WithDefaultLevel`: requires the embedded root view to be present. The constructor always installs it.
- Level-gated logging on `BasicLogger` itself, which it gets through the embedded view, is not modelled apart from `WithDefaultLevel`.
- `Logger.DefaultSub` and `CreateSublogger` (logger.go:78): they belong to another revision's Sublogger and are not modelled.
- `fmt.Sprintln` and `fmt.Sprintf` are uninterpreted. The model says nothing about their output, such as Sprintln's trailing newline.
- Bytes and strings are both `seq<char>`, one character per byte. Go's `[]byte(s)` / `string(p)` conversions are the identity here, and `len(p)` is the sequence length.
- `time.Now().Format(...)`: the formatted time and date are parameters. Time layouts are kept only as the constants `Create` sets.
- `os.Stat`: `existing` holds every name for which Stat does not report "not exist". Other Stat errors count as existing, as in the source.
- `os.OpenFile`: its outcome is a parameter. Append mode and any earlier contents of the file are not modelled; `BufferedWriter.flushed` is only what this writer passed on.
- `FileMode`: an opaque integer.
- `bufio.Writer` internals are not modelled: its buffer size, the automatic flush when the buffer fills, Flush errors, and the sticky error after a failed write. A write either wholly succeeds or changes nothing.
- Aliasing: a writer passed to `SetWriter` may also be used elsewhere; the model does not track that.
- `fmt.Println`'s own write errors, and the process-wide sharing of stdout and stderr: not modelled. The `stdout` / `stderr` fields are what this logger wrote.
- Concurrency and locks: the source has none in these files.
- Not in this code: file rotation, a file print threshold, a trailing newline added by `Raw`, or an error result from `Close`. The model follows the code.
- Go's `%02d` is modelled for every integer: zero-padding for 0..9, a "-" sign for negatives. The name injectivity is proved for 1..99, the indices `OpenFile` uses.
