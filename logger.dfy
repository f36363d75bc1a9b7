/**
 * The top-level Logger of logger.go: an optional buffered file writer with a
 * flush-every-N-lines counter, the log-file index search of OpenFile, the line
 * rendering of Raw and its routing to the console streams. The clock, the
 * filesystem, the opening of files and write failures are inputs.
 */
module Logging {
  import opened Wrappers
  import opened Levels
  import opened Text

  /** The file-name template: (formatted date, index) to path. */
  type FileFormatFn = (string, int) -> string

  /** The default template: the date, "-", the index as "%02d", then ".log". */
  function DefaultFileFormat(now: string, i: int): (r: string)
    ensures |r| >= |now| + 7
    ensures r[..|now| + 1] == now + "-" && r[|r| - 4..] == ".log"
    ensures 0 <= i <= 99 ==> |r| == |now| + 7
    ensures 0 <= i <= 99 ==> r[|now| + 1..|now| + 3] == [DigitChar(i / 10), DigitChar(i % 10)]
  {
    if 0 <= i <= 99 then
      ZeroPad2TwoDigits(i);
      now + "-" + ZeroPad2(i) + ".log"
    else
      now + "-" + ZeroPad2(i) + ".log"
  }

  /** The default template gives each index OpenFile can pick its own name. */
  lemma DefaultFileFormatInjective(now: string, i: int, j: int)
    requires 1 <= i <= 99 && 1 <= j <= 99
    requires DefaultFileFormat(now, i) == DefaultFileFormat(now, j)
    ensures i == j
  {
    ZeroPad2TwoDigits(i);
    ZeroPad2TwoDigits(j);
    var a, b := DefaultFileFormat(now, i), DefaultFileFormat(now, j);
    assert a[|now| + 1..|now| + 3] == ZeroPad2(i);
    assert b[|now| + 1..|now| + 3] == ZeroPad2(j);
    ZeroPad2Injective(i, j);
  }

  /**
   * The index OpenFile settles on when its scan has reached i: the first index
   * from i on whose name is not taken, or 1 once 99 is taken too.
   */
  function FreeIndexFrom(existing: set<string>, format: FileFormatFn, now: string, i: int): (r: int)
    requires 1 <= i <= 99
    ensures 1 <= r <= 99
    decreases 99 - i
  {
    if format(now, i) !in existing then i
    else if i == 99 then 1
    else FreeIndexFrom(existing, format, now, i + 1)
  }

  /**
   * From index i the scan picks the least free index not below i, and if every
   * name from i to 99 is taken it wraps to 1, whether or not 1 is free.
   */
  lemma {:induction false} FreeIndexFromIsLeast(existing: set<string>, format: FileFormatFn, now: string, i: int)
    requires 1 <= i <= 99
    ensures var r := FreeIndexFrom(existing, format, now, i);
      || (i <= r && format(now, r) !in existing && forall j :: i <= j < r ==> format(now, j) in existing)
      || (r == 1 && forall j :: i <= j <= 99 ==> format(now, j) in existing)
    decreases 99 - i
  {
    if format(now, i) !in existing || i == 99 {
    } else {
      FreeIndexFromIsLeast(existing, format, now, i + 1);
    }
  }

  /**
   * The index OpenFile opens: the least index in 1..99 whose name is not
   * taken, and 1 when all 99 are taken.
   */
  lemma ChosenIndexIsLeastFree(existing: set<string>, format: FileFormatFn, now: string)
    ensures var r := FreeIndexFrom(existing, format, now, 1);
      && 1 <= r <= 99
      && (format(now, r) !in existing ==> forall j :: 1 <= j < r ==> format(now, j) in existing)
      && (format(now, r) in existing ==> r == 1 && forall j :: 1 <= j <= 99 ==> format(now, j) in existing)
  {
    FreeIndexFromIsLeast(existing, format, now, 1);
  }

  /** OpenFile's scan over 1..99, asking for each name whether it exists, wrapping to 1 at 99. */
  method ChooseIndex(existing: set<string>, format: FileFormatFn, now: string) returns (i: int)
    ensures i == FreeIndexFrom(existing, format, now, 1)
  {
    i := 1;
    while true
      invariant 1 <= i <= 99
      invariant FreeIndexFrom(existing, format, now, i) == FreeIndexFrom(existing, format, now, 1)
      decreases 99 - i
    {
      if format(now, i) !in existing {
        break;
      } else if i == 99 {
        i := 1;
        break;
      }
      i := i + 1;
    }
  }

  /** The label between the second pair of brackets: the level name, qualified by the module when there is one. */
  function Tag(modulePath: string, levelName: string): (r: string)
    ensures |modulePath| == 0 ==> r == levelName
    ensures |r| >= |levelName| && r[|r| - |levelName|..] == levelName
    ensures |modulePath| != 0 ==> |r| == |modulePath| + 1 + |levelName| && r[..|modulePath| + 1] == modulePath + "/"
  {
    if |modulePath| == 0 then levelName else modulePath + "/" + levelName
  }

  /** The line Raw writes: "[time] [tag] message", the message verbatim with nothing appended. */
  function RenderLine(now: string, level: Level, modulePath: string, message: string): (r: string)
    ensures |r| == |now| + |Tag(modulePath, level.Name)| + |message| + 6
    ensures r[..|now| + 4] == "[" + now + "] ["
    ensures r[|now| + 4..|r| - |message|] == Tag(modulePath, level.Name) + "] "
    ensures r[|r| - |message|..] == message
  {
    var head, tag := "[" + now + "] [", Tag(modulePath, level.Name) + "] ";
    ConcatParts(head, tag, message);
    head + tag + message
  }

  /** The three parts of a concatenation can be sliced back out of it. */
  lemma ConcatParts(a: string, b: string, c: string)
    ensures |a + b + c| == |a| + |b| + |c|
    ensures (a + b + c)[..|a|] == a
    ensures (a + b + c)[|a|..|a| + |b|] == b
    ensures (a + b + c)[|a| + |b|..] == c
  {
    var r := a + b + c;
    assert r[..|a|] == a;
    assert r[|a|..|a| + |b|] == b;
    assert r[|a| + |b|..] == c;
  }

  /** Two lines rendered with the same time, level and module differ exactly when the messages do. */
  lemma RenderLineInjective(now: string, level: Level, modulePath: string, m1: string, m2: string)
    requires RenderLine(now, level, modulePath, m1) == RenderLine(now, level, modulePath, m2)
    ensures m1 == m2
  {
    var r1, r2 := RenderLine(now, level, modulePath, m1), RenderLine(now, level, modulePath, m2);
    assert |m1| == |m2|;
    assert m1 == r1[|r1| - |m1|..];
  }

  /** Where Raw echoes an event on the console. */
  datatype Stream = Silent | Stdout | Stderr

  /** The console destination for an event of the given severity. */
  function Route(severity: int, printLevel: int, errorSeverity: int): (s: Stream)
    ensures s != Silent <==> severity >= printLevel
    ensures s == Stderr <==> severity >= printLevel && severity >= errorSeverity
  {
    if severity >= printLevel then (if severity >= errorSeverity then Stderr else Stdout) else Silent
  }

  /** A print threshold set at a level's severity lets that level through and stops every less severe one. */
  lemma ThresholdSeparates(low: Level, high: Level, errorSeverity: int)
    requires low.Severity < high.Severity
    ensures Route(low.Severity, high.Severity, errorSeverity) == Silent
    ensures Route(high.Severity, high.Severity, errorSeverity) != Silent
  {
  }

  /** Raising the severity never moves an event off the console, nor from stderr to stdout. */
  lemma RouteMonotone(s1: int, s2: int, printLevel: int, errorSeverity: int)
    requires s1 <= s2
    ensures Route(s1, printLevel, errorSeverity) != Silent ==> Route(s2, printLevel, errorSeverity) != Silent
    ensures Route(s1, printLevel, errorSeverity) == Stderr ==> Route(s2, printLevel, errorSeverity) == Stderr
  {
  }

  /** What an echo of msg writes to its stream: the level's colour, the line, the level's reset. */
  function Echo(level: Level, msg: string): (r: string)
    ensures |r| == |level.Color| + |msg| + |level.Reset|
    ensures r[..|level.Color|] == level.Color
    ensures r[|level.Color|..|level.Color| + |msg|] == msg
    ensures r[|r| - |level.Reset|..] == level.Reset
  {
    level.Color + msg + level.Reset
  }

  /** The line fmt.Println prints when the file write fails. */
  function WriteFailureNotice(err: string): (r: string)
    ensures |r| == |err| + 30
    ensures r[..29] == "Failed to write to log file: "
    ensures r[29..|r| - 1] == err && r[|r| - 1] == '\n'
  {
    "Failed to write to log file: " + err + "\n"
  }

  /** Whether the line written after `lines` earlier unflushed lines triggers a flush. */
  predicate FlushesAfter(lines: int, threshold: int)
  {
    lines + 1 == threshold
  }

  /** The line counter after one more successful file write. */
  function LinesAfterWrite(lines: int, threshold: int): (r: int)
    ensures FlushesAfter(lines, threshold) ==> r == 0
    ensures !FlushesAfter(lines, threshold) ==> r == lines + 1
    ensures 0 <= lines < threshold ==> 0 <= r < threshold
    ensures 0 <= lines ==> 0 <= r
  {
    if lines + 1 == threshold then 0 else lines + 1
  }

  /** Once the counter is at or past the threshold (the threshold was lowered), no write flushes again. */
  lemma NoFlushPastThreshold(lines: int, threshold: int)
    requires lines >= threshold
    ensures !FlushesAfter(lines, threshold)
    ensures LinesAfterWrite(lines, threshold) > threshold
  {
  }

  /** The counter and the number of flushes after k successful writes starting from a zero counter. */
  function WriteRun(k: nat, threshold: int): (r: (nat, nat))
    ensures r.0 + r.1 <= k
    decreases k
  {
    if k == 0 then (0, 0)
    else
      var (lines, flushes) := WriteRun(k - 1, threshold);
      (LinesAfterWrite(lines, threshold), if FlushesAfter(lines, threshold) then flushes + 1 else flushes)
  }

  /** Flush every N: after k writes the counter is k mod N and there were k div N flushes. */
  lemma {:induction false} FlushEveryN(k: nat, threshold: int)
    requires threshold >= 1
    ensures WriteRun(k, threshold).0 < threshold
    ensures WriteRun(k, threshold).0 + threshold * WriteRun(k, threshold).1 == k
  {
    if k > 0 {
      FlushEveryN(k - 1, threshold);
      var (lines, flushes) := WriteRun(k - 1, threshold);
      if FlushesAfter(lines, threshold) {
        assert threshold * (flushes + 1) == threshold * flushes + threshold;
      }
    }
  }

  /** The same, as remainder and quotient. */
  lemma FlushEveryNDivMod(k: nat, threshold: int)
    requires threshold >= 1
    ensures WriteRun(k, threshold).0 == k % threshold
    ensures WriteRun(k, threshold).1 == k / threshold
  {
    FlushEveryN(k, threshold);
    var (lines, flushes) := WriteRun(k, threshold);
    DivModUnique(k, threshold, flushes, lines);
  }

  /** The quotient and remainder of k by n are the only q, r with k == r + n * q and 0 <= r < n. */
  lemma DivModUnique(k: int, n: int, q: int, r: int)
    requires n >= 1 && 0 <= r < n && k == r + n * q
    ensures q == k / n && r == k % n
  {
    var q0, r0 := k / n, k % n;
    assert k == r0 + n * q0 && 0 <= r0 < n;
    if q < q0 {
      MulDistance(n, q, q0);
    } else if q > q0 {
      MulDistance(n, q0, q);
    }
  }

  /** Multiples of n that are a positive number of steps apart are at least n apart. */
  lemma {:induction false} MulDistance(n: int, a: int, b: int)
    requires n >= 1 && a < b
    ensures n * b - n * a >= n
    decreases b - a
  {
    if a + 1 < b {
      MulDistance(n, a, b - 1);
    }
    assert n * b == n * (b - 1) + n;
  }

  /** A bufio.Writer over one file: what Write accepted and Flush has not yet passed on, and what it has. */
  class BufferedWriter {
    const file: string
    var pending: string
    var flushed: string

    constructor (file: string)
      ensures this.file == file && pending == "" && flushed == ""
    {
      this.file := file;
      pending := "";
      flushed := "";
    }

    /** Buffers p, unless the write fails (an input), in which case nothing changes and the error is returned. */
    method Write(p: string, failure: Option<string>) returns (err: Option<string>)
      modifies this
      ensures err == failure
      ensures pending == (if failure.None? then old(pending) + p else old(pending))
      ensures flushed == old(flushed)
    {
      err := failure;
      if failure.None? {
        pending := pending + p;
      }
    }

    /** Passes everything buffered on to the file. */
    method Flush()
      modifies this
      ensures flushed == old(flushed) + old(pending) && pending == ""
    {
      flushed := flushed + pending;
      pending := "";
    }
  }

  datatype Error = OsError(message: string) | ErrInvalid

  /** What os.OpenFile did: returned a file, returned an error, or returned neither. */
  datatype OpenResult = Opened | OpenFailed(err: string) | NilFile

  class Logger {
    var PrintLevel: int
    var FlushLineThreshold: int
    var FileTimeFormat: string
    var FileFormat: FileFormatFn
    var TimeFormat: string
    /** Permission bits for the log file, passed through to the open call. */
    var FileMode: int
    var writer: BufferedWriter?
    /** Lines written to the file since the last flush. */
    var lines: int
    /** What this logger has written to the process's standard output and standard error. */
    var stdout: string
    var stderr: string

    /** Create: console threshold 10, flush every 5 lines, mode 0600, no writer yet. */
    constructor Create()
      ensures PrintLevel == 10 && FlushLineThreshold == 5 && lines == 0
      ensures FileTimeFormat == "2006-01-02" && TimeFormat == "15:04:05 02.01.2006"
      ensures FileFormat == DefaultFileFormat
      ensures FileMode == 384 // octal 0600
      ensures writer == null && stdout == "" && stderr == ""
    {
      PrintLevel := 10;
      FileTimeFormat := "2006-01-02";
      FileFormat := DefaultFileFormat;
      TimeFormat := "15:04:05 02.01.2006";
      FileMode := 384;
      FlushLineThreshold := 5;
      lines := 0;
      writer := null;
      stdout, stderr := "", "";
    }

    method SetWriter(w: BufferedWriter?)
      modifies this`writer
      ensures writer == w
    {
      writer := w;
    }

    /**
     * Picks the file name for today's date `now` against the names that already
     * exist, then installs a fresh writer on it if the open (an input) succeeds;
     * on either failure the current writer stays.
     */
    method OpenFile(now: string, existing: set<string>, result: OpenResult) returns (err: Option<Error>)
      modifies this`writer
      ensures result.Opened? ==> err == None && writer != null && fresh(writer)
      ensures result.Opened? ==> writer.file == FileFormat(now, FreeIndexFrom(existing, FileFormat, now, 1))
      ensures result.Opened? ==> writer.pending == "" && writer.flushed == ""
      ensures result.OpenFailed? ==> err == Some(OsError(result.err)) && writer == old(writer)
      ensures result.NilFile? ==> err == Some(ErrInvalid) && writer == old(writer)
    {
      var i := ChooseIndex(existing, FileFormat, now);
      match result
      case OpenFailed(e) =>
        return Some(OsError(e));
      case NilFile =>
        return Some(ErrInvalid);
      case Opened =>
        writer := new BufferedWriter(FileFormat(now, i));
        return None;
    }

    /** Flushes the writer if there is one; the writer stays installed. */
    method Close()
      modifies writer
      ensures writer == old(writer)
      ensures writer != null ==> writer.flushed == old(writer.flushed) + old(writer.pending) && writer.pending == ""
    {
      if writer != null {
        writer.Flush();
      }
    }

    /**
     * Renders the event with the formatted time `now`; writes it to the file if
     * there is a writer, counting lines and flushing at the threshold; then
     * echoes it on the console by severity. A failed file write (an input)
     * prints a notice on stdout and ends the call: no count, no echo.
     */
    method Raw(level: Level, modulePath: string, message: string, now: string, failure: Option<string>)
      modifies this`lines, this`stdout, this`stderr, writer
      ensures writer == old(writer)
      ensures old(0 <= lines < FlushLineThreshold) ==> 0 <= lines < FlushLineThreshold
      ensures var msg := RenderLine(now, level, modulePath, message);
        if writer != null && failure.Some? then
          && lines == old(lines)
          && writer.pending == old(writer.pending) && writer.flushed == old(writer.flushed)
          && stdout == old(stdout) + WriteFailureNotice(failure.value)
          && stderr == old(stderr)
        else
          var route := Route(level.Severity, PrintLevel, LevelError.Severity);
          && stdout == old(stdout) + (if route == Stdout then Echo(level, msg) else "")
          && stderr == old(stderr) + (if route == Stderr then Echo(level, msg) else "")
          && (writer == null ==> lines == old(lines))
          && (writer != null ==>
                && lines == LinesAfterWrite(old(lines), FlushLineThreshold)
                && if FlushesAfter(old(lines), FlushLineThreshold) then
                     writer.flushed == old(writer.flushed) + old(writer.pending) + msg && writer.pending == ""
                   else
                     writer.flushed == old(writer.flushed) && writer.pending == old(writer.pending) + msg)
    {
      var msg := RenderLine(now, level, modulePath, message);
      if writer != null {
        var err := writer.Write(msg, failure);
        if err.Some? {
          stdout := stdout + WriteFailureNotice(err.value);
          return;
        }
        lines := lines + 1;
        if lines == FlushLineThreshold {
          lines := 0;
          writer.Flush();
        }
      }
      if level.Severity >= PrintLevel {
        // the colour, the line and the reset, written one after the other
        if level.Severity >= LevelError.Severity {
          stderr := stderr + Echo(level, msg);
        } else {
          stdout := stdout + Echo(level, msg);
        }
      }
    }
  }
}
