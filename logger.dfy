/**
 * A leveled logger that tags every emitted line with a timestamp, the
 * severity name and the caller's location, appends a stack dump for severe
 * events, and hands each composed buffer to its writer in a single write.
 *
 * What the Go runtime supplies is passed in: the formatted timestamp, the
 * caller frame (or its absence), the text `fmt.Sprintf` produced and the full
 * text of the goroutine dump that `runtime.Stack` would copy.
 */
module Logging {
  import opened Wrappers
  import Decimal

  /** Capacity of the buffer a stack dump is copied into. */
  const STACK_BUFFER_SIZE: nat := 8192

  /** Severity rank; a lower number is more severe. Any int is storable. */
  newtype Level = int {

    /** Display name of a rank, "???" outside the eight known ranks. */
    function String(): (r: string)
      ensures 0 <= this as int < |LevelNames| ==> r == LevelNames[this as int]
      ensures !(0 <= this as int < |LevelNames|) ==> r == "???"
    {
      if this < 0 || this as int >= |LevelNames| then "???" else LevelNames[this as int]
    }
  }

  const EMERGENCY: Level := 0
  const ALERT: Level := 1
  const CRITICAL: Level := 2
  const ERROR: Level := 3
  const WARNING: Level := 4
  const NOTICE: Level := 5
  const INFO: Level := 6
  const DEBUG: Level := 7

  const LevelNames: seq<string> :=
    ["EMERGENCY", "ALERT", "CRITICAL", "ERROR", "WARNING", "NOTICE", "INFO", "DEBUG"]

  /** A rank has a proper name exactly when it is one of the eight, and the names are distinct. */
  lemma LevelStringKnown(l: Level, m: Level)
    ensures l.String() != "???" <==> EMERGENCY <= l <= DEBUG
    ensures EMERGENCY <= l <= DEBUG && EMERGENCY <= m <= DEBUG && l != m ==> l.String() != m.String()
  {
  }

  // ---------------------------------------------------------------------
  // Shortening a file path to its last `depth` segments
  // ---------------------------------------------------------------------

  /** Number of '/' characters in `s`. */
  function SlashCount(s: string): nat
  {
    if s == [] then 0 else SlashCount(s[..|s| - 1]) + (if s[|s| - 1] == '/' then 1 else 0)
  }

  /** A configured depth below 1 is used as 1. */
  function ClampDepth(depth: int): (d: nat)
    ensures d >= 1
    ensures depth >= 1 ==> d == depth
    ensures depth < 1 ==> d == 1
  {
    if depth < 1 then 1 else depth
  }

  /**
   * The part of `s` after the `d`-th '/' counted from the end, or all of `s`
   * when it has fewer than `d` slashes.
   */
  function Suffix(s: string, d: nat): string
    requires d >= 1
    decreases |s|
  {
    if s == [] then []
    else if s[|s| - 1] == '/' then
      (if d == 1 then [] else Suffix(s[..|s| - 1], d - 1) + ['/'])
    else
      Suffix(s[..|s| - 1], d) + [s[|s| - 1]]
  }

  /** The short name `extractFileName` computes for a configured depth. */
  function ShortFileName(fileName: string, depth: int): string
  {
    Suffix(fileName, ClampDepth(depth))
  }

  /** Everything `Suffix` promises: a suffix, cut right after a '/', or the input itself. */
  lemma {:induction false} SuffixSpec(s: string, d: nat)
    requires d >= 1
    ensures |Suffix(s, d)| <= |s| && Suffix(s, d) == s[|s| - |Suffix(s, d)|..]
    ensures SlashCount(s) < d ==> Suffix(s, d) == s
    ensures SlashCount(s) >= d ==>
      |Suffix(s, d)| < |s| && s[|s| - |Suffix(s, d)| - 1] == '/' && SlashCount(Suffix(s, d)) == d - 1
    decreases |s|
  {
    if s != [] {
      var p, c := s[..|s| - 1], s[|s| - 1];
      assert s == p + [c];
      if c == '/' && d == 1 {
      } else {
        var d' := if c == '/' then d - 1 else d;
        SuffixSpec(p, d');
        var r', r := Suffix(p, d'), Suffix(s, d);
        assert r == r' + [c];
        assert r[..|r| - 1] == r';
        assert r == s[|s| - |r|..];
      }
    }
  }

  /** The promises of `SuffixSpec` stated for the configured depth. */
  lemma ShortFileNameSpec(fileName: string, depth: int)
    ensures var r := ShortFileName(fileName, depth);
      |r| <= |fileName| && r == fileName[|fileName| - |r|..]
    ensures depth < 1 ==> ShortFileName(fileName, depth) == ShortFileName(fileName, 1)
    ensures SlashCount(fileName) < ClampDepth(depth) ==> ShortFileName(fileName, depth) == fileName
    ensures var r := ShortFileName(fileName, depth);
      SlashCount(fileName) >= ClampDepth(depth) ==>
        |r| < |fileName| && fileName[|fileName| - |r| - 1] == '/' && SlashCount(r) == ClampDepth(depth) - 1
  {
    SuffixSpec(fileName, ClampDepth(depth));
  }

  /** The worked examples: depth 1, depth 2, a depth beyond the slash count, depth 0. */
  lemma ShortFileNameExamples()
    ensures ShortFileName("a/b/c/d.go", 1) == "d.go"
    ensures ShortFileName("a/b/c/d.go", 2) == "c/d.go"
    ensures ShortFileName("a/b/c/d.go", 99) == "a/b/c/d.go"
    ensures ShortFileName("a/b/c/d.go", 0) == "d.go"
  {
    assert "a/b/c/d.go"[..9] == "a/b/c/d.g";
    assert "a/b/c/d.g"[..8] == "a/b/c/d.";
    assert "a/b/c/d."[..7] == "a/b/c/d";
    assert "a/b/c/d"[..6] == "a/b/c/";
    assert "a/b/c/"[..5] == "a/b/c";
    assert "a/b/c"[..4] == "a/b/";
    assert "a/b/"[..3] == "a/b";
    assert "a/b"[..2] == "a/";
    assert "a/"[..1] == "a";
    assert "a"[..0] == "";
  }

  /**
   * `extractFileName`: scan backwards counting '/', stop on the
   * depth-th one, and return what follows it.
   */
  method ExtractFileName(fileName: string, shortFileNameDepth: int) returns (r: string)
    ensures r == ShortFileName(fileName, shortFileNameDepth)
  {
    var want := shortFileNameDepth;
    if want < 1 {
      want := 1;
    }
    var i := |fileName| - 1;
    var depth := 0;
    assert fileName[..i + 1] == fileName && fileName[i + 1..] == [];
    while i >= 0
      invariant -1 <= i < |fileName|
      invariant 0 <= depth < want
      invariant Suffix(fileName, want) == Suffix(fileName[..i + 1], want - depth) + fileName[i + 1..]
      decreases i + 1
    {
      assert fileName[..i + 1][..i] == fileName[..i];
      assert fileName[i..] == [fileName[i]] + fileName[i + 1..];
      if fileName[i] == '/' {
        depth := depth + 1;
        if depth >= want {
          assert Suffix(fileName, want) == fileName[i + 1..];
          break;
        }
      }
      i := i - 1;
    }
    r := fileName[i + 1..];
  }

  /** Text after the last '/', the part of `path.Base` the logger relies on. */
  function BaseName(name: string): string
  {
    Suffix(name, 1)
  }

  // ---------------------------------------------------------------------
  // Stack dumps and the layout of a log record
  // ---------------------------------------------------------------------

  /**
   * `stackTrace`: the runtime copies as much of the dump of all goroutines
   * as fits into a fixed buffer; the rest is dropped.
   */
  function StackTrace(dump: string): (r: string)
    ensures |r| <= STACK_BUFFER_SIZE && |r| <= |dump|
    ensures r == dump[..|r|]
    ensures |dump| <= STACK_BUFFER_SIZE ==> r == dump
    ensures |dump| > STACK_BUFFER_SIZE ==> |r| == STACK_BUFFER_SIZE
  {
    if |dump| <= STACK_BUFFER_SIZE then dump else dump[..STACK_BUFFER_SIZE]
  }

  /** What `runtime.Caller` reports, with the function name already resolved from its pc. */
  datatype Frame = Frame(file: string, line: int, funcName: string)

  const StackBegin: string := "--- BEGIN stacktrace: ---\n"
  const StackEnd: string := "--- END stacktrace ---\n\n"

  /** `<timestamp> [<level>]<location>: <message>` and a newline. */
  function LogLine(timestamp: string, level: Level, info: string, msg: string): string
  {
    timestamp + " " + "[" + level.String() + "]" + info + ": " + msg + "\n"
  }

  function StackBlock(trace: string): string
  {
    StackBegin + trace + StackEnd
  }

  /** The buffer `log` writes: the line, then the stack block when requested. */
  function LogRecord(timestamp: string, level: Level, info: string, msg: string,
                     withTrace: bool, trace: string): string
  {
    LogLine(timestamp, level, info, msg) + (if withTrace then StackBlock(trace) else "")
  }

  /** How a record reads from its start, and that a stack block adds a bounded amount. */
  lemma LogRecordLayout(timestamp: string, level: Level, info: string, msg: string,
                        withTrace: bool, trace: string)
    ensures var line, r := LogLine(timestamp, level, info, msg), LogRecord(timestamp, level, info, msg, withTrace, trace);
      && r[..|line|] == line
      && line[..|timestamp|] == timestamp
      && line[|timestamp|..|timestamp| + 2] == " ["
      && line[|line| - |msg| - 1..] == msg + "\n"
      && (withTrace <==> |r| > |line|)
      && (withTrace ==> r[|line|..] == StackBegin + trace + StackEnd)
      && (|trace| <= STACK_BUFFER_SIZE ==> |r| <= |line| + |StackBegin| + |StackEnd| + STACK_BUFFER_SIZE)
  {
  }

  // ---------------------------------------------------------------------
  // The sink and the logger
  // ---------------------------------------------------------------------

  /** An `io.Writer`: each call to Write delivers one chunk; write errors are never reported. */
  class Writer {
    var written: seq<string>

    constructor ()
      ensures written == []
    {
      written := [];
    }

    method Write(chunk: string)
      modifies this
      ensures written == old(written) + [chunk]
    {
      written := written + [chunk];
    }
  }

  class Logger {
    var showShortFile: bool
    var showPackage: bool
    var showFuncName: bool
    var shortFileNameDepth: int
    const out: Writer
    var level: Level
    var stackTraceLevel: Level

    /** The settings `init` establishes. */
    predicate HasDefaultSettings()
      reads this
    {
      && level == WARNING
      && stackTraceLevel == EMERGENCY
      && showShortFile
      && shortFileNameDepth == 1
      && showPackage
      && !showFuncName
    }

    /** `NewLogger`: bind the writer, then `init`. */
    constructor (out: Writer)
      ensures this.out == out
      ensures HasDefaultSettings()
    {
      this.out := out;
      new;
      Init();
    }

    method Init()
      modifies this
      ensures HasDefaultSettings()
    {
      level := WARNING;
      stackTraceLevel := EMERGENCY;
      showShortFile := true;
      shortFileNameDepth := 1;
      showPackage := true;
      showFuncName := false;
    }

    method SetLevel(l: Level)
      modifies this`level
      ensures level == l
    {
      level := l;
    }

    method SetStackTraceLevel(l: Level)
      modifies this`stackTraceLevel
      ensures stackTraceLevel == l
    {
      stackTraceLevel := l;
    }

    method ShowShortFileName()
      modifies this`showShortFile
      ensures showShortFile
    {
      showShortFile := true;
    }

    /** The depth is stored as given; it is clamped only where it is used. */
    method SetShortFileNameDepth(depth: int)
      modifies this`shortFileNameDepth
      ensures shortFileNameDepth == depth
    {
      shortFileNameDepth := depth;
    }

    method ShowFullFileName()
      modifies this`showShortFile
      ensures !showShortFile
    {
      showShortFile := false;
    }

    method ShowFuncName()
      modifies this`showFuncName
      ensures showFuncName
    {
      showFuncName := true;
    }

    method HideFuncName()
      modifies this`showFuncName
      ensures !showFuncName
    {
      showFuncName := false;
    }

    method ShowPackage()
      modifies this`showPackage
      ensures showPackage
    {
      showPackage := true;
    }

    method HidePackage()
      modifies this`showPackage
      ensures !showPackage
    {
      showPackage := false;
    }

    /** The file part of the location annotation. */
    function ShownFile(file: string): (r: string)
      reads this
      ensures showShortFile ==> r == ShortFileName(file, shortFileNameDepth)
      ensures !showShortFile ==> r == file
    {
      if showShortFile then ShortFileName(file, shortFileNameDepth) else file
    }

    /** The function part of the location annotation. */
    function ShownFunc(funcName: string): (r: string)
      reads this
      ensures showPackage ==> r == funcName
      ensures !showPackage ==> r == BaseName(funcName)
    {
      if showPackage then funcName else BaseName(funcName)
    }

    /** `fileInfo`: `[file:line]`, `[file:line:func]`, or `[???]` when no frame is available. */
    function FileInfo(frame: Option<Frame>): (r: string)
      reads this
      ensures frame.None? ==> r == "[???]"
      ensures frame.Some? && !showFuncName ==>
        r == "[" + ShownFile(frame.value.file) + ":" + Decimal.IntToString(frame.value.line) + "]"
      ensures frame.Some? && showFuncName ==>
        r == "[" + ShownFile(frame.value.file) + ":" + Decimal.IntToString(frame.value.line)
             + ":" + ShownFunc(frame.value.funcName) + "]"
    {
      match frame
      case None => "[???]"
      case Some(f) =>
        var file := ShownFile(f.file);
        if showFuncName then
          "[" + file + ":" + Decimal.IntToString(f.line) + ":" + ShownFunc(f.funcName) + "]"
        else
          "[" + file + ":" + Decimal.IntToString(f.line) + "]"
    }

    /** The chunks one `log` call at `l` adds to the writer: none if filtered, else one record. */
    function Emission(l: Level, timestamp: string, frame: Option<Frame>, msg: string, dump: string)
      : (chunks: seq<string>)
      reads this
      ensures |chunks| <= 1
      ensures |chunks| == 1 <==> l <= level
      ensures l <= level ==>
        chunks[0] == LogRecord(timestamp, l, FileInfo(frame), msg, l <= stackTraceLevel, StackTrace(dump))
    {
      if l > level then []
      else [LogRecord(timestamp, l, FileInfo(frame), msg, l <= stackTraceLevel, StackTrace(dump))]
    }

    /** `log`: filter by level, compose the record step by step, write it once. */
    method Log(l: Level, timestamp: string, frame: Option<Frame>, msg: string, dump: string)
      modifies out
      ensures out.written == old(out.written) + Emission(l, timestamp, frame, msg, dump)
    {
      if l > level {
        return;
      }
      var buffer := timestamp;
      buffer := buffer + " ";
      buffer := buffer + "[" + l.String() + "]";
      buffer := buffer + FileInfo(frame);
      buffer := buffer + ": ";
      buffer := buffer + msg;
      buffer := buffer + "\n";
      assert buffer == LogLine(timestamp, l, FileInfo(frame), msg);
      if l <= stackTraceLevel {
        buffer := buffer + StackBegin;
        buffer := buffer + StackTrace(dump);
        buffer := buffer + StackEnd;
      }
      assert buffer == LogRecord(timestamp, l, FileInfo(frame), msg, l <= stackTraceLevel, StackTrace(dump));
      Output(buffer);
    }

    /** `print`: the message and a newline, whatever the level settings. */
    method Print(msg: string)
      modifies out
      ensures out.written == old(out.written) + [msg + "\n"]
    {
      var buffer := msg;
      buffer := buffer + "\n";
      Output(buffer);
    }

    /** `PrintStack`: only the (truncated) dump, whatever the level settings. */
    method PrintStack(dump: string)
      modifies out
      ensures out.written == old(out.written) + [StackTrace(dump)]
    {
      Output(StackTrace(dump));
    }

    /** `output`: one write of the whole buffer (under the mutex in the original). */
    method Output(msg: string)
      modifies out
      ensures out.written == old(out.written) + [msg]
    {
      out.Write(msg);
    }

    method Emergency(msg: string, timestamp: string, frame: Option<Frame>, dump: string)
      modifies out
      ensures out.written == old(out.written) + Emission(EMERGENCY, timestamp, frame, msg, dump)
    {
      Log(EMERGENCY, timestamp, frame, msg, dump);
    }

    method Alert(msg: string, timestamp: string, frame: Option<Frame>, dump: string)
      modifies out
      ensures out.written == old(out.written) + Emission(ALERT, timestamp, frame, msg, dump)
    {
      Log(ALERT, timestamp, frame, msg, dump);
    }

    method Critical(msg: string, timestamp: string, frame: Option<Frame>, dump: string)
      modifies out
      ensures out.written == old(out.written) + Emission(CRITICAL, timestamp, frame, msg, dump)
    {
      Log(CRITICAL, timestamp, frame, msg, dump);
    }

    method Error(msg: string, timestamp: string, frame: Option<Frame>, dump: string)
      modifies out
      ensures out.written == old(out.written) + Emission(ERROR, timestamp, frame, msg, dump)
    {
      Log(ERROR, timestamp, frame, msg, dump);
    }

    method Warning(msg: string, timestamp: string, frame: Option<Frame>, dump: string)
      modifies out
      ensures out.written == old(out.written) + Emission(WARNING, timestamp, frame, msg, dump)
    {
      Log(WARNING, timestamp, frame, msg, dump);
    }

    method Notice(msg: string, timestamp: string, frame: Option<Frame>, dump: string)
      modifies out
      ensures out.written == old(out.written) + Emission(NOTICE, timestamp, frame, msg, dump)
    {
      Log(NOTICE, timestamp, frame, msg, dump);
    }

    method Info(msg: string, timestamp: string, frame: Option<Frame>, dump: string)
      modifies out
      ensures out.written == old(out.written) + Emission(INFO, timestamp, frame, msg, dump)
    {
      Log(INFO, timestamp, frame, msg, dump);
    }

    method Debug(msg: string, timestamp: string, frame: Option<Frame>, dump: string)
      modifies out
      ensures out.written == old(out.written) + Emission(DEBUG, timestamp, frame, msg, dump)
    {
      Log(DEBUG, timestamp, frame, msg, dump);
    }
  }

  /** The package-level `defaultLogger` variable, bound to the process's standard error. */
  class DefaultLoggerSlot {
    const stderr: Writer
    var defaultLogger: Logger?

    constructor (stderr: Writer)
      ensures this.stderr == stderr && defaultLogger == null
    {
      this.stderr := stderr;
      defaultLogger := null;
    }

    /** `getDefaultLogger`: build the logger on first use, return that same one afterwards. */
    method GetDefaultLogger() returns (l: Logger)
      modifies this`defaultLogger
      ensures defaultLogger == l
      ensures old(defaultLogger) != null ==> l == old(defaultLogger)
      ensures old(defaultLogger) == null ==> fresh(l) && l.out == stderr && l.HasDefaultSettings()
    {
      if defaultLogger != null {
        return defaultLogger;
      }
      defaultLogger := new Logger(stderr);
      l := defaultLogger;
    }
  }

  /** Any two uses of the default logger see the same instance, whatever was configured in between. */
  method DefaultLoggerIsShared(slot: DefaultLoggerSlot) returns (first: Logger, second: Logger)
    modifies slot`defaultLogger, slot.defaultLogger
    ensures first == second
    ensures old(slot.defaultLogger) == null ==> fresh(first) && first.out == slot.stderr
  {
    first := slot.GetDefaultLogger();
    first.SetLevel(INFO);
    second := slot.GetDefaultLogger();
  }

  /** The threshold cases: the level filter and the separate stack-trace threshold. */
  method ThresholdScenarios(timestamp: string, frame: Option<Frame>, msg: string, dump: string)
  {
    var w := new Writer();
    var logger := new Logger(w);
    logger.Error(msg, timestamp, frame, dump);
    assert |w.written| == 1;
    logger.Notice(msg, timestamp, frame, dump);
    assert |w.written| == 1;

    logger.SetLevel(DEBUG);
    logger.SetStackTraceLevel(CRITICAL);
    var info := logger.FileInfo(frame);
    logger.Alert(msg, timestamp, frame, dump);
    assert w.written[1] == LogLine(timestamp, ALERT, info, msg) + StackBlock(StackTrace(dump));
    logger.Error(msg, timestamp, frame, dump);
    assert w.written[2] == LogLine(timestamp, ERROR, info, msg);
    logger.Print(msg);
    assert w.written[3] == msg + "\n";
  }
}
