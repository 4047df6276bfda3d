# Leveled logger and typed columns, modelled in Dafny

This project models two parts of a Go code base.

The first is a leveled logger. It has eight severity ranks, from EMERGENCY (0) to DEBUG (7).
A message is emitted only when its rank is at or below the configured level.
Each emitted line reads `<timestamp> [<LEVEL>][<file>:<line>(:<func>)]: <message>` and ends with a newline.
A separate stack-trace threshold decides whether a dump of all goroutines, truncated to 8192 bytes, is appended.
The whole buffer goes to the writer in one write.
A raw `Print` path and a raw `PrintStack` path skip the level filter and the prefix.
The file name in the location annotation is shortened to its last `depth` path segments.
That is a backward scan counting `/`, with the depth clamped to at least 1.
A process-wide default logger is built on first use and shared afterwards.

The second is a named, growable column of values, `VDataTypeBase`, and its float64 instance `VFloat64Base`.
It supports append, indexed read, clone under a new name, and an in-place zip-map `Map`.
`Map` works over this column and any number of right-hand columns, and stops at the shortest one.
The small `VDataType` enum of column types comes with its name table.

Files:

- `wrappers.dfy`: `Option`. It stands for Go's nil, for nil slices and for a nil `op` function.
- `decimal.dfy`: the decimal rendering that `%d` gives the line number. It comes with a proved round trip.
- `logger.dfy` (module `Logging`): the severity type and its names.
  - Path shortening: a recursive definition `Suffix`, its lemmas, and the imperative `ExtractFileName`, proved equal to it.
  - Stack truncation, and the layout of a record.
  - The `Writer` sink and the `Logger` class, with its setters, its emission methods and `fileInfo`.
  - The default-logger slot.
- `vdata.dfy` (module `VData`): `VDataType` and `String`.
- `vdata_base.dfy` (module `VDataBase`): the generic column class and the functions that specify `Map`.
  - `MinLen` is the number of rows transformed.
  - `Row` is the argument list for one row.
  - `Mapped` is the resulting contents.
- `vfloat64_base.dfy` (module `VFloat64`): the column at element type `Float64`, with the generated file's operations.

Modelling choices:

- The sink is a `Writer` object whose `written` field is the sequence of chunks received.
  One `Write` call is one chunk, so "each call's output is written whole" can be seen in the model's state.
  The logger keeps the writer it was given as a `const` reference.
- The runtime supplies four values, and each becomes a parameter of the logging methods:
  - `timestamp` is the formatted time.
  - `frame` is what `runtime.Caller` reports (`None` when it fails), with the function name already resolved from the pc.
  - `msg` is the text `fmt.Sprintf` produced.
  - `dump` is the full goroutine dump, which `StackTrace` truncates to the buffer size.
- Go strings and byte buffers are `seq<char>`, with one char per byte.
- `Map`'s `op` is an `Option<seq<T> -> T>`, where `None` is the nil function.
  Its result is proved without assuming that the right-hand columns differ from the column being updated.
  The reason is that row `i` is read before it is written, so aliasing does not change the result.
- `ThresholdScenarios` in `logger.dfy` plays through these cases:
  - At level WARNING, ERROR is emitted and NOTICE is not.
  - At level DEBUG with trace threshold CRITICAL, ALERT gets a stack block and ERROR does not.
  - `Print` adds only the message and a newline.

## Model

| member | source | states |
|---|---|---|
| `Logging.Level.String` | vendor/github.com/lioneagle/goutil/src/logger/log.go:30-37 | a rank in 0..7 renders as its entry of the eight-name table; any other value renders as "???", and the table is never indexed out of range |
| `Logging.LevelStringKnown` | vendor/github.com/lioneagle/goutil/src/logger/log.go:17-37 | a rank renders as something other than "???" exactly when it lies between EMERGENCY and DEBUG, and distinct known ranks get distinct names |
| `Logging.ClampDepth` | vendor/github.com/lioneagle/goutil/src/logger/log.go:172-174 | a configured depth below 1 is used as 1; a depth of 1 or more is used as is |
| `Logging.SuffixSpec` | vendor/github.com/lioneagle/goutil/src/logger/log.go:176-186 | the shortened name is a suffix of the path; with at least d slashes it holds exactly d-1 slashes and is preceded by a '/' in the path; with fewer it is the whole path |
| `Logging.ShortFileNameSpec` | vendor/github.com/lioneagle/goutil/src/logger/log.go:171-187 | the same properties for the configured depth, with a depth below 1 behaving as depth 1 |
| `Logging.ShortFileNameExamples` | vendor/github.com/lioneagle/goutil/src/logger/log.go:171-187 | "a/b/c/d.go" shortens to "d.go" at depth 1 and depth 0, to "c/d.go" at depth 2, and stays whole at depth 99 |
| `Logging.ExtractFileName` | vendor/github.com/lioneagle/goutil/src/logger/log.go:171-187 | the backward scan with its early exit on the depth-th '/' returns exactly the specified short name |
| `Logging.StackTrace` | vendor/github.com/lioneagle/goutil/src/logger/log.go:165-169 | the dump returned is a prefix of the full dump, at most 8192 long; it is the whole dump when that fits and exactly 8192 long when it does not |
| `Logging.LogRecordLayout` | vendor/github.com/lioneagle/goutil/src/logger/log.go:107-125 | a record starts with the line, which starts with the timestamp and " [" and ends with the message and a newline; it is longer than the line exactly when a stack block is requested, that block is BEGIN marker + trace + END marker, and a trace within the buffer size bounds the record's length |
| `Logging.Writer.Write` | vendor/github.com/lioneagle/goutil/src/logger/log.go:140 | one write appends exactly the given chunk to what the writer has received |
| `Logging.Logger.constructor` | vendor/github.com/lioneagle/goutil/src/logger/log.go:51-55 | a new logger keeps exactly the writer passed in and has the default settings |
| `Logging.Logger.Init` | vendor/github.com/lioneagle/goutil/src/logger/log.go:57-64 | level WARNING, stack-trace level EMERGENCY, short file names on at depth 1, package shown, function name hidden; the writer is untouched |
| `Logging.Logger.SetLevel` | vendor/github.com/lioneagle/goutil/src/logger/log.go:66-68 | stores the level as given, with no clamping, and changes no other field |
| `Logging.Logger.SetStackTraceLevel` | vendor/github.com/lioneagle/goutil/src/logger/log.go:70-72 | stores the stack-trace level as given and changes no other field |
| `Logging.Logger.ShowShortFileName` | vendor/github.com/lioneagle/goutil/src/logger/log.go:74-76 | turns short file names on and changes no other field |
| `Logging.Logger.SetShortFileNameDepth` | vendor/github.com/lioneagle/goutil/src/logger/log.go:78-80 | stores the depth raw, even below 1, and changes no other field |
| `Logging.Logger.ShowFullFileName` | vendor/github.com/lioneagle/goutil/src/logger/log.go:82-84 | turns short file names off and changes no other field |
| `Logging.Logger.ShowFuncName` | vendor/github.com/lioneagle/goutil/src/logger/log.go:86-88 | turns function names on and changes no other field |
| `Logging.Logger.HideFuncName` | vendor/github.com/lioneagle/goutil/src/logger/log.go:90-92 | turns function names off and changes no other field |
| `Logging.Logger.ShowPackage` | vendor/github.com/lioneagle/goutil/src/logger/log.go:94-96 | turns package-qualified function names on and changes no other field |
| `Logging.Logger.HidePackage` | vendor/github.com/lioneagle/goutil/src/logger/log.go:98-100 | turns package-qualified function names off and changes no other field |
| `Logging.Logger.ShownFile` | vendor/github.com/lioneagle/goutil/src/logger/log.go:147-149 | the file is shortened at the configured depth only when short file names are on, and is verbatim otherwise |
| `Logging.Logger.ShownFunc` | vendor/github.com/lioneagle/goutil/src/logger/log.go:151-155 | the function name is cut to its last '/' segment only when the package is hidden |
| `Logging.Logger.FileInfo` | vendor/github.com/lioneagle/goutil/src/logger/log.go:143-163 | "[???]" without a frame; otherwise "[file:line]", or "[file:line:func]" when function names are on, with the shown file and function and the decimal line |
| `Logging.Logger.Emission` | vendor/github.com/lioneagle/goutil/src/logger/log.go:102-125 | a call at rank l produces one chunk exactly when l <= level and none otherwise; that chunk is the record whose stack block is present exactly when l <= stack-trace level |
| `Logging.Logger.Log` | vendor/github.com/lioneagle/goutil/src/logger/log.go:102-128 | building the buffer piece by piece and writing it once appends exactly the emission for that call to the writer, and nothing when filtered out |
| `Logging.Logger.Print` | vendor/github.com/lioneagle/goutil/src/logger/log.go:130-135 | appends exactly the message and a newline, whatever the level and display settings |
| `Logging.Logger.PrintStack` | vendor/github.com/lioneagle/goutil/src/logger/log.go:261-263 | appends only the truncated dump, with no level filter |
| `Logging.Logger.Output` | vendor/github.com/lioneagle/goutil/src/logger/log.go:137-141 | the buffer reaches the writer as one chunk |
| `Logging.Logger.Emergency` | vendor/github.com/lioneagle/goutil/src/logger/log.go:189-191 | logs at rank EMERGENCY (0) |
| `Logging.Logger.Alert` | vendor/github.com/lioneagle/goutil/src/logger/log.go:197-199 | logs at rank ALERT (1) |
| `Logging.Logger.Critical` | vendor/github.com/lioneagle/goutil/src/logger/log.go:205-207 | logs at rank CRITICAL (2) |
| `Logging.Logger.Error` | vendor/github.com/lioneagle/goutil/src/logger/log.go:213-215 | logs at rank ERROR (3) |
| `Logging.Logger.Warning` | vendor/github.com/lioneagle/goutil/src/logger/log.go:221-223 | logs at rank WARNING (4) |
| `Logging.Logger.Notice` | vendor/github.com/lioneagle/goutil/src/logger/log.go:229-231 | logs at rank NOTICE (5) |
| `Logging.Logger.Info` | vendor/github.com/lioneagle/goutil/src/logger/log.go:237-239 | logs at rank INFO (6) |
| `Logging.Logger.Debug` | vendor/github.com/lioneagle/goutil/src/logger/log.go:245-247 | logs at rank DEBUG (7) |
| `Logging.DefaultLoggerSlot.constructor` | vendor/github.com/lioneagle/goutil/src/logger/log.go:265 | the default logger starts out absent and the slot is bound to the standard-error writer |
| `Logging.DefaultLoggerSlot.GetDefaultLogger` | vendor/github.com/lioneagle/goutil/src/logger/log.go:267-273 | on first use it builds a logger with the default settings on standard error and stores it; on later calls it returns that same stored instance |
| `Logging.DefaultLoggerIsShared` | vendor/github.com/lioneagle/goutil/src/logger/log.go:265-273 | two uses of the default logger return the same instance, even when it was reconfigured in between |
| `Decimal.NatToDecimal` | vendor/github.com/lioneagle/goutil/src/logger/log.go:156 | `%d` of a non-negative line number is a non-empty string of digits, with no leading zero |
| `Decimal.IntToString` | vendor/github.com/lioneagle/goutil/src/logger/log.go:158 | `%d` of a negative value is '-' followed by digits; otherwise it is digits only |
| `Decimal.DecimalRoundTrip` | vendor/github.com/lioneagle/goutil/src/logger/log.go:156-158 | reading the rendered digits back gives the line number |
| `Decimal.IntToStringInjective` | vendor/github.com/lioneagle/goutil/src/logger/log.go:156-158 | distinct line numbers render as distinct strings |
| `VData.VDataType.String` | types/vdata.go:21-26 | values below vDataTypeMAX render as their table entry and every value from vDataTypeMAX to 255 renders as "unknown datatype"; total over uint8 with no out-of-range lookup |
| `VData.DataTypeTable` | types/vdata.go:5-19 | the constants run 0, 1, 2, 3, then vDataTypeMAX = 4, which is the length of the name table; they render as "vdatetime", "vint", "vfloat" and "vstring" |
| `VData.StringDistinguishesKnownTypes` | types/vdata.go:14-26 | "unknown datatype" is returned exactly for values at or past vDataTypeMAX, and distinct known types render distinctly |
| `VDataBase.MinLen` | types/vdata_base_generic.go:61-67 | the row count is at most the column's own length and at most every right-hand length |
| `VDataBase.MinLenAttained` | types/vdata_base_generic.go:61-67 | the row count equals the column's own length or one of the right-hand lengths, and it is the column's length when there are no right-hand columns |
| `VDataBase.RowCount` | types/vdata_base_generic.go:61-67 | the loop over the right-hand columns computes exactly that minimum |
| `VDataBase.Row` | types/vdata_base_generic.go:69-74 | the argument list for row i has one entry per right-hand column, the j-th being that column's element i |
| `VDataBase.GatherRow` | types/vdata_base_generic.go:72-74 | the inner loop fills the argument buffer with element i of each right-hand column, in order |
| `VDataBase.Mapped` | types/vdata_base_generic.go:69-79 | the result keeps the length; each row below the row count is op applied to that row of the right-hand columns; every later row is unchanged |
| `VDataBase.VDataTypeBase.constructor` | types/vdata_base_generic.go:17-27 | stores the name; nil data gives an empty column and other data is kept as given |
| `VDataBase.VDataTypeBase.GetName` | types/vdata_base_generic.go:29-31 | returns the stored name and changes nothing |
| `VDataBase.VDataTypeBase.Len` | types/vdata_base_generic.go:33-35 | returns the number of stored elements and changes nothing |
| `VDataBase.VDataTypeBase.Add` | types/vdata_base_generic.go:37-40 | the new contents are the old contents followed by the values in order; the length grows by their count and the result is nil |
| `VDataBase.VDataTypeBase.GetDataAt` | types/vdata_base_generic.go:46-48 | returns the element at a valid index |
| `VDataBase.VDataTypeBase.Clone` | types/vdata_base_generic.go:50-54 | returns a newly allocated column with the given name and equal contents, so later updates to either column leave the other alone |
| `VDataBase.VDataTypeBase.Map` | types/vdata_base_generic.go:56-79 | a nil op returns the error "op is nil" and leaves the data unchanged; otherwise the result is nil, the data becomes `Mapped` of the old data and the old right-hand contents (even when this column is among them), and only this column's data changes |
| `VFloat64.NewVFloat64Base` | types/vfloat64_base.go:14-24 | a new float64 column with the given name; nil data gives length 0 and other data is kept |
| `VFloat64.Add` | types/vfloat64_base.go:34-37 | appends the values in order, grows the length by their count, returns nil |
| `VFloat64.Clone` | types/vfloat64_base.go:47-51 | a distinct new column with the given name and equal contents |
| `VFloat64.Map` | types/vfloat64_base.go:53-76 | a nil op is an error that leaves the data unchanged; otherwise exactly the first min-length rows are overwritten with op of the right-hand values there, and the length and the other rows stay as they were |

## Left out

- `runtime.Caller`, `runtime.FuncForPC` and `runtime.Stack` are runtime introspection. The frame, the resolved function name and the full dump are inputs instead. The fixed skip depth of 4 passed to `fileInfo` (log.go:116) cannot be expressed, so it is not modelled.
- `time.Now` and the `TIMESTAMP_FMT` layout (log.go:15, 110-113) are not modelled. The timestamp is an opaque string parameter.
- `fmt.Sprintf` substitution is not modelled. The formatted message is an input. `Sprintf("%s", msg)` is taken to be `msg`, and the bracket forms are concatenation. The verb error markers are not modelled.
- The formatted variants `Emergencyf`, `Alertf`, `Criticalf`, `Errorf`, `Warningf`, `Noticef`, `Infof`, `Debugf` and `Printf` (log.go:193-259) are not separate members. They differ from the plain methods only in what `fmt.Sprintf` produces, and that text is already an input, so each would coincide with its plain method.
- `Logging.BaseName`: only "the text after the last '/'" is modelled. `path.Base` also strips trailing slashes and returns "." for an empty name.
- The mutex in `output` and concurrency are not modelled, and neither is the unsynchronised first-use check in `getDefaultLogger`. The model is sequential. That each write stays whole shows only as one chunk per `Write`.
- Write errors from the `io.Writer` are ignored in the source, and the model's `Writer` never fails. `os.Stderr` is the `Writer` the default slot is bound to.
- The `modules` field is unused (log.go:48) and is not modelled.
- The package-level forwarding functions (log.go:275-384) are not modelled. Each one only calls the same method on the default logger.
- The `Level` type and `shortFileNameDepth` are Go `int`. They are unbounded here, and 64-bit wrap-around is not modelled. Column lengths are also unbounded.
- Go slice aliasing is not modelled. The column holds a value sequence, so the model does not capture these effects:
  - The constructor sharing the caller's backing array.
  - `append` sharing that array.
  - Two columns sharing storage.
  The independence of a clone is therefore by construction, with a fresh object.
- `GetData` (types/vdata_base_generic.go:42-44, types/vfloat64_base.go:39-41) returns the slice as `interface{}`. It is not modelled separately; it is the `data` field.
- `VDataTypeBase.GetDataAt`: an index out of range panics in Go. Here it is a precondition.
- Float semantics in `VFloat64Base` are not modelled. `Float64` is the 64-bit pattern `bv64`, because the column never does arithmetic on its elements.
- The `VData` interface (types/vdata.go:28-36) and `types/vobj.go` are declarations only, with no implementation. The commented-out code in types/vdata.go:38-84 is not live. main/main.go only wires up the default logger. None of these are modelled.
- Text is modelled as characters, not bytes, so UTF-8 is not modelled. The 8192 bound counts one character per byte.
