# Context-scoped slog wrapper: a verified model

This project models the Go package `logger`, a thin layer over Go's `log/slog`.
The package carries a logger handle, a severity override and a private caller-skip
hint on a request context. It keeps a process-wide fallback logger and a
process-wide int32 severity. Its entry points resolve the logger from the
context, stamp caller-skip 5 on a derived context, and emit only when the
context-resolved threshold allows. Its handler adapter decides enablement from
the context, overwrites the record's program counter from the skip, survives
handler derivation, and strips function names from source locations.

Modules, one per source file, plus the collaborator's shapes:

- `Slog`: what the package touches of `log/slog`. It holds Go `any` values (`Any`), attributes, records, the handler chain (`Handler`), logger handles (`Logger`, a class whose reference is its identity), and `Sinks`, the entries written to all outputs. It also holds `Runtime`, the opaque runtime inputs of one call.
- `Levels` (level.go): the four severities and `AtomicLevel`, one int32 cell storing `int32(l)` with two's-complement wrap (`ToInt32`).
- `Contexts` (context.go): the context is an immutable chain of `WithValue` layers. A lookup takes the innermost layer whose key matches and then checks its dynamic type. If the key is missing or the type is wrong, it falls back to the process-wide value, which the caller passes in as read at call time.
- `JsonHandler` (json_handler.go): `ReplaceSource`, `Enabled`, `Handle` (the skip branch fills a one-slot PC array), `WithAttrs`/`WithGroup` re-wrapping, and `NewLogger`.
- `Logging` (logger.go): the `Process` class holds the global logger, the global level, `DefaultLogger`, the sinks and the calls made to `exitF`. It has `init`, `SetLogger`, `SetLevel`, `Level`, the dispatchers, `Fatal`/`Fatalf`, `With` and `WithGroup`.
- `Scenarios`: the cases of logger_test.go, restated as methods on a fresh `Process` whose postconditions follow from the contracts above.

Facts about the code that shape the model:
- There are four severities, Debug, Info, Warn and Error. `Fatal` and `Fatalf` log at Error and then call `exitF(1)`.
- The `*f` variants format the message with `fmt.Sprintf` before the level check, so formatting happens even when nothing is written.

## Model

| member | source | states |
|---|---|---|
| Levels.LevelsOrdered | level.go:10-15 | Debug < Info < Warn < Error |
| Levels.ToInt32 | level.go:27-29 | `int32(l)` is l itself when l fits in int32, and otherwise agrees with l modulo 2^32 |
| Levels.ToInt32Wraps | level.go:28 | a level one above the int32 maximum is stored as the int32 minimum, below Debug |
| Levels.AtomicLevel.constructor | level.go:17-21 | the zero-valued cell holds 0 |
| Levels.AtomicLevel.Level | level.go:23-25 | a load is a read-only function and always returns a value in int32 range |
| Levels.AtomicLevel.SetLevel | level.go:27-29 | after the store, Level() is int32(l), and exactly l when l fits |
| Levels.LastWriteWins | level.go:27-29 | after storing a and then b, Level() is int32(b), whatever a was |
| Contexts.Value | context.go:17 | a lookup finds a value exactly when some layer carries the key |
| Contexts.ValueIsInnermost | context.go:17 | the value found is the one on the innermost layer carrying the key, in both directions |
| Contexts.OtherLayersKeepValue | context.go:24-45 | any number of layers under other keys leave a lookup unchanged (induction on the layers) |
| Contexts.FromContext | context.go:16-22 | no logger layer gives the global passed in; a logger layer gives its pointer |
| Contexts.ToContext | context.go:24-26 | the new layer carries the logger, and every other key reads as in ctx |
| Contexts.FromToContext | context.go:16-26 | FromContext(ToContext(ctx, L)) is L for every global |
| Contexts.LevelFromContext | context.go:28-33 | no level layer gives the global level passed in; a level layer gives its level |
| Contexts.LevelToContext | context.go:35-37 | the new layer carries l, and every other key reads as in ctx |
| Contexts.LevelFromToContext | context.go:28-37 | LevelFromContext(LevelToContext(ctx, l)) is l for every global level |
| Contexts.SetCallerSkip | context.go:39-41 | the new layer carries skip as a Go int, and every other key reads as in ctx |
| Contexts.GetCallerSkip | context.go:43-46 | it gives (skip, true) for an int on the key, and (0, false) otherwise |
| Contexts.CallerSkipRoundTrip | context.go:39-46 | getCallerSkip(setCallerSkip(ctx, n)) is (n, true); without the key it is (0, false) |
| Contexts.InnermostAttachmentWins | context.go:16-37 | of two attached loggers, or two attached levels, the later one is found |
| Contexts.WrongTypeShadows | context.go:17-21 | a wrong-typed value on the innermost logger layer reads as absent and hides an outer logger |
| Contexts.KeysIndependent | context.go:10-46 | level and skip layers never change the logger lookup, and so on for each key |
| JsonHandler.ReplaceSource | json_handler.go:33-40 | other keys and non-Source values pass unchanged; a Source keeps File and Line and loses Function |
| JsonHandler.ReplaceSourceIdempotent | json_handler.go:33-40 | applying replaceSource twice is applying it once |
| JsonHandler.ReplaceSourceOnlyClearsFunction | json_handler.go:34-37 | the result is the attribute itself or it with the function name emptied |
| JsonHandler.NewHandler | json_handler.go:22-31 | the adapter wraps slog's encoder on the given writer |
| JsonHandler.NewLogger | json_handler.go:22-31 | a fresh logger handle around that handler |
| JsonHandler.Enabled | json_handler.go:46-48 | the adapter is enabled iff LevelFromContext(ctx) <= l; a bare slog chain compares against the global level |
| JsonHandler.InnerLevelIrrelevant | json_handler.go:46-48 | the wrapped handler plays no role in the adapter's answer |
| JsonHandler.OverrideNeedsAdapter | json_handler.go:46-48 | a Debug override passes Debug through the adapter when the global is Error, though the bare encoder drops it |
| JsonHandler.Stamp | json_handler.go:50-55 | with a skip, only the PC changes, to the one found skip frames up; without one, the record is unchanged |
| JsonHandler.Handled | json_handler.go:50-57 | the adapter forwards the stamped record to its inner chain, and message, level, args and sink are kept |
| JsonHandler.HandleForwardsUnchanged | json_handler.go:50-57 | without a caller-skip the inner handler receives the record untouched |
| JsonHandler.Handle | json_handler.go:50-57 | exactly one entry is written, and the error returned is the inner handler's |
| JsonHandler.WithAttrs | json_handler.go:59-61 | the result is again an adapter, around the inner handler's derived handler, on the same sink |
| JsonHandler.WithGroup | json_handler.go:63-65 | the result is again an adapter, around the inner handler's derived handler, on the same sink |
| JsonHandler.DerivedKeepsOverride | json_handler.go:59-65 | derived handlers answer Enabled exactly as the handler they came from |
| Logging.Emission | logger.go:35-65 | a call writes at most one entry, carrying the call's level, message and args |
| Logging.EmitsIffThreshold | logger.go:35-65 | a call emits iff the threshold is <= its level: the override if attached, else the global level |
| Logging.EmittedRecord | logger.go:35-65 | the emitted entry holds msg and args verbatim and the PC found caller-skip 5 frames up |
| Logging.Process.constructor | logger.go:11-16 | before init: no global logger; level 0, the zero `atomicLevel` of level.go:17-21; `DefaultLogger` the adapter on standard output with source, as json_handler.go:13-20 builds it; nothing written and no exits |
| Logging.Process.Resolve | context.go:16-22 | the package's FromContext on the process: the attached logger if the context carries one, else the global logger as it is at the call |
| Logging.Process.Threshold | context.go:28-33 | the package's LevelFromContext on the process: the attached level if the context carries one, else the global level as it is at the call |
| Logging.Process.Level | logger.go:31-33 | the global level, which is what an empty context resolves to, within int32 |
| Logging.Process.Init | logger.go:18-21 | after init the level is Info and every fall-through lookup finds DefaultLogger |
| Logging.Process.SetLogger | logger.go:23-25 | fall-through lookups now find l; contexts carrying a logger still find their own |
| Logging.Process.SetLevel | logger.go:27-29 | fall-through thresholds now read int32(l); context overrides are unaffected |
| Logging.Process.Dispatch | logger.go:35-65 | the sinks receive exactly Emission for the resolved logger on the skip-stamped context |
| Logging.Process.Debug | logger.go:35-37 | as Dispatch at Debug with the message and args as given |
| Logging.Process.Debugf | logger.go:39-41 | as Dispatch at Debug with the formatted message and no args |
| Logging.Process.Info | logger.go:43-45 | as Dispatch at Info with the message and args as given |
| Logging.Process.Infof | logger.go:47-49 | as Dispatch at Info with the formatted message and no args |
| Logging.Process.Warn | logger.go:51-53 | as Dispatch at Warn with the message and args as given |
| Logging.Process.Warnf | logger.go:55-57 | as Dispatch at Warn with the formatted message and no args |
| Logging.Process.Error | logger.go:59-61 | as Dispatch at Error with the message and args as given |
| Logging.Process.Errorf | logger.go:63-65 | as Dispatch at Error with the formatted message and no args |
| Logging.Process.Fatal | logger.go:67-70 | logs as Error would, then exitF(1) is called exactly once, emitted or not; the exit is recorded with the entry count after the write, so it comes after the entry |
| Logging.Process.Fatalf | logger.go:72-75 | logs the formatted message as Errorf would, then exitF(1) is called exactly once; the exit is recorded with the entry count after the write, so it comes after the entry |
| Logging.Process.WithGroup | logger.go:77-79 | a fresh logger whose handler is the resolved one scoped under the group, still adapted |
| Logging.Process.With | logger.go:81-83 | a new context carrying a fresh logger derived from the resolved one; other keys are unchanged, and ctx still resolves to the old logger |
| Scenarios.DefaultsAfterInit | logger_test.go:12-50 | after init an empty context resolves to DefaultLogger, and the level is Info |
| Scenarios.AttachAndSetDefault | logger_test.go:19-38 | an attached logger is found and the global stays DefaultLogger; after SetLogger(d), an empty context resolves to d |
| Scenarios.GlobalReadAtCallTime | context.go:16-33 | after SetLogger(a)/SetLevel(la) and then SetLogger(b)/SetLevel(lb), a context carrying no logger resolves first to a and then to b, and one carrying no level reads int32(la) and then int32(lb); a context carrying its own is unaffected by either setter |
| Scenarios.InfoThreshold | logger_test.go:88-115 | Info writes nothing at global Warn; at Info it writes the message verbatim |
| Scenarios.OverrideBeatsGlobal | json_handler.go:46-48 | the override scenario: a Debug level attached to the context lets a Debug call write its exact entry while the global level is Error |
| Scenarios.FatalExitsOnce | logger_test.go:168-189 | Fatal and Fatalf write, then exit once each, each exit seeing its own entry already written; a suppressed Fatal still exits |
| Scenarios.WithStaysLocal | logger_test.go:191-213 | records through With carry its attributes; a discarded sibling With changes nothing |
| Scenarios.GroupScopes | logger_test.go:234-245 | a WithGroup logger writes through a handler scoped under the group |

## Left out

- Atomicity and concurrency: the two globals (`atomic.Pointer`, `atomic.Int32`) are plain fields of one sequential `Process`.
- `runtime.Callers` and real program counters: `Runtime.callers` is the opaque PC that `runtime.Callers(skip, pcs[:1])` leaves in `pcs[0]`. slog's own capture is `Runtime.capturedPC`. Whether 5 is the right skip for the real call depth is not modelled.
- slog internals are opaque constructors: JSON encoding, turning args into attributes, group nesting in the output, and record timestamps. The encoder applies `ReplaceAttr` to each attribute, including the source attribute; that is not modelled, and `ReplaceSource` is modelled on its own.
- slog's `Logger.With` with no args and `Logger.WithGroup("")` return the same logger. That shortcut is not modelled: derivation always makes a new handle.
- Handlers other than this package's adapter and slog's JSON encoder are not modelled. A logger set with `SetLogger` is assumed to hold one of these.
- `fmt.Sprintf` is the `sprintf` parameter of the formatted variants. It is called before the level check. Since it is opaque and pure here, the cost of formatting a message that is then dropped is not modelled.
- Output sinks (`os.Stdout`, `io.Writer`): every write is an entry appended to `Sinks.written`. A failing writer is `Runtime.writeErr`. Partial writes are not modelled.
- `os.Exit`: `exitF` is modelled as appending its status, with the number of entries written so far, to `Process.exits`. Execution continues, as with the substitute the tests install.
- A nil `*slog.Logger` resolved by a dispatcher makes Go panic, and so does one resolved by `With` with at least one arg or by `WithGroup` with a non-empty name. Those members require a non-nil resolved logger. `With` with no args and `WithGroup("")` on a nil logger do not panic: slog's receiver shortcut returns nil. The same requires excludes those two cases, as part of the shortcut left out above.
- Logging.Process.With: its requires also excludes a nil resolved logger with no args, where Go returns a context carrying nil instead of panicking.
- Logging.Process.WithGroup: its requires also excludes a nil resolved logger with the empty group name, where Go returns nil instead of panicking.
- A source attribute holding a nil `*slog.Source` would make `replaceSource` panic; it is not modelled.
- Nil contexts: `ctx.Value` on a nil context panics, so they are not modelled. Context kinds other than `WithValue` (cancellation, deadlines) are not modelled either; they add no key layer.
- `slog.Level` is a 64-bit Go `int`. It is modelled as an unbounded `int`, since only the int32 store truncates it.
