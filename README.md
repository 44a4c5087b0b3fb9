# Verified model of the logger policy layer

This project models the policy that `library/logger/logger.go` adds on top of the
zap logging engine, and proves its properties in Dafny:

- **Level tokens** (`zapLevel`): a level string becomes one of the seven zapcore
  severities (Debug = -1 < Info = 0 < Warn = 1 < Error = 2 < DPanic = 3 < Panic = 4 < Fatal = 5),
  or the error `"error level:" + token`.
- **Options** (`defaultOptions`, the `With*` setters, the option loop of `NewLogger`):
  a six-field record starts from its defaults and is updated in place by each
  option in call order, so the last write to a field wins.
- **Dual-sink routing** (`infoEnabler`, `errorEnabler`): below the threshold both
  cores reject a record; at or above it exactly one accepts, the info core up to
  Info and the error core from Warn on. The error enabler also decides stack traces.
- **Field merging** (`extractFields`): context fields and call-site fields are
  merged in a map keyed by field name. Call-site fields win, later call-site
  fields win over earlier ones, and the result lists each key once, in no fixed order.
- **Duration encoding**: nanoseconds become milliseconds by Go's integer
  division, which truncates toward zero.

Files, one module each: `wrappers.dfy` (the result type), `levels.dfy`,
`settings.dfy` (the `Options` class and its value-level specification),
`routing.dfy`, `fields.dfy`, `encoding.dfy`, `logging.dfy` (the `Logger` class and `NewLogger`, and a
client module `LoggingClient` that builds loggers and routes records through them).

Modelling choices:
- Each `With*` closure is represented by a constructor of the datatype
  `Settings.Option` carrying the captured argument. `Options.Apply` runs one on the
  mutable `Options` object.
- `io.Writer` values are opaque. `Settings.Writer` is either `Stdout` or a
  caller-supplied writer known by an identifier.
- The map that `conversion.StructToMap(ValueHTTPFields(ctx))` returns is a parameter
  of `ExtractFields`: whatever map it returns, possibly nil or partial. The source
  discards its error. Field payloads, including what `zap.Reflect` boxes, are a type parameter.
- `zapcore.Level` is an `int8` (`Levels.Int8`). The parser yields one of the seven
  named severities (`Levels.Level`, with their zapcore values given by `Levels.Rank`).
  The enablers take any `int8` level, because the embedded `*zap.Logger` lets
  callers such as `Check` pass levels that have no name.
- Only the exact lower-case and upper-case spellings and "" are accepted, so "Info" is rejected.

## Model

| member | source | states |
|---|---|---|
| `Levels.ParseLevel` | library/logger/logger.go:157-175 | a successful parse yields a severity the token spells (its lower-case or upper-case name, or "" for Info); a failure carries the message "error level:" + token and happens only when the token spells no severity |
| `Levels.ParseLevelExact` | library/logger/logger.go:157-172 | parsing yields severity l if and only if the token spells l |
| `Levels.NoTokenSpellsTwoLevels` | library/logger/logger.go:158-172 | the cases of the switch do not overlap: no token spells two severities |
| `Levels.NamesDiffer` | library/logger/logger.go:158-172 | the names of distinct severities differ in either case, and no lower-case name equals an upper-case one |
| `Levels.NamesRoundTrip` | library/logger/logger.go:157-172 | both names of every severity parse back to that severity, including the upper-case name the capital level encoder writes |
| `Levels.AcceptedTokens` | library/logger/logger.go:157-174 | parsing succeeds on exactly the fifteen listed tokens |
| `Levels.MixedCaseRejected` | library/logger/logger.go:173-174 | mixed-case tokens such as "Info" and unknown ones such as "verbose" are rejected, with the message "error level:" + token |
| `Settings.FieldsDetermineValues` | library/logger/logger.go:29-36 | two option records that agree on all six fields are equal |
| `Settings.Defaults` | library/logger/logger.go:40-49 | the default record has level "info", callSkip 1, module and serviceName "default", and both writers stdout |
| `Settings.ApplyAll` | library/logger/logger.go:76-79 | running no option leaves the record as it was; after a non-empty run, the field the last option targets holds that option's argument |
| `Settings.Effective` | library/logger/logger.go:76-79 | the record `NewLogger` uses: every field that no option targets keeps its default |
| `Settings.Set` | library/logger/logger.go:51-73 | an option assigns its argument to its own field and leaves the other five unchanged |
| `Settings.UntouchedFieldKept` | library/logger/logger.go:76-79 | a field that no option targets keeps its starting value |
| `Settings.LastSetterKept` | library/logger/logger.go:76-79 | a field ends up with the argument of the last option that targets it |
| `Settings.LastWriteWins` | library/logger/logger.go:51-79 | for every field: the last targeting option's argument, or the starting value if none targets it |
| `Settings.SettersOnDifferentFieldsCommute` | library/logger/logger.go:51-79 | two options that target different fields give the same record in either order |
| `Settings.NoOptionsGiveDefaults` | library/logger/logger.go:40-49 | with no options the effective record is level "info", callSkip 1, module "default", serviceName "default", both writers stdout |
| `Settings.ModuleSetTwice` | library/logger/logger.go:55-79 | WithModule("a") followed by WithModule("b") leaves module "b" |
| `Settings.Options.constructor` | library/logger/logger.go:40-49 | a fresh options object holds the six default values |
| `Settings.Options.Apply` | library/logger/logger.go:51-73 | running one option changes the object's contents exactly as `Set` describes |
| `Routing.InfoEnabled` | library/logger/logger.go:116-123 | the info enabler accepts level s exactly when threshold <= s <= Info |
| `Routing.ErrorEnabled` | library/logger/logger.go:125-132 | the error enabler accepts level s exactly when s >= threshold and s >= Warn |
| `Routing.StacktraceEnabled` | library/logger/logger.go:108 | a stack trace is attached exactly when s >= threshold and s >= Warn, the error enabler's condition |
| `Routing.Destinations` | library/logger/logger.go:96-99 | a record goes to the info sink exactly when the info enabler accepts it, and to the error sink exactly when the error enabler does |
| `Routing.RoutingPartition` | library/logger/logger.go:116-132 | for every int8 level s: below the threshold both enablers reject, and at or above it exactly one accepts |
| `Routing.UnnamedLevels` | library/logger/logger.go:116-132 | a level below Debug is dropped whatever the threshold; a level above Fatal goes to the error sink alone |
| `Routing.ExactlyOneSink` | library/logger/logger.go:93-99 | a record below the threshold reaches no sink, and any other record reaches exactly one |
| `Routing.StacktraceOnlyOnErrorSink` | library/logger/logger.go:108 | a stack trace is attached exactly to the records the error sink takes, never to info-sink records |
| `Routing.RoutingExamples` | library/logger/logger.go:116-132 | threshold Warn drops Info and sends Warn and Error to the error sink with a stack; threshold Debug sends Debug to the info sink without a stack and Warn to the error sink |
| `Encoding.EncodeDuration` | library/logger/logger.go:147-149 | the result is Go's truncated quotient by 1,000,000: the remainder is below 1,000,000 in magnitude and is zero or has the sign of the duration |
| `Encoding.EncodeDurationIsOdd` | library/logger/logger.go:148 | negating the duration negates the encoding |
| `Encoding.EncodeDurationVersusEuclidean` | library/logger/logger.go:148 | the encoding equals floor division for non-negative durations and is one more than it for negative durations that are not whole milliseconds |
| `Encoding.EncodeDurationBounds` | library/logger/logger.go:148 | the encoding fits in int64, has the sign of the duration and no larger magnitude |
| `Encoding.EncodeDurationExamples` | library/logger/logger.go:148 | 1999999 ns gives 1, -1999999 ns gives -1, -1 ns and 999999 ns give 0 |
| `Fields.Reflected` | library/logger/logger.go:200-203 | the first loop's map has exactly the context's keys, and each entry is a field with that key and the context value |
| `Fields.Overlay` | library/logger/logger.go:205-207 | storing the call-site fields gives a map whose keys are the earlier keys plus the call-site keys |
| `Fields.Merged` | library/logger/logger.go:200-207 | the merge's keys are the context keys plus the call-site keys |
| `Fields.KeysOfSnoc` | library/logger/logger.go:205-207 | a list's keys are the keys of all but its last field plus the last field's key |
| `Fields.OverlayKeys` | library/logger/logger.go:205-207 | storing call-site fields keeps every entry stored under its own key |
| `Fields.OverlayLastWins` | library/logger/logger.go:205-207 | a call-site key is bound to the last call-site field with that key |
| `Fields.OverlayKeepsOthers` | library/logger/logger.go:205-207 | a key that no call-site field uses keeps its earlier entry, or stays absent |
| `Fields.MergedSpec` | library/logger/logger.go:198-207 | the merge has the union of context and call-site keys; a call-site key has the last call-site field with it; any other key has its context value |
| `Fields.MergeExamples` | library/logger/logger.go:198-207 | a call-site requestId overrides the context's requestId, and a context requestId and a call-site userId both appear |
| `Fields.KeysOfAppend` | library/logger/logger.go:209-212 | appending a field to a list adds exactly its key |
| `Fields.ReflectContext` | library/logger/logger.go:200-203 | the first loop of `extractFields` builds exactly the reflected context map |
| `Fields.ListFields` | library/logger/logger.go:209-212 | the last loop lists each entry of the map once: no repeated key, exactly the map's keys, each field the map's entry for its key |
| `Fields.ExtractFields` | library/logger/logger.go:198-215 | the returned list has no repeated key, its keys are exactly the merge's keys, and each field is the merge's entry for its key |
| `Logging.Logger.constructor` | library/logger/logger.go:86-89 | the logger holds the given options and threshold, and the threshold is the parse of the options' level string |
| `Logging.Logger.GetLevel` | library/logger/logger.go:153-155 | the returned severity is the parse of the logger's level string |
| `Logging.Logger.Sinks` | library/logger/logger.go:93-132 | for this logger's threshold t: the info sink takes s exactly when t <= s <= Info, the error sink exactly when s >= t and s >= Warn, at most one sink takes a record, and a stack trace goes with the error sink |
| `LoggingClient.WarnLoggerRouting` | library/logger/logger.go:75-132 | a logger built with WithModule("orders") and WithLevel("warn") has threshold Warn and module "orders", drops Debug and Info, and sends Warn and Error to the error sink |
| `LoggingClient.MixedCaseLevelRefused` | library/logger/logger.go:81-84 | building a logger with WithLevel("Warn") fails with "error level:Warn" |
| `Logging.NewLogger` | library/logger/logger.go:75-113 | an unparsable effective level string gives the error "error level:" + level and no logger; otherwise a fresh logger holding the effective options, whose GetLevel is the parsed severity |

## Left out

- Settings.Option: `Option` is an open function type in the source (`type Option func(l *Options)`). The model has only the six closures built by the `With*` functions. It does not model a nil `Option`, which panics when `NewLogger` calls it. It also does not model a caller-written closure, which may change any number of fields, for example by resetting the whole record. `Settings.LastWriteWins` and "each option changes only its own field" hold only for the six `With*` closures.
- The zap engine: `zap.New`, `zapcore.NewTee`, `zapcore.NewCore`, the JSON encoder, caller and stack capture, `AddCaller` and `AddCallerSkip` (library/logger/logger.go:91-111). These are library calls. Only the enablers, the options and the fields handed to them are modelled.
- The two fixed fields `module` and `serviceName` (library/logger/logger.go:101-104): their key constants `Module` and `SericeName` are declared in a file that is not part of this model. Which values they carry is covered by `NewLogger` keeping the effective options.
- The per-severity methods `Debug`, `Info`, `Warn`, `Error` and `Fatal` (library/logger/logger.go:178-196). Each only passes `extractFields`' result to the engine. Gating is modelled by `Routing`, the fields by `Fields.ExtractFields`. Fatal's process exit is an engine side effect.
- The key names and the time and caller encoders of `formatEncoder` (library/logger/logger.go:134-146). These are engine configuration, and timestamp formatting depends on Go's time library.
- `io.Writer` sinks, `zapcore.AddSync` and `os.Stdout`: this is I/O. Writers are opaque identifiers.
- `conversion.StructToMap(ValueHTTPFields(ctx))`: foreign code. Its result is a parameter, and its error is discarded as in the source.
- `zap.Reflect` boxing: values are an opaque type parameter.
- The `cfg *Config` parameter of `NewLogger` and the `Config` type: `NewLogger` never reads them.
- The embedded `*zap.Logger` of `Logger`: it is the engine.
- resource/resource.go: it declares global variables and has no logic.
