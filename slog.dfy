/**
 * The structured-logging collaborator (Go's log/slog) as far as this package
 * touches it: dynamic values, attributes, records, the handler chain a logger
 * holds, logger handles with identity, and what the output sinks receive.
 * Everything slog does internally (encoding, attribute conversion) is opaque.
 */
module Slog {

  /** slog.Level: a Go int; lower is more verbose. */
  type Level = int

  /** A program counter (Go uintptr); 0 means "no frame recorded". */
  type PC = nat

  /** The location slog captures for a record (slog.Source). */
  datatype Source = Source(funcName: string, file: string, line: int)

  /** A Go `any`, told apart by its dynamic type. */
  datatype Any =
    | Str(s: string)              // a string
    | Int(i: int)                 // a Go int
    | LevelValue(level: Level)    // a slog.Level (a distinct named type)
    | SourceRef(src: Source)      // a non-nil *slog.Source
    | LoggerRef(logger: Logger?)  // a *slog.Logger, possibly nil
    | Opaque(id: nat)             // a value of any other dynamic type

  /** slog.SourceKey, the key of the built-in source attribute. */
  const SourceKey: string := "source"

  /** slog.Attr: a key and a value. */
  datatype Attr = Attr(key: string, value: Any)

  /** An output destination (an io.Writer). */
  datatype Sink = Stdout | Writer(id: nat)

  /** A Go error; Nil is the nil error. */
  datatype Error = Nil | WriteError(id: nat)

  /** slog.Record, without its timestamp. */
  datatype Record = Record(level: Level, msg: string, args: seq<Any>, pc: PC)

  /**
   * The slog.Handler a logger holds. JSONHandler is this package's adapter
   * (json_handler.go); the other three are slog's JSON encoder, always built
   * here with Level: globalLevel and ReplaceAttr: replaceSource, and the
   * handlers slog derives from it with WithAttrs and WithGroup.
   */
  datatype Handler =
    | JSONHandler(inner: Handler)
    | Encoder(out: Sink, addSource: bool)
    | WithAttrsOf(parent: Handler, attrs: seq<Any>)
    | WithGroupOf(parent: Handler, name: string)

  /** What a slog encoder writes: the record and the handler chain that renders it. */
  datatype Entry = Entry(handler: Handler, record: Record)

  /**
   * What the Go runtime and the sink report during one logging call: the PC
   * slog captures itself, the PC runtime.Callers(skip, pcs[:1]) leaves in
   * pcs[0] when called from the adapter's Handle, and the writer's error.
   */
  datatype Runtime = Runtime(capturedPC: PC, callers: int -> PC, writeErr: Error)

  /** A *slog.Logger: an immutable handle whose identity is its reference. */
  class Logger {
    const handler: Handler

    /** slog.New. */
    constructor (h: Handler)
      ensures handler == h
    {
      handler := h;
    }
  }

  /** Every sink of the process, as the sequence of entries written to them. */
  class Sinks {
    var written: seq<Entry>

    constructor ()
      ensures written == []
    {
      written := [];
    }
  }
}
