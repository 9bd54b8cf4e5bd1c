/**
 * logger.go: the process-wide logger and level, the severity entry points,
 * Fatal with its substitutable exit hook, and the With/WithGroup derivations.
 * Every entry point resolves the logger from the context, stamps a derived
 * context with caller-skip 5 and lets the logger emit only when the adapter
 * reports the level enabled.
 */
module Logging {
  import opened Slog
  import opened Levels
  import opened Contexts
  import opened JsonHandler

  /** The caller-skip every entry point stamps. */
  const CallerSkip: int := 5

  /** The status Fatal and Fatalf pass to exitF. */
  const FatalExitCode: int := 1

  /**
   * What logger writes for one call at level: nothing when the adapter
   * reports the level disabled, else the entry for the record built from
   * msg and args, handled on the context stamped with CallerSkip.
   */
  function Emission(logger: Logger, ctx: Context, level: LogLevel, msg: string, args: seq<Any>,
                    rt: Runtime, globalLevel: LogLevel): (es: seq<Entry>)
    ensures |es| <= 1
    ensures es != [] ==> es[0].record.msg == msg && es[0].record.level == level && es[0].record.args == args
  {
    var stamped := SetCallerSkip(ctx, CallerSkip);
    if Enabled(logger.handler, stamped, level, globalLevel)
    then [Handled(logger.handler, stamped, Record(level, msg, args, rt.capturedPC), rt.callers)]
    else []
  }

  /** A call emits exactly when the effective threshold (override, else global) is at most its level. */
  lemma EmitsIffThreshold(logger: Logger, ctx: Context, level: LogLevel, msg: string, args: seq<Any>,
                          rt: Runtime, globalLevel: LogLevel)
    requires logger.handler.JSONHandler?
    ensures |Emission(logger, ctx, level, msg, args, rt, globalLevel)| == 1 <==> LevelFromContext(ctx, globalLevel) <= level
    ensures CarriesLevel(ctx) ==> (|Emission(logger, ctx, level, msg, args, rt, globalLevel)| == 1 <==> Value(ctx, LevelKey).value.level <= level)
    ensures !CarriesLevel(ctx) ==> (|Emission(logger, ctx, level, msg, args, rt, globalLevel)| == 1 <==> globalLevel <= level)
  {
    var stamped := SetCallerSkip(ctx, CallerSkip);
    assert Value(stamped, LevelKey) == Value(ctx, LevelKey);
  }

  /**
   * An emitted record carries the message and arguments verbatim and the PC
   * found CallerSkip frames up, and is written by the wrapped encoder chain.
   */
  lemma EmittedRecord(logger: Logger, ctx: Context, level: LogLevel, msg: string, args: seq<Any>,
                      rt: Runtime, globalLevel: LogLevel)
    requires Adapted(logger.handler) && LevelFromContext(ctx, globalLevel) <= level
    ensures Emission(logger, ctx, level, msg, args, rt, globalLevel)
            == [Entry(logger.handler.inner, Record(level, msg, args, rt.callers(CallerSkip)))]
  {
    var stamped := SetCallerSkip(ctx, CallerSkip);
    assert Value(stamped, LevelKey) == Value(ctx, LevelKey);
    assert GetCallerSkip(stamped) == (CallerSkip, true);
  }

  /** The process-wide state of the package. */
  class Process {
    /** The global logger (an atomic pointer); nil until init runs. */
    var global: Logger?
    /** globalLevel. */
    const globalLevel: AtomicLevel
    /** DefaultLogger: JSON on standard output, with source locations. */
    const defaultLogger: Logger
    /** Every output sink. */
    const sinks: Sinks
    /**
     * The calls made to exitF, in order: each holds the status and how many
     * entries had been written when the call was made.
     */
    var exits: seq<(int, nat)>

    /** Package variable initialisation, before init runs. */
    constructor ()
      ensures global == null && exits == []
      ensures fresh(globalLevel) && globalLevel.Level() == 0
      ensures fresh(defaultLogger) && defaultLogger.handler == NewHandler(Stdout, true)
      ensures fresh(sinks) && sinks.written == []
    {
      global := null;
      globalLevel := new AtomicLevel();
      defaultLogger := new Logger(NewHandler(Stdout, true));
      sinks := new Sinks();
      exits := [];
    }

    /** FromContext with the global logger as it is now. */
    function Resolve(ctx: Context): (r: Logger?)
      reads this
      ensures !CarriesLogger(ctx) ==> r == global
      ensures CarriesLogger(ctx) ==> Some(LoggerRef(r)) == Value(ctx, LoggerKey)
    {
      FromContext(ctx, global)
    }

    /** The effective threshold: the context's override, else the global level as it is now. */
    function Threshold(ctx: Context): (r: LogLevel)
      reads this, globalLevel
      ensures !CarriesLevel(ctx) ==> r == globalLevel.Level()
      ensures CarriesLevel(ctx) ==> Some(LevelValue(r)) == Value(ctx, LevelKey)
    {
      LevelFromContext(ctx, globalLevel.Level())
    }

    /** Level: the global level, which is what an empty context resolves to. */
    function Level(): (r: LogLevel)
      reads this, globalLevel
      ensures r == Threshold(Background)
      ensures MinInt32 <= r <= MaxInt32
    {
      globalLevel.Level()
    }

    /** init: level Info, global logger DefaultLogger. */
    method Init()
      modifies this, globalLevel
      ensures Level() == LevelInfo && global == defaultLogger
      ensures forall ctx :: !CarriesLogger(ctx) ==> Resolve(ctx) == defaultLogger
      ensures exits == old(exits)
    {
      SetLevel(LevelInfo);
      SetLogger(defaultLogger);
    }

    /** SetLogger: every lookup that falls through now finds l; attached loggers are unaffected. */
    method SetLogger(l: Logger?)
      modifies this
      ensures global == l && exits == old(exits)
      ensures forall ctx :: !CarriesLogger(ctx) ==> Resolve(ctx) == l
      ensures forall ctx :: CarriesLogger(ctx) ==> Resolve(ctx) == Value(ctx, LoggerKey).value.logger
    {
      global := l;
    }

    /** SetLevel: every threshold that falls through now reads int32(l); overrides are unaffected. */
    method SetLevel(l: LogLevel)
      modifies globalLevel
      ensures Level() == ToInt32(l)
      ensures MinInt32 <= l <= MaxInt32 ==> Level() == l
      ensures forall ctx :: !CarriesLevel(ctx) ==> Threshold(ctx) == ToInt32(l)
      ensures forall ctx :: CarriesLevel(ctx) ==> Threshold(ctx) == Value(ctx, LevelKey).value.level
    {
      globalLevel.SetLevel(l);
    }

    /**
     * The common body of every entry point: resolve the logger, stamp the
     * caller-skip on a derived context, and let slog's Logger.log stop at
     * once when the level is disabled or build the record and handle it.
     */
    method Dispatch(ctx: Context, level: LogLevel, msg: string, args: seq<Any>, rt: Runtime)
      requires Resolve(ctx) != null
      modifies sinks
      ensures sinks.written == old(sinks.written) + Emission(Resolve(ctx), ctx, level, msg, args, rt, globalLevel.Level())
    {
      var logger := Resolve(ctx);
      var stamped := SetCallerSkip(ctx, CallerSkip);
      if Enabled(logger.handler, stamped, level, globalLevel.Level()) {
        var record := Record(level, msg, args, rt.capturedPC);
        var _ := Handle(logger.handler, stamped, record, rt, sinks);
      }
    }

    method Debug(ctx: Context, msg: string, args: seq<Any>, rt: Runtime)
      requires Resolve(ctx) != null
      modifies sinks
      ensures sinks.written == old(sinks.written) + Emission(Resolve(ctx), ctx, LevelDebug, msg, args, rt, globalLevel.Level())
    {
      Dispatch(ctx, LevelDebug, msg, args, rt);
    }

    /** Debugf: the message is sprintf(format, args) and carries no attributes. */
    method Debugf(ctx: Context, format: string, args: seq<Any>, sprintf: (string, seq<Any>) -> string, rt: Runtime)
      requires Resolve(ctx) != null
      modifies sinks
      ensures sinks.written == old(sinks.written) + Emission(Resolve(ctx), ctx, LevelDebug, sprintf(format, args), [], rt, globalLevel.Level())
    {
      Dispatch(ctx, LevelDebug, sprintf(format, args), [], rt);
    }

    method Info(ctx: Context, msg: string, args: seq<Any>, rt: Runtime)
      requires Resolve(ctx) != null
      modifies sinks
      ensures sinks.written == old(sinks.written) + Emission(Resolve(ctx), ctx, LevelInfo, msg, args, rt, globalLevel.Level())
    {
      Dispatch(ctx, LevelInfo, msg, args, rt);
    }

    method Infof(ctx: Context, format: string, args: seq<Any>, sprintf: (string, seq<Any>) -> string, rt: Runtime)
      requires Resolve(ctx) != null
      modifies sinks
      ensures sinks.written == old(sinks.written) + Emission(Resolve(ctx), ctx, LevelInfo, sprintf(format, args), [], rt, globalLevel.Level())
    {
      Dispatch(ctx, LevelInfo, sprintf(format, args), [], rt);
    }

    method Warn(ctx: Context, msg: string, args: seq<Any>, rt: Runtime)
      requires Resolve(ctx) != null
      modifies sinks
      ensures sinks.written == old(sinks.written) + Emission(Resolve(ctx), ctx, LevelWarn, msg, args, rt, globalLevel.Level())
    {
      Dispatch(ctx, LevelWarn, msg, args, rt);
    }

    method Warnf(ctx: Context, format: string, args: seq<Any>, sprintf: (string, seq<Any>) -> string, rt: Runtime)
      requires Resolve(ctx) != null
      modifies sinks
      ensures sinks.written == old(sinks.written) + Emission(Resolve(ctx), ctx, LevelWarn, sprintf(format, args), [], rt, globalLevel.Level())
    {
      Dispatch(ctx, LevelWarn, sprintf(format, args), [], rt);
    }

    method Error(ctx: Context, msg: string, args: seq<Any>, rt: Runtime)
      requires Resolve(ctx) != null
      modifies sinks
      ensures sinks.written == old(sinks.written) + Emission(Resolve(ctx), ctx, LevelError, msg, args, rt, globalLevel.Level())
    {
      Dispatch(ctx, LevelError, msg, args, rt);
    }

    method Errorf(ctx: Context, format: string, args: seq<Any>, sprintf: (string, seq<Any>) -> string, rt: Runtime)
      requires Resolve(ctx) != null
      modifies sinks
      ensures sinks.written == old(sinks.written) + Emission(Resolve(ctx), ctx, LevelError, sprintf(format, args), [], rt, globalLevel.Level())
    {
      Dispatch(ctx, LevelError, sprintf(format, args), [], rt);
    }

    /**
     * Fatal: log at Error, then call exitF(1) once, whether or not anything
     * was written; the exit is recorded after the entry, if any.
     */
    method Fatal(ctx: Context, msg: string, args: seq<Any>, rt: Runtime)
      requires Resolve(ctx) != null
      modifies this, sinks
      ensures global == old(global)
      ensures sinks.written == old(sinks.written) + Emission(Resolve(ctx), ctx, LevelError, msg, args, rt, globalLevel.Level())
      ensures exits == old(exits) + [(FatalExitCode, |sinks.written|)]
    {
      Dispatch(ctx, LevelError, msg, args, rt);
      exits := exits + [(FatalExitCode, |sinks.written|)];
    }

    /**
     * Fatalf: log sprintf(format, args) at Error, then call exitF(1) once,
     * recorded after the entry, if any.
     */
    method Fatalf(ctx: Context, format: string, args: seq<Any>, sprintf: (string, seq<Any>) -> string, rt: Runtime)
      requires Resolve(ctx) != null
      modifies this, sinks
      ensures global == old(global)
      ensures sinks.written == old(sinks.written) + Emission(Resolve(ctx), ctx, LevelError, sprintf(format, args), [], rt, globalLevel.Level())
      ensures exits == old(exits) + [(FatalExitCode, |sinks.written|)]
    {
      Dispatch(ctx, LevelError, sprintf(format, args), [], rt);
      exits := exits + [(FatalExitCode, |sinks.written|)];
    }

    /** WithGroup: a new logger whose handler is the resolved one scoped under group. */
    method WithGroup(ctx: Context, group: string) returns (l: Logger)
      requires Resolve(ctx) != null
      ensures fresh(l) && l.handler == JsonHandler.WithGroup(Resolve(ctx).handler, group)
      ensures Adapted(Resolve(ctx).handler) ==> Adapted(l.handler)
    {
      var parent := Resolve(ctx);
      l := new Logger(JsonHandler.WithGroup(parent.handler, group));
    }

    /**
     * With: a new context carrying a new logger derived from the resolved one
     * with args attached; ctx itself still resolves to the old logger.
     */
    method With(ctx: Context, args: seq<Any>) returns (r: Context)
      requires Resolve(ctx) != null
      ensures CarriesLogger(r)
      ensures Resolve(r) != null && fresh(Resolve(r))
      ensures Resolve(r).handler == JsonHandler.WithAttrs(Resolve(ctx).handler, args)
      ensures forall k :: k != LoggerKey ==> Value(r, k) == Value(ctx, k)
    {
      var parent := Resolve(ctx);
      var derived := new Logger(JsonHandler.WithAttrs(parent.handler, args));
      r := ToContext(ctx, derived);
    }
  }
}
