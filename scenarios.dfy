/**
 * The cases of logger_test.go, restated on a fresh process: what the
 * contracts of the package let a caller conclude about each of them.
 */
module Scenarios {
  import opened Slog
  import opened Levels
  import opened Contexts
  import opened JsonHandler
  import opened Logging

  /** After init an empty context resolves to DefaultLogger and the level is Info. */
  method DefaultsAfterInit() returns (p: Process, resolved: Logger?, level: LogLevel)
    ensures resolved == p.defaultLogger && resolved != null
    ensures level == LevelInfo && level == p.Threshold(Background)
  {
    p := new Process();
    p.Init();
    resolved := p.Resolve(Background);
    level := p.Level();
  }

  /**
   * A logger attached to a context is what FromContext returns, and the
   * global logger stays DefaultLogger. Setting the global instead changes
   * what an empty context resolves to.
   */
  method AttachAndSetDefault() returns (defaultLogger: Logger, l: Logger, fromCtx: Logger?, globalAfter: Logger?,
                                        d: Logger, fromEmpty: Logger?)
    ensures fromCtx == l && globalAfter == defaultLogger && globalAfter != l
    ensures fromEmpty == d && d != l
  {
    var p := new Process();
    p.Init();
    defaultLogger := p.defaultLogger;
    l := NewLogger(Writer(0), false);
    var ctx := ToContext(Background, l);
    fromCtx := p.Resolve(ctx);
    globalAfter := p.global;
    d := NewLogger(Writer(1), false);
    p.SetLogger(d);
    fromEmpty := p.Resolve(Background);
  }

  /**
   * FromContext and LevelFromContext read the globals at the call: a context
   * carrying no logger resolves to whichever logger was set last, one
   * carrying no level to whichever level was set last, and a context carrying
   * its own is unaffected by either setter.
   */
  method GlobalReadAtCallTime(ctx: Context, a: Logger?, b: Logger?, la: LogLevel, lb: LogLevel)
    returns (before: Logger?, after: Logger?, levelBefore: LogLevel, levelAfter: LogLevel)
    ensures !CarriesLogger(ctx) ==> before == a && after == b
    ensures CarriesLogger(ctx) ==> before == after == Value(ctx, LoggerKey).value.logger
    ensures !CarriesLevel(ctx) ==> levelBefore == ToInt32(la) && levelAfter == ToInt32(lb)
    ensures CarriesLevel(ctx) ==> levelBefore == levelAfter == Value(ctx, LevelKey).value.level
  {
    var p := new Process();
    p.SetLogger(a);
    p.SetLevel(la);
    before := p.Resolve(ctx);
    levelBefore := p.Threshold(ctx);
    p.SetLogger(b);
    p.SetLevel(lb);
    after := p.Resolve(ctx);
    levelAfter := p.Threshold(ctx);
  }

  /** Info is dropped while the global level is Warn and written verbatim once it is Info. */
  method InfoThreshold(rt: Runtime) returns (quiet: seq<Entry>, loud: seq<Entry>)
    ensures quiet == []
    ensures loud == [Entry(Encoder(Writer(0), false), Record(LevelInfo, "msg", [], rt.callers(CallerSkip)))]
  {
    var p := new Process();
    p.Init();
    var l := NewLogger(Writer(0), false);
    p.SetLogger(l);
    p.SetLevel(LevelWarn);
    var n := |p.sinks.written|;
    p.Info(Background, "msg", [], rt);
    quiet := p.sinks.written[n..];
    p.SetLevel(LevelInfo);
    n := |p.sinks.written|;
    p.Info(Background, "msg", [], rt);
    loud := p.sinks.written[n..];
    EmittedRecord(l, Background, LevelInfo, "msg", [], rt, LevelInfo);
  }

  /** A Debug override on the context lets Debug through while the global level is Error. */
  method OverrideBeatsGlobal(rt: Runtime) returns (written: seq<Entry>)
    ensures written == [Entry(Encoder(Writer(0), false), Record(LevelDebug, "msg", [], rt.callers(CallerSkip)))]
  {
    var p := new Process();
    p.Init();
    var l := NewLogger(Writer(0), false);
    p.SetLogger(l);
    p.SetLevel(LevelError);
    var ctx := LevelToContext(Background, LevelDebug);
    var n := |p.sinks.written|;
    p.Debug(ctx, "msg", [], rt);
    written := p.sinks.written[n..];
    EmittedRecord(l, ctx, LevelDebug, "msg", [], rt, LevelError);
  }

  /**
   * With exitF substituted, Fatal writes its record and then exits once (the
   * exit sees one entry written); Fatalf writes the formatted message and
   * then exits (two entries); and the exit happens even when the level is
   * too high for anything to be written (still two).
   */
  method FatalExitsOnce(rt: Runtime, sprintf: (string, seq<Any>) -> string)
    returns (logged: seq<Entry>, formatted: seq<Entry>, suppressed: seq<Entry>, exits: seq<(int, nat)>)
    ensures logged == [Entry(Encoder(Writer(0), false), Record(LevelError, "msg", [], rt.callers(CallerSkip)))]
    ensures formatted == [Entry(Encoder(Writer(0), false), Record(LevelError, sprintf("msg_%d", [Int(1)]), [], rt.callers(CallerSkip)))]
    ensures suppressed == []
    ensures exits == [(FatalExitCode, 1), (FatalExitCode, 2), (FatalExitCode, 2)]
  {
    var p := new Process();
    p.Init();
    var l := NewLogger(Writer(0), false);
    p.SetLogger(l);
    p.SetLevel(LevelError);
    assert p.sinks.written == [] && p.exits == [];
    EmittedRecord(l, Background, LevelError, "msg", [], rt, LevelError);
    p.Fatal(Background, "msg", [], rt);
    logged := p.sinks.written;
    assert |logged| == 1 && p.exits == [(FatalExitCode, 1)];
    EmittedRecord(l, Background, LevelError, sprintf("msg_%d", [Int(1)]), [], rt, LevelError);
    p.Fatalf(Background, "msg_%d", [Int(1)], sprintf, rt);
    formatted := p.sinks.written[1..];
    assert |p.sinks.written| == 2 && p.exits == [(FatalExitCode, 1), (FatalExitCode, 2)];
    p.SetLevel(LevelError + 4);
    p.Fatal(Background, "msg", [], rt);
    suppressed := p.sinks.written[2..];
    exits := p.exits;
  }

  /**
   * A record logged through With carries its attributes; a sibling derived
   * from the same context and discarded leaves later records unchanged.
   */
  method WithStaysLocal(rt: Runtime) returns (first: seq<Entry>, second: seq<Entry>)
    ensures first == [Entry(WithAttrsOf(Encoder(Writer(0), false), [Str("arg"), Str("val")]),
                            Record(LevelError, "test", [], rt.callers(CallerSkip)))]
    ensures second == first
  {
    var p := new Process();
    p.Init();
    var base := NewLogger(Writer(0), false);
    var ctx := ToContext(Background, base);
    ctx := p.With(ctx, [Str("arg"), Str("val")]);
    var n := |p.sinks.written|;
    p.Error(ctx, "test", [], rt);
    first := p.sinks.written[n..];
    EmittedRecord(p.Resolve(ctx), ctx, LevelError, "test", [], rt, LevelInfo);
    var sibling := p.With(ctx, [Str("f"), Str("f")]);
    n := |p.sinks.written|;
    p.Error(ctx, "test", [], rt);
    second := p.sinks.written[n..];
  }

  /** A logger from WithGroup writes through a handler scoped under the group. */
  method GroupScopes(ctx: Context, r: Record, callers: int -> PC) returns (p: Process, l: Logger, e: Entry)
    ensures e.handler == WithGroupOf(Encoder(Writer(0), false), "group")
    ensures e.record.msg == r.msg && e.record.level == r.level && e.record.args == r.args
  {
    p := new Process();
    p.Init();
    var base := NewLogger(Writer(0), false);
    var attached := ToContext(ctx, base);
    l := p.WithGroup(attached, "group");
    e := Handled(l.handler, attached, r, callers);
  }
}
