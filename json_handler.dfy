/**
 * json_handler.go: the adapter this package wraps around slog's JSON encoder.
 * It decides enablement from the context instead of the encoder's own level,
 * overwrites the record's PC when the context carries a caller-skip, keeps
 * itself around every handler derived from it, and configures the encoder to
 * drop function names from source locations.
 */
module JsonHandler {
  import opened Slog
  import opened Levels
  import opened Contexts

  /** replaceSource: a source attribute keeps its file and line and loses its function name. */
  function ReplaceSource(groups: seq<string>, a: Attr): (r: Attr)
    ensures r.key == a.key
    ensures a.key != SourceKey ==> r == a
    ensures !a.value.SourceRef? ==> r == a
    ensures a.key == SourceKey && a.value.SourceRef? ==>
              r.value.SourceRef? && r.value.src.funcName == "" &&
              r.value.src.file == a.value.src.file && r.value.src.line == a.value.src.line
  {
    if a.key == SourceKey then
      match a.value
      case SourceRef(v) => a.(value := SourceRef(Source("", v.file, v.line)))
      case _ => a
    else
      a
  }

  /** Replacing twice is replacing once. */
  lemma ReplaceSourceIdempotent(groups: seq<string>, a: Attr)
    ensures ReplaceSource(groups, ReplaceSource(groups, a)) == ReplaceSource(groups, a)
  {
  }

  /** The function name is the only thing replaceSource can change. */
  lemma ReplaceSourceOnlyClearsFunction(groups: seq<string>, a: Attr)
    ensures var r := ReplaceSource(groups, a);
            r == a || (a.value.SourceRef? && r == Attr(a.key, SourceRef(a.value.src.(funcName := ""))))
  {
  }

  /** A handler chain built by slog alone, with no adapter inside. */
  predicate SlogChain(h: Handler)
  {
    match h
    case JSONHandler(_) => false
    case Encoder(_, _) => true
    case WithAttrsOf(parent, _) => SlogChain(parent)
    case WithGroupOf(parent, _) => SlogChain(parent)
  }

  /** The shape of every handler this package builds: the adapter around a slog chain. */
  predicate Adapted(h: Handler)
  {
    h.JSONHandler? && SlogChain(h.inner)
  }

  /** The sink at the root of a handler chain. */
  function SinkOf(h: Handler): Sink
  {
    match h
    case JSONHandler(inner) => SinkOf(inner)
    case Encoder(out, _) => out
    case WithAttrsOf(parent, _) => SinkOf(parent)
    case WithGroupOf(parent, _) => SinkOf(parent)
  }

  /**
   * The handler NewLogger (and DefaultLogger) wraps: slog's JSON encoder on
   * out, with Level: globalLevel and ReplaceAttr: replaceSource.
   */
  function NewHandler(out: Sink, addSource: bool): (h: Handler)
    ensures Adapted(h) && SinkOf(h) == out
  {
    JSONHandler(Encoder(out, addSource))
  }

  /** NewLogger: a new logger handle around NewHandler(out, addSource). */
  method NewLogger(out: Sink, addSource: bool) returns (l: Logger)
    ensures fresh(l) && l.handler == NewHandler(out, addSource)
  {
    l := new Logger(NewHandler(out, addSource));
  }

  /**
   * Handler.Enabled. The adapter compares against the context-resolved
   * threshold; slog's encoder, configured with Level: globalLevel, against
   * the global level, and its derived handlers share its options.
   */
  function Enabled(h: Handler, ctx: Context, l: LogLevel, globalLevel: LogLevel): (b: bool)
    ensures h.JSONHandler? ==> (b <==> LevelFromContext(ctx, globalLevel) <= l)
    ensures SlogChain(h) ==> (b <==> globalLevel <= l)
  {
    match h
    case JSONHandler(_) => LevelFromContext(ctx, globalLevel) <= l
    case Encoder(_, _) => globalLevel <= l
    case WithAttrsOf(parent, _) => Enabled(parent, ctx, l, globalLevel)
    case WithGroupOf(parent, _) => Enabled(parent, ctx, l, globalLevel)
  }

  /** The wrapped handler's own level plays no role in the adapter's answer. */
  lemma InnerLevelIrrelevant(inner1: Handler, inner2: Handler, ctx: Context, l: LogLevel, globalLevel: LogLevel)
    ensures Enabled(JSONHandler(inner1), ctx, l, globalLevel) == Enabled(JSONHandler(inner2), ctx, l, globalLevel)
  {
  }

  /** A Debug override lets Debug through the adapter while the bare encoder would drop it. */
  lemma OverrideNeedsAdapter(inner: Handler, ctx: Context)
    requires SlogChain(inner)
    ensures Enabled(JSONHandler(inner), LevelToContext(ctx, LevelDebug), LevelDebug, LevelError)
    ensures !Enabled(inner, LevelToContext(ctx, LevelDebug), LevelDebug, LevelError)
  {
  }

  /** The skip branch of Handle: with a caller-skip, only the record's PC changes. */
  function Stamp(ctx: Context, r: Record, callers: int -> PC): (s: Record)
    ensures s.level == r.level && s.msg == r.msg && s.args == r.args
    ensures !GetCallerSkip(ctx).1 ==> s == r
    ensures GetCallerSkip(ctx).1 ==> s.pc == callers(GetCallerSkip(ctx).0)
  {
    var (skip, ok) := GetCallerSkip(ctx);
    if ok then r.(pc := callers(skip)) else r
  }

  /** The entry a handler chain finally writes for record r. */
  function Handled(h: Handler, ctx: Context, r: Record, callers: int -> PC): (e: Entry)
    ensures SlogChain(h) ==> e == Entry(h, r)
    ensures Adapted(h) ==> e == Entry(h.inner, Stamp(ctx, r, callers))
    ensures e.record.level == r.level && e.record.msg == r.msg && e.record.args == r.args
    ensures SinkOf(e.handler) == SinkOf(h)
  {
    match h
    case JSONHandler(inner) => Handled(inner, ctx, Stamp(ctx, r, callers), callers)
    case _ => Entry(h, r)
  }

  /** Without a caller-skip the adapter forwards the record untouched. */
  lemma HandleForwardsUnchanged(inner: Handler, ctx: Context, r: Record, callers: int -> PC)
    requires SlogChain(inner) && CallerSkipKey !in Keys(ctx)
    ensures Handled(JSONHandler(inner), ctx, r, callers) == Entry(inner, r)
  {
  }

  /**
   * Handle: when the context carries a caller-skip, fill a one-slot PC array
   * the way runtime.Callers does and overwrite the record's PC with it; then
   * hand the record to the wrapped handler and return its error. slog's
   * encoder writes the entry to its sink and returns the writer's error.
   */
  method Handle(h: Handler, ctx: Context, record: Record, rt: Runtime, sinks: Sinks) returns (err: Error)
    modifies sinks
    ensures sinks.written == old(sinks.written) + [Handled(h, ctx, record, rt.callers)]
    ensures err == rt.writeErr
    decreases h
  {
    match h
    case JSONHandler(inner) =>
      var rec := record;
      var (skip, ok) := GetCallerSkip(ctx);
      if ok {
        var pcs := new PC[1];
        pcs[0] := rt.callers(skip);
        rec := rec.(pc := pcs[0]);
      }
      err := Handle(inner, ctx, rec, rt, sinks);
    case _ =>
      sinks.written := sinks.written + [Entry(h, record)];
      err := rt.writeErr;
  }

  /** Handler.WithAttrs: the adapter re-wraps what its inner handler derives. */
  function WithAttrs(h: Handler, attrs: seq<Any>): (r: Handler)
    ensures Adapted(h) ==> Adapted(r) && r.inner == WithAttrsOf(h.inner, attrs)
    ensures h.JSONHandler? <==> r.JSONHandler?
    ensures SinkOf(r) == SinkOf(h)
  {
    match h
    case JSONHandler(inner) => JSONHandler(WithAttrs(inner, attrs))
    case _ => WithAttrsOf(h, attrs)
  }

  /** Handler.WithGroup: the adapter re-wraps what its inner handler derives. */
  function WithGroup(h: Handler, name: string): (r: Handler)
    ensures Adapted(h) ==> Adapted(r) && r.inner == WithGroupOf(h.inner, name)
    ensures h.JSONHandler? <==> r.JSONHandler?
    ensures SinkOf(r) == SinkOf(h)
  {
    match h
    case JSONHandler(inner) => JSONHandler(WithGroup(inner, name))
    case _ => WithGroupOf(h, name)
  }

  /** Derived handlers keep the context-level override, so a Debug override still works on them. */
  lemma DerivedKeepsOverride(h: Handler, attrs: seq<Any>, name: string, ctx: Context, l: LogLevel, globalLevel: LogLevel)
    requires h.JSONHandler?
    ensures Enabled(WithAttrs(h, attrs), ctx, l, globalLevel) == Enabled(h, ctx, l, globalLevel)
    ensures Enabled(WithGroup(h, name), ctx, l, globalLevel) == Enabled(h, ctx, l, globalLevel)
  {
  }
}
