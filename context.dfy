/**
 * context.go: a request context is an immutable chain of key/value layers.
 * A lookup takes the innermost layer whose key matches and then checks the
 * dynamic type of its value; a missing key or a value of the wrong type falls
 * back to the process-wide state, which the caller passes in as read at the
 * moment of the call.
 */
module Contexts {
  import opened Slog
  import opened Levels

  datatype Option<T> = None | Some(value: T)

  /** The three unexported contextKey constants, and keys of other packages. */
  datatype Key = LoggerKey | LevelKey | CallerSkipKey | ForeignKey(id: nat)

  /** context.Background() and context.WithValue(parent, key, val). */
  datatype Context = Background | WithValue(parent: Context, key: Key, val: Any)

  /** The keys some layer of ctx carries. */
  function Keys(ctx: Context): set<Key>
  {
    match ctx
    case Background => {}
    case WithValue(parent, k, _) => Keys(parent) + {k}
  }

  /** The layers of ctx, innermost first. */
  function Layers(ctx: Context): (ls: seq<(Key, Any)>)
    ensures forall i :: 0 <= i < |ls| ==> ls[i].0 in Keys(ctx)
  {
    match ctx
    case Background => []
    case WithValue(parent, k, v) => [(k, v)] + Layers(parent)
  }

  /** ctx.Value(key): the value of the innermost layer with that key, if any. */
  function Value(ctx: Context, key: Key): (r: Option<Any>)
    ensures r.Some? <==> key in Keys(ctx)
  {
    match ctx
    case Background => None
    case WithValue(parent, k, v) => if k == key then Some(v) else Value(parent, key)
  }

  /** Layer i of ls is the innermost one carrying key. */
  ghost predicate InnermostAt(ls: seq<(Key, Any)>, i: int, key: Key)
  {
    0 <= i < |ls| && ls[i].0 == key && forall j :: 0 <= j < i ==> ls[j].0 != key
  }

  /** Value returns exactly the value of the innermost layer carrying the key. */
  lemma {:induction false} ValueIsInnermost(ctx: Context, key: Key, v: Any)
    ensures Value(ctx, key) == Some(v) <==> exists i :: InnermostAt(Layers(ctx), i, key) && Layers(ctx)[i].1 == v
  {
    match ctx
    case Background =>
    case WithValue(parent, k, w) =>
      var ls := Layers(ctx);
      assert ls == [(k, w)] + Layers(parent);
      assert ls[0] == (k, w);
      assert forall j :: 0 <= j < |Layers(parent)| ==> ls[j + 1] == Layers(parent)[j];
      if k == key {
        if Value(ctx, key) == Some(v) {
          assert InnermostAt(Layers(ctx), 0, key) && Layers(ctx)[0].1 == v;
        } else {
          forall i | InnermostAt(ls, i, key) ensures ls[i].1 != v {
            assert i == 0;
          }
        }
      } else {
        ValueIsInnermost(parent, key, v);
        if Value(ctx, key) == Some(v) {
          var i :| InnermostAt(Layers(parent), i, key) && Layers(parent)[i].1 == v;
          assert InnermostAt(ls, i + 1, key) && ls[i + 1].1 == v;
        } else {
          forall i | InnermostAt(ls, i, key) ensures ls[i].1 != v {
            assert i != 0;
            assert InnermostAt(Layers(parent), i - 1, key);
          }
        }
      }
  }

  /** ctx derived from base by one WithValue per entry of layers, in order. */
  function Attach(base: Context, layers: seq<(Key, Any)>): (ctx: Context)
    ensures Keys(ctx) >= Keys(base)
  {
    if layers == [] then base
    else WithValue(Attach(base, layers[..|layers| - 1]), layers[|layers| - 1].0, layers[|layers| - 1].1)
  }

  /** Layers under any other key, however many, never change a lookup. */
  lemma {:induction false} OtherLayersKeepValue(base: Context, layers: seq<(Key, Any)>, key: Key)
    requires forall i :: 0 <= i < |layers| ==> layers[i].0 != key
    ensures Value(Attach(base, layers), key) == Value(base, key)
  {
    if layers != [] {
      OtherLayersKeepValue(base, layers[..|layers| - 1], key);
    }
  }

  /** The innermost logger layer holds a *slog.Logger (possibly nil). */
  predicate CarriesLogger(ctx: Context)
  {
    Value(ctx, LoggerKey).Some? && Value(ctx, LoggerKey).value.LoggerRef?
  }

  /** FromContext: the attached logger, else the global logger read now. */
  function FromContext(ctx: Context, global: Logger?): (r: Logger?)
    ensures !CarriesLogger(ctx) ==> r == global
    ensures CarriesLogger(ctx) ==> Some(LoggerRef(r)) == Value(ctx, LoggerKey)
  {
    match Value(ctx, LoggerKey)
    case Some(LoggerRef(logger)) => logger
    case _ => global
  }

  /** ToContext: a new layer carrying logger; every other key reads as before. */
  function ToContext(ctx: Context, logger: Logger?): (r: Context)
    ensures Value(r, LoggerKey) == Some(LoggerRef(logger))
    ensures Keys(r) == Keys(ctx) + {LoggerKey}
    ensures forall k :: k != LoggerKey ==> Value(r, k) == Value(ctx, k)
  {
    WithValue(ctx, LoggerKey, LoggerRef(logger))
  }

  /** The innermost level layer holds a slog.Level. */
  predicate CarriesLevel(ctx: Context)
  {
    Value(ctx, LevelKey).Some? && Value(ctx, LevelKey).value.LevelValue?
  }

  /** LevelFromContext: the attached level, else the global level read now. */
  function LevelFromContext(ctx: Context, global: LogLevel): (r: LogLevel)
    ensures !CarriesLevel(ctx) ==> r == global
    ensures CarriesLevel(ctx) ==> Some(LevelValue(r)) == Value(ctx, LevelKey)
  {
    match Value(ctx, LevelKey)
    case Some(LevelValue(level)) => level
    case _ => global
  }

  /** LevelToContext: a new layer carrying l; every other key reads as before. */
  function LevelToContext(ctx: Context, l: LogLevel): (r: Context)
    ensures Value(r, LevelKey) == Some(LevelValue(l))
    ensures Keys(r) == Keys(ctx) + {LevelKey}
    ensures forall k :: k != LevelKey ==> Value(r, k) == Value(ctx, k)
  {
    WithValue(ctx, LevelKey, LevelValue(l))
  }

  /** setCallerSkip: a new layer carrying skip as a Go int. */
  function SetCallerSkip(ctx: Context, skip: int): (r: Context)
    ensures Value(r, CallerSkipKey) == Some(Int(skip))
    ensures Keys(r) == Keys(ctx) + {CallerSkipKey}
    ensures forall k :: k != CallerSkipKey ==> Value(r, k) == Value(ctx, k)
  {
    WithValue(ctx, CallerSkipKey, Int(skip))
  }

  /** getCallerSkip: the attached int and true, else Go's zero value and false. */
  function GetCallerSkip(ctx: Context): (r: (int, bool))
    ensures r.1 <==> Value(ctx, CallerSkipKey).Some? && Value(ctx, CallerSkipKey).value.Int?
    ensures r.1 ==> Value(ctx, CallerSkipKey) == Some(Int(r.0))
    ensures !r.1 ==> r.0 == 0
  {
    match Value(ctx, CallerSkipKey)
    case Some(Int(skip)) => (skip, true)
    case _ => (0, false)
  }

  /** What ToContext attaches, FromContext returns, whatever the global is. */
  lemma FromToContext(ctx: Context, logger: Logger?, global: Logger?)
    ensures FromContext(ToContext(ctx, logger), global) == logger
  {
  }

  /** What LevelToContext attaches, LevelFromContext returns, whatever the global is. */
  lemma LevelFromToContext(ctx: Context, l: LogLevel, global: LogLevel)
    ensures LevelFromContext(LevelToContext(ctx, l), global) == l
  {
  }

  /** The round trip of the private caller-skip pair. */
  lemma CallerSkipRoundTrip(ctx: Context, n: int)
    ensures GetCallerSkip(SetCallerSkip(ctx, n)) == (n, true)
    ensures CallerSkipKey !in Keys(ctx) ==> GetCallerSkip(ctx) == (0, false)
  {
  }

  /** The innermost attachment wins, for loggers and for levels alike. */
  lemma InnermostAttachmentWins(ctx: Context, a: Logger?, b: Logger?, la: LogLevel, lb: LogLevel,
                                global: Logger?, globalLevel: LogLevel)
    ensures FromContext(ToContext(ToContext(ctx, a), b), global) == b
    ensures LevelFromContext(LevelToContext(LevelToContext(ctx, la), lb), globalLevel) == lb
  {
  }

  /** A value of the wrong type under a key reads as absent and hides outer layers. */
  lemma WrongTypeShadows(ctx: Context, outer: Logger?, v: Any, global: Logger?)
    requires !v.LoggerRef?
    ensures FromContext(WithValue(ToContext(ctx, outer), LoggerKey, v), global) == global
  {
  }

  /** Layers under the other two keys, any number of them, leave each lookup alone. */
  lemma KeysIndependent(base: Context, layers: seq<(Key, Any)>, global: Logger?, globalLevel: LogLevel)
    ensures (forall i :: 0 <= i < |layers| ==> layers[i].0 != LoggerKey) ==>
              FromContext(Attach(base, layers), global) == FromContext(base, global)
    ensures (forall i :: 0 <= i < |layers| ==> layers[i].0 != LevelKey) ==>
              LevelFromContext(Attach(base, layers), globalLevel) == LevelFromContext(base, globalLevel)
    ensures (forall i :: 0 <= i < |layers| ==> layers[i].0 != CallerSkipKey) ==>
              GetCallerSkip(Attach(base, layers)) == GetCallerSkip(base)
  {
    if forall i :: 0 <= i < |layers| ==> layers[i].0 != LoggerKey {
      OtherLayersKeepValue(base, layers, LoggerKey);
    }
    if forall i :: 0 <= i < |layers| ==> layers[i].0 != LevelKey {
      OtherLayersKeepValue(base, layers, LevelKey);
    }
    if forall i :: 0 <= i < |layers| ==> layers[i].0 != CallerSkipKey {
      OtherLayersKeepValue(base, layers, CallerSkipKey);
    }
  }
}
