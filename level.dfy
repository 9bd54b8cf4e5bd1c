/**
 * level.go: the four severity constants and the process-wide level, a single
 * int32 cell that stores a truncated slog.Level and loads it back.
 */
module Levels {
  import opened Slog

  type LogLevel = Slog.Level

  const LevelDebug: LogLevel := -4
  const LevelInfo: LogLevel := 0
  const LevelWarn: LogLevel := 4
  const LevelError: LogLevel := 8

  const MinInt32: int := -0x8000_0000
  const MaxInt32: int := 0x7fff_ffff
  const TwoTo32: int := 0x1_0000_0000

  type Int32 = x: int | -0x8000_0000 <= x <= 0x7fff_ffff

  /** The severities are strictly ordered, so thresholds compare numerically. */
  lemma LevelsOrdered()
    ensures LevelDebug < LevelInfo < LevelWarn < LevelError
  {
  }

  /** Go's int32(x): keep the low 32 bits, read them as two's complement. */
  function ToInt32(x: int): (r: Int32)
    ensures MinInt32 <= x <= MaxInt32 ==> r == x
    ensures (x - r) % TwoTo32 == 0
  {
    var low := (x - MinInt32) % TwoTo32;
    assert x - (low + MinInt32) == ((x - MinInt32) / TwoTo32) * TwoTo32;
    low + MinInt32
  }

  /** A level just above the int32 range wraps to the most verbose level there is. */
  lemma ToInt32Wraps()
    ensures ToInt32(MaxInt32 + 1) == MinInt32
    ensures ToInt32(MaxInt32 + 1) < LevelDebug
  {
  }

  /** atomicLevel: one atomic.Int32 cell, zero when created. */
  class AtomicLevel {
    var l: Int32

    constructor ()
      ensures l == 0
    {
      l := 0;
    }

    /** Load: always a value that fits in an int32. */
    function Level(): (r: LogLevel)
      reads this
      ensures MinInt32 <= r <= MaxInt32
    {
      l
    }

    /** Store int32(lv); the next Level() returns lv itself when it fits. */
    method SetLevel(lv: LogLevel)
      modifies this
      ensures Level() == ToInt32(lv)
      ensures MinInt32 <= lv <= MaxInt32 ==> Level() == lv
    {
      l := ToInt32(lv);
    }
  }

  /** The last store wins, whatever was stored before. */
  method LastWriteWins(al: AtomicLevel, a: LogLevel, b: LogLevel)
    modifies al
    ensures MinInt32 <= b <= MaxInt32 ==> al.Level() == b
    ensures al.Level() == ToInt32(b)
  {
    al.SetLevel(a);
    al.SetLevel(b);
  }
}
