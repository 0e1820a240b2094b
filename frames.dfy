/** The candle window of one pair and the indicator columns computed over it (the pandas
    DataFrame that `analisar_moeda` builds), together with the column statistics the setups use:
    the mean of a column and the largest entry of a stretch of one. */
module Frames {
  import opened Wrappers

  /** One OHLCV bar as the exchange returns it. Prices and volume are exact reals. */
  datatype Candle = Candle(timestamp: int, open: real, high: real, low: real, close: real, volume: real)

  function Min(a: real, b: real): real { if a <= b then a else b }

  function Max(a: real, b: real): real { if a >= b then a else b }

  /** A bar's prices as markets produce them: its low and high enclose its open and close.
      Nothing in the scanner checks this; some lemmas assume it. */
  predicate WellFormed(c: Candle) {
    c.low <= Min(c.open, c.close) && Max(c.open, c.close) <= c.high
  }

  /** The columns the indicator library adds to the frame, one entry per candle. EMA(200) is
      undefined (NaN) until 200 bars exist, so its entries are optional; the other columns are
      taken as defined. */
  datatype Indicators = Indicators(
    ema9: seq<real>, ema21: seq<real>, ema200: seq<Option<real>>, rsi: seq<real>, atr: seq<real>,
    macd: seq<real>, macdSignal: seq<real>, adx: seq<real>, obv: seq<real>, supertrend: seq<bool>)
  {
    /** Every column has exactly `n` entries. */
    predicate Fits(n: nat) {
      && |ema9| == n && |ema21| == n && |ema200| == n && |rsi| == n && |atr| == n
      && |macd| == n && |macdSignal| == n && |adx| == n && |obv| == n && |supertrend| == n
    }
  }

  /** One row of the augmented frame (`df.iloc[i]`). */
  datatype Row = Row(
    close: real, volume: real, ema9: real, ema21: real, ema200: Option<real>, rsi: real,
    atr: real, macd: real, macdSignal: real, adx: real, obv: real, supertrend: bool)

  /** The augmented frame: the candles and their indicator columns. */
  datatype Frame = Frame(candles: seq<Candle>, columns: Indicators)
  {
    /** Columns line up with the candles, and there is a previous bar to compare with
        (the setups read `iloc[-2]`). */
    predicate Valid() {
      |candles| >= 2 && columns.Fits(|candles|)
    }

    function RowAt(i: nat): Row
      requires Valid() && i < |candles|
    {
      Row(candles[i].close, candles[i].volume, columns.ema9[i], columns.ema21[i],
          columns.ema200[i], columns.rsi[i], columns.atr[i], columns.macd[i],
          columns.macdSignal[i], columns.adx[i], columns.obv[i], columns.supertrend[i])
    }

    /** `r = df.iloc[-1]`, the row every setup is evaluated on. */
    function Current(): Row
      requires Valid()
    {
      RowAt(|candles| - 1)
    }

    /** `df.iloc[-2]`, the bar before the current one. */
    function Previous(): Row
      requires Valid()
    {
      RowAt(|candles| - 2)
    }

    function LastCandle(): Candle
      requires Valid()
    {
      candles[|candles| - 1]
    }

    function PrevCandle(): Candle
      requires Valid()
    {
      candles[|candles| - 2]
    }

    /** The `volume` column. */
    function Volumes(): seq<real> {
      seq(|candles|, i requires 0 <= i < |candles| => candles[i].volume)
    }

    /** The `high` column. */
    function Highs(): seq<real> {
      seq(|candles|, i requires 0 <= i < |candles| => candles[i].high)
    }
  }

  function Sum(s: seq<real>): real {
    if s == [] then 0.0 else Sum(s[..|s| - 1]) + s[|s| - 1]
  }

  /** pandas `Series.mean()` over a column without undefined entries: it is no larger than some
      entry and no smaller than some entry. */
  function Mean(s: seq<real>): (m: real)
    requires |s| > 0
    ensures exists i :: 0 <= i < |s| && s[i] <= m
    ensures exists i :: 0 <= i < |s| && m <= s[i]
  {
    var n := |s| as real;
    var m := Sum(s) / n;
    assert m * n == Sum(s);
    SumStrictBounds(s, m);
    m
  }

  /** Entries all above (below) a value put the sum above (below) that many times the value. */
  lemma {:induction false} SumStrictBounds(s: seq<real>, c: real)
    requires |s| > 0
    ensures (forall i :: 0 <= i < |s| ==> c < s[i]) ==> (|s| as real) * c < Sum(s)
    ensures (forall i :: 0 <= i < |s| ==> s[i] < c) ==> Sum(s) < (|s| as real) * c
  {
    if |s| > 1 {
      var t := s[..|s| - 1];
      SumStrictBounds(t, c);
      assert forall i :: 0 <= i < |t| ==> t[i] == s[i];
      assert Sum(s) == Sum(t) + s[|s| - 1];
      assert (|s| as real) * c == (|t| as real) * c + c;
    } else {
      assert s[..0] == [];
    }
  }

  /** Bounds on every entry bound the sum. */
  lemma {:induction false} SumBounds(s: seq<real>, lo: real, hi: real)
    requires forall i :: 0 <= i < |s| ==> lo <= s[i] <= hi
    ensures (|s| as real) * lo <= Sum(s) <= (|s| as real) * hi
  {
    if s != [] {
      SumBounds(s[..|s| - 1], lo, hi);
    }
  }

  /** The mean lies between any lower and upper bound of the column. */
  lemma MeanBounds(s: seq<real>, lo: real, hi: real)
    requires |s| > 0
    requires forall i :: 0 <= i < |s| ==> lo <= s[i] <= hi
    ensures lo <= Mean(s) <= hi
  {
    SumBounds(s, lo, hi);
    var n := |s| as real;
    assert Mean(s) * n == Sum(s);
  }

  /** The mean of a column of non-negative values is not negative. */
  lemma {:induction false} MeanNonNegative(s: seq<real>)
    requires |s| > 0
    requires forall i :: 0 <= i < |s| ==> 0.0 <= s[i]
    ensures 0.0 <= Mean(s)
  {
    NonNegativeSum(s);
  }

  lemma {:induction false} NonNegativeSum(s: seq<real>)
    requires forall i :: 0 <= i < |s| ==> 0.0 <= s[i]
    ensures 0.0 <= Sum(s)
  {
    if s != [] {
      NonNegativeSum(s[..|s| - 1]);
    }
  }

  /** pandas `max()` over a non-empty column: an upper bound of every entry that is itself one
      of them. */
  function MaxOf(s: seq<real>): (m: real)
    requires |s| > 0
    ensures forall i :: 0 <= i < |s| ==> s[i] <= m
    ensures exists i :: 0 <= i < |s| && s[i] == m
  {
    if |s| == 1 then s[0] else Max(MaxOf(s[..|s| - 1]), s[|s| - 1])
  }

  /** Where `iloc[-10:-1]` starts in a column of `n` entries: ten from the end, clamped at the
      first entry as pandas does for a short column. */
  function WindowStart(n: nat): nat {
    if n >= 10 then n - 10 else 0
  }

  /** `iloc[-10:-1]`: the (at most) nine entries immediately before the last one. */
  function ResistanceWindow(s: seq<real>): (w: seq<real>)
    requires |s| >= 2
    ensures |w| == if |s| >= 10 then 9 else |s| - 1
    ensures forall i :: 0 <= i < |w| ==> w[i] == s[WindowStart(|s|) + i]
  {
    s[WindowStart(|s|) .. |s| - 1]
  }
}
