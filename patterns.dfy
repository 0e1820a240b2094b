/** The candle-pattern detectors: comparisons over the last one or two bars of the frame. */
module Patterns {
  import opened Frames

  /** `abs(close - open)`. */
  function Body(c: Candle): real {
    if c.close >= c.open then c.close - c.open else c.open - c.close
  }

  /** `high - max(close, open)`. */
  function UpperWick(c: Candle): real {
    c.high - Max(c.close, c.open)
  }

  /** `min(close, open) - low`: the length of the lower shadow. */
  function LowerWick(c: Candle): real {
    Min(c.close, c.open) - c.low
  }

  /** `detectar_candle_forte`: the body is longer than either shadow. On a well-formed bar this
      rules out a doji and means the body covers more than a third of the bar's range. */
  function IsStrong(c: Candle): (r: bool)
    ensures r && WellFormed(c) ==> c.close != c.open
    ensures r && WellFormed(c) ==> 3.0 * Body(c) > c.high - c.low
  {
    Body(c) > UpperWick(c) && Body(c) > LowerWick(c)
  }

  /** `detectar_martelo` as main.py computes it: the "lower shadow" is `low - min(close, open)`,
      the negation of the real one. On a bar whose low is below its body the test never holds:
      that shadow is never positive while twice the body is never negative. */
  function IsHammerAsWritten(c: Candle): (r: bool)
    ensures WellFormed(c) ==> !r
  {
    c.low - Min(c.close, c.open) > Body(c) * 2.0 && UpperWick(c) < Body(c)
  }

  /** A textbook hammer that main.py's test misses. */
  lemma HammerAsWrittenMissesHammer()
    ensures var c := Candle(0, 10.0, 11.2, 7.0, 11.0, 1.0);
            WellFormed(c) && IsHammer(c) && !IsHammerAsWritten(c)
  {
  }

  /** The hammer test with the lower shadow measured downwards from the body: the lower shadow
      is more than twice the body and the upper shadow shorter than the body. On a well-formed bar
      the body is then non-empty and the lower shadow is more than half of the bar's range. */
  function IsHammer(c: Candle): (r: bool)
    ensures r && WellFormed(c) ==> Body(c) > 0.0
    ensures r && WellFormed(c) ==> 2.0 * LowerWick(c) > c.high - c.low
  {
    LowerWick(c) > Body(c) * 2.0 && UpperWick(c) < Body(c)
  }

  /** `detectar_engolfo` over the previous bar `c1` and the last bar `c2`: a bearish bar followed
      by a bullish bar whose body strictly contains it, so the last body is the longer one. */
  function IsEngulfing(c1: Candle, c2: Candle): (r: bool)
    ensures r ==> c2.open < c1.close < c1.open < c2.close
    ensures r ==> Body(c2) > Body(c1)
  {
    c2.close > c2.open && c1.close < c1.open && c2.open < c1.close && c2.close > c1.open
  }
}
