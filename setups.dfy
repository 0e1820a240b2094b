/** The six setup predicates (`verificar_setup_1` ... `verificar_setup_6`). Each reads the current
    row `r = df.iloc[-1]`, the previous bar and whole-column means, and returns the setup's
    description or nothing. The "all of" and "k of n" rules are written over the list of the
    setup's conditions, as main.py writes them. */
module Setups {
  import opened Wrappers
  import opened Frames
  import opened Patterns

  /** The dictionary a matching setup returns: its label, priority line and emoji. */
  datatype SetupInfo = SetupInfo(setup: string, priority: string, emoji: string)

  const Setup1Info := SetupInfo("\U{1F3AF} SETUP 1 \U{2013} Rigoroso", "\U{1F7E0} PRIORIDADE ALTA", "\U{1F3AF}")
  const Setup2Info := SetupInfo("\U{2699}\U{FE0F} SETUP 2 \U{2013} Intermedi\U{E1}rio",
                                "\U{1F7E1} PRIORIDADE M\U{C9}DIA-ALTA", "\U{2699}\U{FE0F}")
  const Setup3Info := SetupInfo("\U{1F539} SETUP 3 \U{2013} Leve", "\U{1F535} PRIORIDADE M\U{C9}DIA", "\U{1F539}")
  const Setup4Info := SetupInfo("\U{1F501} SETUP 4 \U{2013} Revers\U{E3}o T\U{E9}cnica",
                                "\U{1F7E3} OPORTUNIDADE DE REVERS\U{C3}O", "\U{1F501}")
  const Setup5Info := SetupInfo("\U{1F525} SETUP 5 \U{2013} Alta Conflu\U{EA}ncia",
                                "\U{1F7E5} PRIORIDADE M\U{C1}XIMA", "\U{1F525}")
  const Setup6Info := SetupInfo("\U{1F680} SETUP 6 \U{2013} Rompimento com Conflu\U{EA}ncia",
                                "\U{1F7E9} ALTA OPORTUNIDADE DE CONTINUA\U{C7}\U{C3}O", "\U{1F680}")

  // ----- Counting conditions -----

  /** Python's `all(...)` over a list of conditions. */
  predicate All(bs: seq<bool>) {
    forall i :: 0 <= i < |bs| ==> bs[i]
  }

  /** Python's `sum(...)` over a list of booleans: how many of them hold. */
  function CountTrue(bs: seq<bool>): (k: nat)
    ensures k <= |bs|
  {
    if bs == [] then 0 else CountTrue(bs[..|bs| - 1]) + (if bs[|bs| - 1] then 1 else 0)
  }

  /** The positions of the conditions that hold: the reference meaning of "how many hold". */
  function TrueIndices(bs: seq<bool>): set<nat> {
    set i: nat | i < |bs| && bs[i]
  }

  /** Counting the list agrees with the number of positions that hold. */
  lemma {:induction false} CountTrueIsCardinality(bs: seq<bool>)
    ensures CountTrue(bs) == |TrueIndices(bs)|
  {
    if bs != [] {
      var n := |bs| - 1;
      CountTrueIsCardinality(bs[..n]);
      if bs[n] {
        assert TrueIndices(bs) == TrueIndices(bs[..n]) + {n};
      } else {
        assert TrueIndices(bs) == TrueIndices(bs[..n]);
      }
    }
  }

  /** A subset has no more elements than the set containing it. */
  lemma SubsetCardinality(a: set<nat>, b: set<nat>)
    requires a <= b
    ensures |a| <= |b|
  {
    assert b == a + (b - a);
    assert a * (b - a) == {};
  }

  /** Every condition holds exactly when all of them are counted. */
  lemma {:induction false} CountTrueAll(bs: seq<bool>)
    ensures CountTrue(bs) == |bs| <==> All(bs)
  {
    if bs != [] {
      var n := |bs| - 1;
      CountTrueAll(bs[..n]);
      assert forall i :: 0 <= i < n ==> bs[..n][i] == bs[i];
    }
  }

  /** Counting distributes over concatenation. */
  lemma {:induction false} CountTrueAppend(a: seq<bool>, b: seq<bool>)
    ensures CountTrue(a + b) == CountTrue(a) + CountTrue(b)
  {
    if b != [] {
      var n := |b| - 1;
      assert (a + b)[..|a + b| - 1] == a + b[..n];
      assert (a + b)[|a + b| - 1] == b[n];
      CountTrueAppend(a, b[..n]);
    } else {
      assert a + b == a;
    }
  }

  // ----- Conditions shared by several setups -----

  /** EMA(9) crosses above EMA(21) on the last bar: strictly below on the previous bar and
      strictly above on the current one. */
  predicate CrossedUp(f: Frame)
    requires f.Valid()
  {
    f.Previous().ema9 < f.Previous().ema21 && f.Current().ema9 > f.Current().ema21
  }

  /** `df['volume'].iloc[-1] > df['volume'].mean()`. */
  predicate VolumeAboveMean(f: Frame)
    requires f.Valid()
  {
    f.Current().volume > Mean(f.Volumes())
  }

  /** `df['rsi'].iloc[-1] > df['rsi'].iloc[-2]`. */
  predicate RsiRising(f: Frame)
    requires f.Valid()
  {
    f.Current().rsi > f.Previous().rsi
  }

  /** `r['close'] > r['ema200']`: false while EMA(200) is undefined, as a comparison with NaN is. */
  predicate AboveEma200(r: Row) {
    r.ema200.Some? && r.close > r.ema200.value
  }

  /** Every bar of the window has a non-negative volume. */
  predicate NonNegativeVolumes(f: Frame) {
    forall i :: 0 <= i < |f.candles| ==> 0.0 <= f.candles[i].volume
  }

  // ----- Setup 1: rigorous -----

  function Setup1Conditions(f: Frame): seq<bool>
    requires f.Valid()
  {
    var r := f.Current();
    [ r.rsi < 40.0,
      CrossedUp(f),
      r.macd > r.macdSignal,
      r.adx > 20.0,
      r.volume > Mean(f.Volumes()) * 1.5,
      r.supertrend ]
  }

  /** `verificar_setup_1`: all six conditions. A match needs a strict EMA cross on the last bar. */
  function CheckSetup1(f: Frame): (r: Option<SetupInfo>)
    requires f.Valid()
    ensures r == None || r == Some(Setup1Info)
    ensures r.Some? ==> f.Previous().ema9 < f.Previous().ema21 && f.Current().ema9 > f.Current().ema21
  {
    var bs := Setup1Conditions(f);
    if All(bs) then assert bs[1]; Some(Setup1Info) else None
  }

  // ----- Setup 2: intermediate -----

  function Setup2Conditions(f: Frame): seq<bool>
    requires f.Valid()
  {
    var r := f.Current();
    [ r.rsi < 50.0,
      r.ema9 > r.ema21,
      r.macd > r.macdSignal,
      r.adx > 15.0,
      VolumeAboveMean(f) ]
  }

  /** `verificar_setup_2`: all five conditions. */
  function CheckSetup2(f: Frame): (r: Option<SetupInfo>)
    requires f.Valid()
    ensures r == None || r == Some(Setup2Info)
    ensures r.Some? ==> f.Current().ema9 > f.Current().ema21 && VolumeAboveMean(f)
  {
    var bs := Setup2Conditions(f);
    if All(bs) then assert bs[1] && bs[4]; Some(Setup2Info) else None
  }

  // ----- Setup 3: light -----

  function Setup3Conditions(f: Frame): seq<bool>
    requires f.Valid()
  {
    var r := f.Current();
    [ r.ema9 > r.ema21,
      r.adx > 15.0,
      VolumeAboveMean(f) ]
  }

  /** `verificar_setup_3`: at least two of its three conditions. */
  function CheckSetup3(f: Frame): (r: Option<SetupInfo>)
    requires f.Valid()
    ensures r == None || r == Some(Setup3Info)
  {
    if CountTrue(Setup3Conditions(f)) >= 2 then Some(Setup3Info) else None
  }

  /** Setup 3 matches exactly when some two of its conditions hold together. */
  lemma Setup3TwoOfThree(f: Frame)
    requires f.Valid()
    ensures var r := f.Current();
            var a, b, c := r.ema9 > r.ema21, r.adx > 15.0, VolumeAboveMean(f);
            CheckSetup3(f).Some? <==> (a && b) || (a && c) || (b && c)
  {
    var bs := Setup3Conditions(f);
    assert bs[..2][..1] == [bs[0]];
    assert bs[..2] == [bs[0], bs[1]];
    assert CountTrue(bs) == CountTrue([bs[0], bs[1]]) + (if bs[2] then 1 else 0);
    assert CountTrue([bs[0], bs[1]]) == CountTrue([bs[0]]) + (if bs[1] then 1 else 0);
    assert CountTrue([bs[0]]) == if bs[0] then 1 else 0;
  }

  // ----- Setup 4: technical reversal -----

  /** `detectar_martelo(df) or detectar_engolfo(df)`, with the hammer test on the corrected
      lower shadow (see Patterns.IsHammer). */
  predicate ReversalCandle(f: Frame)
    requires f.Valid()
  {
    IsHammer(f.LastCandle()) || IsEngulfing(f.PrevCandle(), f.LastCandle())
  }

  /** The previous bar closed above its open. */
  predicate PreviousBullish(f: Frame)
    requires f.Valid()
  {
    f.PrevCandle().close > f.PrevCandle().open
  }

  /** `verificar_setup_4`: OBV above its mean, a bullish previous bar, a higher close, a reversal
      candle and a rising RSI. The previous bar being bullish rules the engulfing pattern out (it
      needs a bearish previous bar), so every match is a hammer on the last bar. */
  function CheckSetup4(f: Frame): (r: Option<SetupInfo>)
    requires f.Valid()
    ensures r == None || r == Some(Setup4Info)
    ensures r.Some? ==> IsHammer(f.LastCandle()) && !IsEngulfing(f.PrevCandle(), f.LastCandle())
  {
    if && f.Current().obv > Mean(f.columns.obv)
       && PreviousBullish(f)
       && f.LastCandle().close > f.PrevCandle().close
       && ReversalCandle(f)
       && RsiRising(f)
    then Some(Setup4Info) else None
  }

  /** `verificar_setup_4` with the hammer test exactly as main.py writes it. On a well-formed
      last bar it never matches. */
  function CheckSetup4AsWritten(f: Frame): (r: Option<SetupInfo>)
    requires f.Valid()
    ensures r == None || r == Some(Setup4Info)
    ensures WellFormed(f.LastCandle()) ==> r == None
  {
    if && f.Current().obv > Mean(f.columns.obv)
       && PreviousBullish(f)
       && f.LastCandle().close > f.PrevCandle().close
       && (IsHammerAsWritten(f.LastCandle()) || IsEngulfing(f.PrevCandle(), f.LastCandle()))
       && RsiRising(f)
    then Some(Setup4Info) else None
  }

  /** With the detectors exactly as main.py writes them, Setup 4's conjunction of "previous bar
      bullish" and "hammer or engulfing" can never hold on a well-formed last bar. */
  lemma Setup4AsWrittenNeverMatches(f: Frame)
    requires f.Valid() && WellFormed(f.LastCandle())
    ensures !(PreviousBullish(f) && (IsHammerAsWritten(f.LastCandle()) || IsEngulfing(f.PrevCandle(), f.LastCandle())))
  {
  }

  /** With the corrected hammer test Setup 4 can match: a bullish bar followed by a higher-closing
      hammer, with OBV above its mean and RSI rising. */
  lemma Setup4CanMatch()
    ensures var f := Frame(
              [Candle(0, 10.0, 10.6, 9.8, 10.5, 1.0), Candle(1, 11.0, 11.6, 9.0, 11.5, 1.0)],
              Indicators([0.0, 0.0], [0.0, 0.0], [None, None], [40.0, 45.0], [0.0, 0.0],
                         [0.0, 0.0], [0.0, 0.0], [0.0, 0.0], [0.0, 2.0], [false, false]));
            f.Valid() && CheckSetup4(f) == Some(Setup4Info)
  {
    var f := Frame(
      [Candle(0, 10.0, 10.6, 9.8, 10.5, 1.0), Candle(1, 11.0, 11.6, 9.0, 11.5, 1.0)],
      Indicators([0.0, 0.0], [0.0, 0.0], [None, None], [40.0, 45.0], [0.0, 0.0],
                 [0.0, 0.0], [0.0, 0.0], [0.0, 0.0], [0.0, 2.0], [false, false]));
    var obv := f.columns.obv;
    assert obv[..1] == [0.0] && obv[..1][..0] == [];
    assert Sum(obv) == 2.0;
    assert Mean(obv) == 1.0;
  }

  // ----- Setup 5: high confluence -----

  function Setup5Conditions(f: Frame): seq<bool>
    requires f.Valid()
  {
    var r := f.Current();
    [ r.rsi < 40.0,
      CrossedUp(f),
      r.macd > r.macdSignal,
      r.atr > Mean(f.columns.atr),
      r.obv > Mean(f.columns.obv),
      r.adx > 20.0,
      AboveEma200(r),
      VolumeAboveMean(f),
      r.supertrend,
      IsStrong(f.LastCandle()) ]
  }

  /** `verificar_setup_5`: at least six of its ten conditions. */
  function CheckSetup5(f: Frame): (r: Option<SetupInfo>)
    requires f.Valid()
    ensures r == None || r == Some(Setup5Info)
  {
    if CountTrue(Setup5Conditions(f)) >= 6 then Some(Setup5Info) else None
  }

  /** Setup 5 matches exactly when the set of positions of its conditions that hold has at
      least six members. */
  lemma Setup5SixOfTen(f: Frame)
    requires f.Valid()
    ensures |Setup5Conditions(f)| == 10
    ensures CheckSetup5(f).Some? <==> |TrueIndices(Setup5Conditions(f))| >= 6
  {
    CountTrueIsCardinality(Setup5Conditions(f));
  }

  /** While EMA(200) is undefined (fewer than 200 bars), the close-above-EMA(200) condition is
      false and Setup 5 needs six of the other nine conditions. */
  lemma Setup5WithoutEma200(f: Frame)
    requires f.Valid() && f.Current().ema200.None?
    ensures var bs := Setup5Conditions(f);
            CheckSetup5(f).Some? <==> CountTrue(bs[..6] + bs[7..]) >= 6
  {
    var bs := Setup5Conditions(f);
    assert bs == bs[..6] + [bs[6]] + bs[7..];
    assert !bs[6];
    CountTrueAppend(bs[..6] + [bs[6]], bs[7..]);
    CountTrueAppend(bs[..6], [bs[6]]);
    CountTrueAppend(bs[..6], bs[7..]);
    assert CountTrue([bs[6]]) == 0 by {
      assert [bs[6]][..0] == [];
    }
  }

  // ----- Setup 6: breakout with confluence -----

  /** The largest `high` of the (at most nine) bars before the last, stated over the bars. */
  lemma ResistanceInWindow(f: Frame)
    requires f.Valid()
    ensures var m := MaxOf(ResistanceWindow(f.Highs()));
            && (forall i :: WindowStart(|f.candles|) <= i < |f.candles| - 1 ==> f.candles[i].high <= m)
            && (exists i :: WindowStart(|f.candles|) <= i < |f.candles| - 1 && f.candles[i].high == m)
  {
    var hs := f.Highs();
    var w := ResistanceWindow(hs);
    var start := WindowStart(|f.candles|);
    forall i | start <= i < |f.candles| - 1 ensures f.candles[i].high <= MaxOf(w) {
      assert w[i - start] == hs[i] == f.candles[i].high;
    }
    var k :| 0 <= k < |w| && w[k] == MaxOf(w);
    assert f.candles[start + k].high == hs[start + k] == w[k];
  }

  /** `df['high'].iloc[-10:-1].max()`: the resistance the last close must break, the largest
      `high` of the (at most nine) bars immediately before the last. */
  function Resistance(f: Frame): (m: real)
    requires f.Valid()
    ensures forall i :: WindowStart(|f.candles|) <= i < |f.candles| - 1 ==> f.candles[i].high <= m
    ensures exists i :: WindowStart(|f.candles|) <= i < |f.candles| - 1 && f.candles[i].high == m
  {
    ResistanceInWindow(f);
    MaxOf(ResistanceWindow(f.Highs()))
  }

  /** `verificar_setup_6`: the close breaks the resistance, volume is above its mean, RSI is
      above 55 and rising, and the Supertrend flag is set. */
  function CheckSetup6(f: Frame): (r: Option<SetupInfo>)
    requires f.Valid()
    ensures r == None || r == Some(Setup6Info)
  {
    var r := f.Current();
    if r.close > Resistance(f) && VolumeAboveMean(f) && r.rsi > 55.0 && RsiRising(f) && r.supertrend
    then Some(Setup6Info) else None
  }

  /** Closing above the resistance means closing above the `high` of each of the (at most nine)
      bars immediately before the last; the last bar's own `high` is not among them. */
  lemma BreakoutAboveEachHigh(f: Frame, x: real)
    requires f.Valid()
    ensures x > Resistance(f) <==>
              forall i :: WindowStart(|f.candles|) <= i < |f.candles| - 1 ==> f.candles[i].high < x
  {
    var start := WindowStart(|f.candles|);
    var k :| start <= k < |f.candles| - 1 && f.candles[k].high == Resistance(f);
    if forall i :: start <= i < |f.candles| - 1 ==> f.candles[i].high < x {
      assert f.candles[k].high < x;
    }
  }

  /** Setup 6 restated with the breakout as "above each of the preceding highs". */
  lemma Setup6Breakout(f: Frame)
    requires f.Valid()
    ensures CheckSetup6(f).Some? <==>
              && (forall i :: WindowStart(|f.candles|) <= i < |f.candles| - 1 ==> f.candles[i].high < f.Current().close)
              && VolumeAboveMean(f) && f.Current().rsi > 55.0 && RsiRising(f) && f.Current().supertrend
  {
    BreakoutAboveEachHigh(f, f.Current().close);
  }

  /** Had the window included the last bar, no well-formed last bar could break it: a close never
      exceeds its own bar's high. */
  lemma BreakoutIncludingLastImpossible(f: Frame, start: nat)
    requires f.Valid() && start < |f.candles| && WellFormed(f.LastCandle())
    ensures !(f.LastCandle().close > MaxOf(f.Highs()[start..]))
  {
    assert f.Highs()[start..][|f.candles| - 1 - start] == f.LastCandle().high;
  }

  // ----- How the setups relate -----

  /** The volume condition fails when the last bar's volume is the smallest of the window. */
  lemma QuietBarFailsVolume(f: Frame)
    requires f.Valid()
    requires forall i :: 0 <= i < |f.candles| ==> f.Current().volume <= f.candles[i].volume
    ensures !VolumeAboveMean(f)
  {
    var v := f.Volumes();
    var k :| 0 <= k < |v| && v[k] <= Mean(v);
    assert v[k] == f.candles[k].volume;
  }

  /** With non-negative volumes, every Setup 1 match is a Setup 2 match. */
  lemma Setup1ImpliesSetup2(f: Frame)
    requires f.Valid() && NonNegativeVolumes(f)
    ensures CheckSetup1(f).Some? ==> CheckSetup2(f).Some?
  {
    if CheckSetup1(f).Some? {
      MeanNonNegative(f.Volumes());
      var b := Setup1Conditions(f);
      assert b[0] && b[1] && b[2] && b[3] && b[4];
    }
  }

  /** Every Setup 2 match is a Setup 3 match. */
  lemma Setup2ImpliesSetup3(f: Frame)
    requires f.Valid()
    ensures CheckSetup2(f).Some? ==> CheckSetup3(f).Some?
  {
    if CheckSetup2(f).Some? {
      var b := Setup2Conditions(f);
      assert b[1] && b[3];
      Setup3TwoOfThree(f);
    }
  }

  /** With non-negative volumes, every Setup 1 match is also a Setup 5 match: Setup 1's six
      conditions give six of Setup 5's ten (RSI below 40, the cross, MACD above its signal, ADX
      above 20, volume above its mean, Supertrend). */
  lemma Setup1ImpliesSetup5(f: Frame)
    requires f.Valid() && NonNegativeVolumes(f)
    ensures CheckSetup1(f).Some? ==> CheckSetup5(f).Some?
  {
    if CheckSetup1(f).Some? {
      MeanNonNegative(f.Volumes());
      var b1 := Setup1Conditions(f);
      assert b1[0] && b1[1] && b1[2] && b1[3] && b1[4] && b1[5];
      var b5 := Setup5Conditions(f);
      assert b5[0] && b5[1] && b5[2] && b5[5] && b5[7] && b5[8];
      assert {0, 1, 2, 5, 7, 8} <= TrueIndices(b5);
      SubsetCardinality({0, 1, 2, 5, 7, 8}, TrueIndices(b5));
      Setup5SixOfTen(f);
    }
  }
}
