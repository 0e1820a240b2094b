/** The module-level state of the scanner and the three procedures that change it:
    `pode_enviar_alerta` (check-and-set on the cooldown map), `enviar_alerta_completo` (Setup 3
    gate, stop and target, send, cycle set) and `analisar_moeda` (length check and the priority
    loop that appends the pair to the caller's result list). */
module Scanning {
  import opened Wrappers
  import opened Frames
  import opened Setups
  import opened Engine
  import opened Alerts

  /** `limite_candles`: the number of candles fetched, and the fewest a pair needs. */
  const MinCandles: nat := 100

  /** The caller's `resultados` list, which `analisar_moeda` appends to. */
  class Results {
    var pairs: seq<string>

    constructor ()
      ensures pairs == []
    {
      pairs := [];
    }
  }

  class Scanner {
    /** `alertas_enviados`: key `"{pair}_{label}"` to the time of the last alert. */
    var alertsSent: map<string, int>
    /** `pares_alertados_no_ciclo`. */
    var pairsAlertedInCycle: set<string>

    /** Start-up: the cooldown map as loaded from storage, and an empty set of alerted pairs. */
    constructor (loaded: map<string, int>)
      ensures alertsSent == loaded && pairsAlertedInCycle == {}
    {
      alertsSent := loaded;
      pairsAlertedInCycle := {};
    }

    function State(): DedupState
      reads this
    {
      DedupState(alertsSent, pairsAlertedInCycle)
    }

    /** `pode_enviar_alerta(par, setup)` at time `now`: true exactly when the key is absent or its
        last alert is at least an hour old; the map then records `now` for the key, and is left
        as it was otherwise. */
    method CanSendAlert(pair: string, setupLabel: string, now: int) returns (ok: bool)
      modifies this`alertsSent
      ensures ok <==> Eligible(old(alertsSent), AlertKey(pair, setupLabel), now)
      ensures (ok, alertsSent) == CheckAndSet(old(alertsSent), AlertKey(pair, setupLabel), now)
    {
      var key := AlertKey(pair, setupLabel);
      if key in alertsSent {
        var delta := now - alertsSent[key];
        if delta < ResendSeconds {
          return false;
        }
      }
      alertsSent := alertsSent[key := now];
      ok := true;
    }

    /** `enviar_alerta_completo(par, r, setup_info)` at time `now`, where `sendOk` is what the
        message send reported. */
    method SendFullAlert(pair: string, r: Row, info: SetupInfo, now: int, sendOk: bool)
      returns (outcome: Outcome)
      modifies this
      ensures (State(), outcome) == AlertStep(old(State()), pair, info, r.close, r.atr, now, sendOk)
    {
      if info.setup == Setup3Info.setup && pair in pairsAlertedInCycle {
        return SkippedSetup3;
      }
      var levels := TradeLevels(r.close, r.atr);
      var eligible := CanSendAlert(pair, info.setup, now);
      if eligible {
        if sendOk {
          pairsAlertedInCycle := pairsAlertedInCycle + {pair};
          outcome := Sent(levels);
        } else {
          outcome := SendFailed(levels);
        }
      } else {
        outcome := OnCooldown;
      }
    }

    /** `analisar_moeda(exchange, par, resultados)`. `ohlcv` is what the fetch returned (None when
        it raised) and `columns` the indicators the library computed over it. A short or missing
        series changes nothing. Otherwise the setups are tried in priority order; the first match
        is alerted and the pair is appended once; with no match nothing changes. */
    method AnalyzePair(pair: string, ohlcv: Option<seq<Candle>>, columns: Indicators, now: int,
                       sendOk: bool, results: Results)
      requires ohlcv.Some? ==> columns.Fits(|ohlcv.value|)
      modifies this, results
      ensures ohlcv.None? || |ohlcv.value| < MinCandles ==>
                State() == old(State()) && results.pairs == old(results.pairs)
      ensures ohlcv.Some? && |ohlcv.value| >= MinCandles ==>
                var f := Frame(ohlcv.value, columns);
                match Evaluate(f)
                case None =>
                  State() == old(State()) && results.pairs == old(results.pairs)
                case Some(info) =>
                  && State() == AlertStep(old(State()), pair, info, f.Current().close, f.Current().atr, now, sendOk).0
                  && results.pairs == old(results.pairs) + [pair]
    {
      if ohlcv.None? || |ohlcv.value| < MinCandles {
        return;
      }
      var f := Frame(ohlcv.value, columns);
      var r := f.Current();
      for i := 0 to |Priority|
        invariant forall j :: 0 <= j < i ==> Check(Priority[j], f).None?
        invariant State() == old(State()) && results.pairs == old(results.pairs)
      {
        var setupInfo := Check(Priority[i], f);
        if setupInfo.Some? {
          assert FirstMatch(Priority, f) == Some(i);
          var outcome := SendFullAlert(pair, r, setupInfo.value, now, sendOk);
          results.pairs := results.pairs + [pair];
          return;
        }
      }
      assert FirstMatch(Priority, f) == None;
    }
  }
}
