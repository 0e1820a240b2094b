/** Alert deduplication: the cooldown map from `"{pair}_{label}"` to the time of the last alert
    (`alertas_enviados`, checked and set by `pode_enviar_alerta`), the per-cycle set of pairs that
    were alerted (`pares_alertados_no_ciclo`), and the step `enviar_alerta_completo` takes on
    them. Times are whole seconds. */
module Alerts {
  import opened Setups
  import opened Engine

  /** `TEMPO_REENVIO`: one hour between two alerts for the same pair and setup. */
  const ResendSeconds: int := 60 * 60

  /** `f"{par}_{setup}"`. */
  function AlertKey(pair: string, setupLabel: string): string {
    pair + "_" + setupLabel
  }

  /** When neither label contains `_`, a key determines its pair and its label, even for pairs
      that contain `_` themselves. */
  lemma {:induction false} AlertKeyInjective(p1: string, l1: string, p2: string, l2: string)
    requires '_' !in l1 && '_' !in l2
    ensures AlertKey(p1, l1) == AlertKey(p2, l2) ==> p1 == p2 && l1 == l2
  {
    var k1, k2 := AlertKey(p1, l1), AlertKey(p2, l2);
    if k1 == k2 {
      if |l1| < |l2| {
        SeparatorInLongerLabel(p1, l1, p2, l2);
        assert false;
      } else if |l2| < |l1| {
        SeparatorInLongerLabel(p2, l2, p1, l1);
        assert false;
      } else {
        assert p1 == k1[..|p1|] == k2[..|p2|] == p2;
        assert l1 == k1[|p1| + 1..] == k2[|p2| + 1..] == l2;
      }
    }
  }

  /** When two keys are equal but the first label is shorter, the separator of the first key falls
      inside the second label. */
  lemma SeparatorInLongerLabel(p1: string, l1: string, p2: string, l2: string)
    requires AlertKey(p1, l1) == AlertKey(p2, l2) && |l1| < |l2|
    ensures '_' in l2
  {
    var k1, k2 := AlertKey(p1, l1), AlertKey(p2, l2);
    assert k1[|p1|] == '_';
    assert k2[|p1|] == l2[|p1| - |p2| - 1];
  }

  /** No setup label contains the separator. */
  lemma LabelHasNoUnderscore(id: SetupId)
    ensures '_' !in Info(id).setup
  {
    match id
    case Setup1 => NoUnderscore1();
    case Setup2 => NoUnderscore2();
    case Setup3 => NoUnderscore3();
    case Setup4 => NoUnderscore4();
    case Setup5 => NoUnderscore5();
    case Setup6 => NoUnderscore6();
  }

  // One literal per lemma keeps each proof small.
  lemma NoUnderscore1() ensures '_' !in Setup1Info.setup {}
  lemma NoUnderscore2() ensures '_' !in Setup2Info.setup {}
  lemma NoUnderscore3() ensures '_' !in Setup3Info.setup {}
  lemma NoUnderscore4() ensures '_' !in Setup4Info.setup {}
  lemma NoUnderscore5() ensures '_' !in Setup5Info.setup {}
  lemma NoUnderscore6() ensures '_' !in Setup6Info.setup {}

  /** Two alerts share a cooldown entry only when they are for the same pair and the same setup. */
  lemma SetupKeysDistinct(p1: string, a: SetupId, p2: string, b: SetupId)
    ensures AlertKey(p1, Info(a).setup) == AlertKey(p2, Info(b).setup) ==> p1 == p2 && a == b
  {
    LabelHasNoUnderscore(a);
    LabelHasNoUnderscore(b);
    AlertKeyInjective(p1, Info(a).setup, p2, Info(b).setup);
    if Info(a).setup == Info(b).setup {
      assert Info(a) == Info(b);
      InfoInjective(a, b);
    }
  }

  /** An alert may go out when its key was never alerted or its last alert is at least the
      cooldown old. */
  predicate Eligible(sent: map<string, int>, key: string, now: int) {
    key !in sent || now - sent[key] >= ResendSeconds
  }

  /** `pode_enviar_alerta`'s check-and-set: the answer is whether the key is eligible; on yes the
      key now holds `now`, on no the map is unchanged; no other key changes either way. */
  function CheckAndSet(sent: map<string, int>, key: string, now: int): (r: (bool, map<string, int>))
    ensures r.0 <==> Eligible(sent, key, now)
    ensures r.0 ==> key in r.1 && r.1[key] == now
    ensures !r.0 ==> r.1 == sent
    ensures r.1.Keys == sent.Keys + (if r.0 then {key} else {})
    ensures forall k :: k in sent && k != key ==> r.1[k] == sent[k]
  {
    if key in sent && now - sent[key] < ResendSeconds then (false, sent)
    else (true, sent[key := now])
  }

  /** A second request for a key less than the cooldown after an approved one is refused. */
  lemma RefusedWithinCooldown(sent: map<string, int>, key: string, t1: int, t2: int)
    requires CheckAndSet(sent, key, t1).0
    requires t2 < t1 + ResendSeconds
    ensures !CheckAndSet(CheckAndSet(sent, key, t1).1, key, t2).0
  {
  }

  /** A request at least the cooldown after an approved one is approved again. */
  lemma ApprovedAfterCooldown(sent: map<string, int>, key: string, t1: int, t2: int)
    requires CheckAndSet(sent, key, t1).0
    requires t2 >= t1 + ResendSeconds
    ensures CheckAndSet(CheckAndSet(sent, key, t1).1, key, t2).0
  {
  }

  /** The answers to successive requests for one key at the given times. */
  function Replay(sent: map<string, int>, key: string, times: seq<int>): (answers: seq<bool>)
    ensures |answers| == |times|
    decreases |times|
  {
    if times == [] then []
    else
      var (ok, sent') := CheckAndSet(sent, key, times[0]);
      [ok] + Replay(sent', key, times[1..])
  }

  /** Every request approved in a replay is at least the cooldown after the time the key held at
      the start. */
  lemma {:induction false} ApprovalsAfterStored(sent: map<string, int>, key: string, times: seq<int>, j: nat)
    requires key in sent && j < |times| && Replay(sent, key, times)[j]
    ensures times[j] - sent[key] >= ResendSeconds
  {
    var (ok, sent') := CheckAndSet(sent, key, times[0]);
    if j > 0 {
      assert Replay(sent', key, times[1..])[j - 1];
      ApprovalsAfterStored(sent', key, times[1..], j - 1);
    }
  }

  /** In any sequence of requests for one key, whatever their times, two approvals are at least
      the cooldown apart: within any one-hour window a key is approved at most once. */
  lemma {:induction false} ApprovalsSpaced(sent: map<string, int>, key: string, times: seq<int>, i: nat, j: nat)
    requires i < j < |times|
    requires Replay(sent, key, times)[i] && Replay(sent, key, times)[j]
    ensures times[j] - times[i] >= ResendSeconds
    decreases i
  {
    var (ok, sent') := CheckAndSet(sent, key, times[0]);
    assert Replay(sent', key, times[1..])[j - 1];
    if i == 0 {
      ApprovalsAfterStored(sent', key, times[1..], j - 1);
    } else {
      assert Replay(sent', key, times[1..])[i - 1];
      ApprovalsSpaced(sent', key, times[1..], i - 1, j - 1);
    }
  }

  /** Price, stop and target of an alert. */
  datatype Levels = Levels(price: real, stop: real, target: real)

  /** Stop 1.5 ATR below the close and target 3 ATR above it: the target is twice as far from the
      price as the stop, and with a positive ATR the price lies strictly between them. */
  function TradeLevels(price: real, atr: real): (l: Levels)
    ensures l.price == price && l.price - l.stop == 1.5 * atr
    ensures l.target - l.price == 2.0 * (l.price - l.stop)
    ensures atr > 0.0 ==> l.stop < l.price < l.target
  {
    Levels(price, price - atr * 1.5, price + atr * 3.0)
  }

  /** The deduplication state: the cooldown map and the set of pairs alerted in the cycle. */
  datatype DedupState = DedupState(sent: map<string, int>, alerted: set<string>)

  /** What `enviar_alerta_completo` did with a setup match. */
  datatype Outcome = SkippedSetup3 | OnCooldown | SendFailed(levels: Levels) | Sent(levels: Levels)

  /** The Setup 3 gate: a light setup for a pair already alerted is dropped. */
  predicate Setup3Gated(st: DedupState, pair: string, info: SetupInfo) {
    info.setup == Setup3Info.setup && pair in st.alerted
  }

  /** `enviar_alerta_completo` on the deduplication state, given the close and ATR of the current
      row, the time, and whether the message reached the chat. A gated Setup 3 leaves everything
      unchanged; otherwise the check-and-set runs, and the pair joins the alerted set exactly when
      it approved and the send succeeded. */
  function AlertStep(st: DedupState, pair: string, info: SetupInfo, close: real, atr: real,
                     now: int, sendOk: bool): (r: (DedupState, Outcome))
    ensures Setup3Gated(st, pair, info) ==> r == (st, SkippedSetup3)
    ensures r.1.SkippedSetup3? <==> Setup3Gated(st, pair, info)
    ensures !Setup3Gated(st, pair, info) ==>
              (r.1 == OnCooldown <==> !Eligible(st.sent, AlertKey(pair, info.setup), now))
    ensures r.1.Sent? <==> !Setup3Gated(st, pair, info) && Eligible(st.sent, AlertKey(pair, info.setup), now) && sendOk
    ensures r.1.Sent? || r.1.SendFailed? ==> r.1.levels == TradeLevels(close, atr)
    ensures r.0.alerted == st.alerted + (if r.1.Sent? then {pair} else {})
    ensures r.0.sent == if r.1.Sent? || r.1.SendFailed? then st.sent[AlertKey(pair, info.setup) := now] else st.sent
  {
    if Setup3Gated(st, pair, info) then (st, SkippedSetup3)
    else
      var levels := TradeLevels(close, atr);
      var (ok, sent') := CheckAndSet(st.sent, AlertKey(pair, info.setup), now);
      if !ok then (DedupState(sent', st.alerted), OnCooldown)
      else if sendOk then (DedupState(sent', st.alerted + {pair}), Sent(levels))
      else (DedupState(sent', st.alerted), SendFailed(levels))
  }

  /** One call of `enviar_alerta_completo`, with its inputs. */
  datatype AlertRequest = AlertRequest(pair: string, info: SetupInfo, close: real, atr: real, now: int, sendOk: bool)

  /** The state after a sequence of calls. */
  function RunAlerts(st: DedupState, reqs: seq<AlertRequest>): DedupState
    decreases |reqs|
  {
    if reqs == [] then st
    else
      var q := reqs[0];
      RunAlerts(AlertStep(st, q.pair, q.info, q.close, q.atr, q.now, q.sendOk).0, reqs[1..])
  }

  /** Nothing is ever removed: keys stay in the cooldown map and pairs stay in the alerted set,
      since the set is never reset. */
  lemma {:induction false} RunAlertsGrows(st: DedupState, reqs: seq<AlertRequest>)
    ensures st.sent.Keys <= RunAlerts(st, reqs).sent.Keys
    ensures st.alerted <= RunAlerts(st, reqs).alerted
    decreases |reqs|
  {
    if reqs != [] {
      var q := reqs[0];
      RunAlertsGrows(AlertStep(st, q.pair, q.info, q.close, q.atr, q.now, q.sendOk).0, reqs[1..]);
    }
  }

  /** Once a pair has been alerted, every later Setup 3 for it is dropped, however many calls
      come in between. */
  lemma Setup3DroppedOnceAlerted(st: DedupState, reqs: seq<AlertRequest>, pair: string,
                                 close: real, atr: real, now: int, sendOk: bool)
    requires pair in st.alerted
    ensures var later := RunAlerts(st, reqs);
            AlertStep(later, pair, Setup3Info, close, atr, now, sendOk) == (later, SkippedSetup3)
  {
    RunAlertsGrows(st, reqs);
  }

  /** A call touches no cooldown entry but its own pair-and-setup key. */
  lemma AlertStepKeepsOtherKeys(st: DedupState, pair: string, info: SetupInfo, close: real, atr: real,
                                now: int, sendOk: bool, k: string)
    requires k != AlertKey(pair, info.setup)
    ensures var r := AlertStep(st, pair, info, close, atr, now, sendOk).0;
            (k in r.sent <==> k in st.sent) && (k in st.sent ==> r.sent[k] == st.sent[k])
  {
  }
}
