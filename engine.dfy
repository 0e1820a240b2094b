/** The priority dispatch of `analisar_moeda`: the setups are tried in a fixed order and the
    first one that matches is the one acted on; no later setup is looked at. */
module Engine {
  import opened Wrappers
  import opened Frames
  import opened Patterns
  import opened Setups

  /** Names for the six `verificar_setup_*` functions. */
  datatype SetupId = Setup1 | Setup2 | Setup3 | Setup4 | Setup5 | Setup6

  /** The order in which `analisar_moeda` lists the setup functions. */
  const Priority: seq<SetupId> := [Setup5, Setup6, Setup1, Setup2, Setup4, Setup3]

  /** The description a setup returns when it matches. */
  function Info(id: SetupId): SetupInfo {
    match id
    case Setup1 => Setup1Info
    case Setup2 => Setup2Info
    case Setup3 => Setup3Info
    case Setup4 => Setup4Info
    case Setup5 => Setup5Info
    case Setup6 => Setup6Info
  }

  /** Different setups carry different descriptions, so a description names its setup. */
  lemma InfoInjective(a: SetupId, b: SetupId)
    ensures Info(a) == Info(b) ==> a == b
  {
  }

  /** Calling the setup function `id` on the frame. */
  function Check(id: SetupId, f: Frame): (r: Option<SetupInfo>)
    requires f.Valid()
    ensures r == None || r == Some(Info(id))
  {
    match id
    case Setup1 => CheckSetup1(f)
    case Setup2 => CheckSetup2(f)
    case Setup3 => CheckSetup3(f)
    case Setup4 => CheckSetup4(f)
    case Setup5 => CheckSetup5(f)
    case Setup6 => CheckSetup6(f)
  }

  /** The position in `ids` of the first setup that matches, if any: the setup there matches
      and every setup before it does not. */
  function FirstMatch(ids: seq<SetupId>, f: Frame): (k: Option<nat>)
    requires f.Valid()
    ensures k.Some? ==> k.value < |ids| && Check(ids[k.value], f).Some?
    ensures k.Some? ==> forall j :: 0 <= j < k.value ==> Check(ids[j], f).None?
    ensures k.None? ==> forall j :: 0 <= j < |ids| ==> Check(ids[j], f).None?
  {
    if ids == [] then None
    else if Check(ids[0], f).Some? then Some(0)
    else match FirstMatch(ids[1..], f)
      case None => None
      case Some(k) => Some(k + 1)
  }

  /** Where `id` stands in the priority order. */
  function Rank(id: SetupId): (k: nat)
    ensures k < |Priority| && Priority[k] == id
    ensures forall j :: 0 <= j < |Priority| && Priority[j] == id ==> j == k
  {
    match id
    case Setup5 => 0
    case Setup6 => 1
    case Setup1 => 2
    case Setup2 => 3
    case Setup4 => 4
    case Setup3 => 5
  }

  /** The description `analisar_moeda` acts on: that of the first setup in priority order that
      matches, or nothing when none does. */
  function Evaluate(f: Frame): (r: Option<SetupInfo>)
    requires f.Valid()
    ensures r.None? <==> forall j :: 0 <= j < |Priority| ==> Check(Priority[j], f).None?
    ensures r.Some? ==> exists k :: 0 <= k < |Priority| && r == Check(Priority[k], f)
                                      && forall j :: 0 <= j < k ==> Check(Priority[j], f).None?
  {
    match FirstMatch(Priority, f)
    case None => None
    case Some(k) => Check(Priority[k], f)
  }

  /** Setup `id` is the one acted on exactly when it matches and every setup ranked before it
      does not. */
  lemma {:induction false} EvaluateWinner(f: Frame, id: SetupId)
    requires f.Valid()
    ensures Evaluate(f) == Some(Info(id)) <==>
              Check(id, f).Some? && forall j :: 0 <= j < Rank(id) ==> Check(Priority[j], f).None?
  {
    var k := FirstMatch(Priority, f);
    if k.Some? {
      InfoInjective(Priority[k.value], id);
      if Check(id, f).Some? && forall j :: 0 <= j < Rank(id) ==> Check(Priority[j], f).None? {
        assert !(k.value < Rank(id));
        assert !(Rank(id) < k.value);
      }
    } else {
      assert Check(Priority[Rank(id)], f).None?;
    }
  }

  /** Nothing is acted on exactly when no setup matches. */
  lemma EvaluateNone(f: Frame)
    requires f.Valid()
    ensures Evaluate(f) == None <==> forall id :: Check(id, f).None?
  {
    if Evaluate(f) == None {
      forall id ensures Check(id, f).None? {
        assert Check(Priority[Rank(id)], f).None?;
      }
    }
  }

  /** A Setup 5 match is always the one acted on, whatever else matches. */
  lemma Setup5AlwaysWins(f: Frame)
    requires f.Valid() && CheckSetup5(f).Some?
    ensures Evaluate(f) == Some(Setup5Info)
  {
    EvaluateWinner(f, Setup5);
  }

  /** With non-negative volumes, Setup 1 is never the one acted on: any frame it matches is also
      matched by Setup 5, which is tried first. */
  lemma Setup1NeverWins(f: Frame)
    requires f.Valid() && NonNegativeVolumes(f)
    ensures Evaluate(f) != Some(Setup1Info)
  {
    Setup1ImpliesSetup5(f);
    EvaluateWinner(f, Setup1);
    assert Priority[0] == Setup5;
  }

  /** Setup 3, the last in the order, is acted on only when none of the other five match. */
  lemma Setup3OnlyAlone(f: Frame)
    requires f.Valid()
    ensures Evaluate(f) == Some(Setup3Info) <==>
              CheckSetup3(f).Some? && CheckSetup5(f).None? && CheckSetup6(f).None?
              && CheckSetup1(f).None? && CheckSetup2(f).None? && CheckSetup4(f).None?
  {
    EvaluateWinner(f, Setup3);
    if CheckSetup5(f).None? && CheckSetup6(f).None? && CheckSetup1(f).None?
       && CheckSetup2(f).None? && CheckSetup4(f).None? {
      forall j | 0 <= j < Rank(Setup3) ensures Check(Priority[j], f).None? {
        assert j == 0 || j == 1 || j == 2 || j == 3 || j == 4;
      }
    }
    assert Priority[0] == Setup5 && Priority[1] == Setup6 && Priority[2] == Setup1;
    assert Priority[3] == Setup2 && Priority[4] == Setup4;
  }

  /** The dispatch with `verificar_setup_4` exactly as main.py writes it: the same order, with
      the as-written Setup 4 in fifth place. */
  function EvaluateAsWritten(f: Frame): (r: Option<SetupInfo>)
    requires f.Valid()
    ensures WellFormed(f.LastCandle()) ==> r != Some(Setup4Info)
  {
    match FirstMatch(Priority[..4], f)
    case Some(k) => Check(Priority[k], f)
    case None => if CheckSetup4AsWritten(f).Some? then CheckSetup4AsWritten(f) else CheckSetup3(f)
  }

  /** On a well-formed last bar the dispatch as written and the corrected one differ only where
      the corrected Setup 4 wins: there main.py falls through to Setup 3. */
  lemma EvaluateAsWrittenDiffersOnlyOnSetup4(f: Frame)
    requires f.Valid() && WellFormed(f.LastCandle())
    ensures Evaluate(f) != Some(Setup4Info) ==> EvaluateAsWritten(f) == Evaluate(f)
    ensures Evaluate(f) == Some(Setup4Info) ==> EvaluateAsWritten(f) == CheckSetup3(f)
  {
    match FirstMatch(Priority[..4], f)
    case Some(k) =>
      assert Priority[..4][k] == Priority[k];
      assert forall j :: 0 <= j < k ==> Priority[..4][j] == Priority[j];
      EvaluateWinner(f, Priority[k]);
    case None =>
      assert forall j :: 0 <= j < 4 ==> Priority[..4][j] == Priority[j];
      EvaluateWinner(f, Setup4);
      EvaluateWinner(f, Setup3);
      EvaluateNone(f);
      if CheckSetup3(f).None? && CheckSetup4(f).None? {
        assert forall id :: Check(id, f).None? by {
          assert Priority[0] == Setup5 && Priority[1] == Setup6 && Priority[2] == Setup1;
          assert Priority[3] == Setup2;
          forall id ensures Check(id, f).None? {
            assert Rank(id) < 4 || id == Setup4 || id == Setup3;
          }
        }
      }
  }
}
