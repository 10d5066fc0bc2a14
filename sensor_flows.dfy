/**
 * What the two fingerprint flows do, as the list of effects they produce:
 * verification of a finger (ending, on a match, in one pulse of the lock relay)
 * and the two-sample enrollment pipeline. The controller's methods are proved
 * to produce exactly these lists.
 */
module SensorFlows {
  import opened LockTypes

  /** openLock: relay LOW, "Access Granted", relay HIGH after the hold, idle screen. */
  const UNLOCK: seq<Effect> := [Relay(Low), Display(AccessGranted), Relay(High), Display(IdleScreen)]

  /** One verification attempt, from "Place Finger..." to its outcome. */
  function VerifyEffects(scan: ScanOutcome): (fx: seq<Effect>)
    ensures Relay(Low) in fx <==> scan == Captured(true, true)
    ensures Relay(Low) in fx ==> |fx| >= |UNLOCK| && fx[|fx| - |UNLOCK|..] == UNLOCK
    ensures Relay(Low) in fx ==> Relay(Low) !in fx[..|fx| - |UNLOCK|]
    ensures Sensor(FastSearch) in fx <==> scan.Captured? && scan.convertOk
    ensures Sensor(GetImage) in fx
  {
    match scan
    case TimedOut =>
      [Display(VerifyPrompt), Sensor(GetImage), Display(Timeout)]
    case Captured(false, _) =>
      [Display(VerifyPrompt), Sensor(GetImage), Sensor(Convert), Display(NoMatchFound)]
    case Captured(true, false) =>
      [Display(VerifyPrompt), Sensor(GetImage), Sensor(Convert), Sensor(FastSearch), Display(NoMatchFound)]
    case Captured(true, true) =>
      [Display(VerifyPrompt), Sensor(GetImage), Sensor(Convert), Sensor(FastSearch), Display(AccessGranted)] + UNLOCK
  }

  /** The enrollment pipeline when every step succeeds. */
  function Pipeline(id: int): seq<SensorCall> {
    [GetImage, ConvertInto(1), GetImage, ConvertInto(2), CreateModel, StoreModel(id)]
  }

  /**
   * Whether each step of Pipeline succeeds. A capture always succeeds in the
   * end, because enrollment waits for a finger without a time limit.
   */
  function StepResults(r: EnrollReplies): seq<bool> {
    [true, r.firstOk, true, r.secondOk, r.modelOk, r.storeOk]
  }

  /** How many steps of a pipeline run: all of them, or up to and including the first failure. */
  function RunLength(results: seq<bool>): (n: nat)
    ensures n <= |results|
    ensures |results| > 0 ==> n > 0
    ensures forall j :: 0 <= j < n - 1 ==> results[j]
    ensures n < |results| ==> !results[n - 1]
    ensures n == |results| <==> forall j :: 0 <= j < |results| - 1 ==> results[j]
  {
    if results == [] then 0
    else if !results[0] then 1
    else 1 + RunLength(results[1..])
  }

  /** A pipeline whose first failure is step k runs exactly k + 1 steps. */
  lemma {:induction false} RunLengthAtFailure(results: seq<bool>, k: nat)
    requires k < |results| && !results[k]
    requires forall j :: 0 <= j < k ==> results[j]
    ensures RunLength(results) == k + 1
  {
    if k > 0 {
      RunLengthAtFailure(results[1..], k - 1);
    }
  }

  predicate EnrollSucceeds(r: EnrollReplies) {
    r.firstOk && r.secondOk && r.modelOk && r.storeOk
  }

  /** The prompt, capture and conversion of sample i (0 or 1). */
  function SampleEffects(i: int): seq<Effect> {
    [Display(if i == 0 then ScanFinger else ScanFingerAgain), Sensor(GetImage), Sensor(ConvertInto(i + 1))]
  }

  /** Both samples taken, with "Remove Finger" between them. */
  function BothSamples(): seq<Effect> {
    SampleEffects(0) + [Display(RemoveFinger)] + SampleEffects(1)
  }

  /** What follows the second sample: its error, or model creation and storage with their outcome. */
  function AfterSamples(id: int, r: EnrollReplies): seq<Effect> {
    if !r.secondOk then [Display(ErrorCapturing)]
    else if !r.modelOk then [Sensor(CreateModel), Display(ErrorCreating)]
    else if !r.storeOk then [Sensor(CreateModel), Sensor(StoreModel(id)), Display(StoreFailed)]
    else [Sensor(CreateModel), Sensor(StoreModel(id))]
  }

  /** What fingerEnroll(id) shows and asks of the sensor, given the sensor's replies. */
  function EnrollEffects(id: int, r: EnrollReplies): (fx: seq<Effect>)
    ensures Relay(Low) !in fx && Relay(High) !in fx
  {
    if !r.firstOk then SampleEffects(0) + [Display(ErrorCapturing)]
    else BothSamples() + AfterSamples(id, r)
  }

  lemma BothSamplesCalls()
    ensures Calls(BothSamples()) == [GetImage, ConvertInto(1), GetImage, ConvertInto(2)]
  {
    var s0, s1 := SampleEffects(0), SampleEffects(1);
    assert Calls(s0) == [GetImage, ConvertInto(1)];
    assert Calls(s1) == [GetImage, ConvertInto(2)];
    assert Calls([Display(RemoveFinger)]) == [];
    CallsAppend(s0, [Display(RemoveFinger)]);
    CallsAppend(s0 + [Display(RemoveFinger)], s1);
  }

  lemma AfterSamplesCalls(id: int, r: EnrollReplies)
    ensures Calls(AfterSamples(id, r)) ==
      if !r.secondOk then [] else if !r.modelOk then [CreateModel] else [CreateModel, StoreModel(id)]
  {
    var t := AfterSamples(id, r);
    if r.secondOk && r.modelOk {
      assert Calls(t[2..]) == [];
      assert Calls(t[1..]) == [StoreModel(id)];
    } else if r.secondOk {
      assert Calls(t[1..]) == [];
    }
  }

  /** The number of pipeline steps an enrollment runs, for each failing step. */
  lemma EnrollRunLength(r: EnrollReplies)
    ensures RunLength(StepResults(r)) ==
      if !r.firstOk then 2 else if !r.secondOk then 4 else if !r.modelOk then 5 else 6
  {
    var rs := StepResults(r);
    assert rs == [true, r.firstOk, true, r.secondOk, r.modelOk, r.storeOk];
    if !r.firstOk {
      RunLengthAtFailure(rs, 1);
    } else if !r.secondOk {
      RunLengthAtFailure(rs, 3);
    } else if !r.modelOk {
      RunLengthAtFailure(rs, 4);
    } else if !r.storeOk {
      RunLengthAtFailure(rs, 5);
    }
  }

  /**
   * Enrollment asks the sensor for the pipeline's steps in order and stops
   * right after the first one that fails: no later sensor call is made.
   */
  lemma EnrollFollowsPipeline(id: int, r: EnrollReplies)
    ensures Calls(EnrollEffects(id, r)) == Pipeline(id)[..RunLength(StepResults(r))]
  {
    EnrollRunLength(r);
    if !r.firstOk {
      var s0 := SampleEffects(0);
      assert Calls(s0) == [GetImage, ConvertInto(1)];
      CallsAppend(s0, [Display(ErrorCapturing)]);
    } else {
      BothSamplesCalls();
      AfterSamplesCalls(id, r);
      CallsAppend(BothSamples(), AfterSamples(id, r));
    }
  }

  /** storeModel(id) is requested iff both samples converted and the model was created. */
  lemma StoreOnlyAfterSamplesAndModel(id: int, r: EnrollReplies)
    ensures StoreModel(id) in Calls(EnrollEffects(id, r)) <==> r.firstOk && r.secondOk && r.modelOk
    ensures GetImage in Calls(EnrollEffects(id, r))
  {
    EnrollFollowsPipeline(id, r);
    var rs := StepResults(r);
    var n := RunLength(rs);
    var p := Pipeline(id);
    assert rs == [true, r.firstOk, true, r.secondOk, r.modelOk, r.storeOk];
    if r.firstOk && r.secondOk && r.modelOk {
      assert forall j :: 0 <= j < |rs| - 1 ==> rs[j];
      assert p[..n][5] == StoreModel(id);
    } else {
      if !r.firstOk {
        RunLengthAtFailure(rs, 1);
      } else if !r.secondOk {
        RunLengthAtFailure(rs, 3);
      } else {
        RunLengthAtFailure(rs, 4);
      }
      assert forall k :: 0 <= k < n ==> p[..n][k] == p[k] && p[k] != StoreModel(id);
    }
    assert p[..n][0] == GetImage;
  }
}
