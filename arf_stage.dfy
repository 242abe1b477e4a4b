/**
 The ARF stage state machine of a SPECT head system (GateSPECTHeadSystem::setARFStage).

 A request names a stage; three literal names select the stage codes 0, 1 and 2 and any other
 name leaves the stored code as it was. The stored code is then pushed to the ARF sensitive
 detector when one is installed, a diagnostic is written, and the request is fatal exactly when
 the stored code is still the sentinel -2 it was initialised with. The fatal exception of the
 GATE code (a G4Exception) is modelled as a ConfigError outcome; the ordered side effects are listed as Effects.
 */
module ArfStage {
  import opened Wrappers

  /** The sentinel stored before any valid stage was requested. */
  const Unstaged: int := -2
  /** Stage codes selected by "generateData", "computeTables" and "useTables". */
  const GenerateData: int := 0
  const ComputeTables: int := 1
  const UseTables: int := 2

  /** The values the stored stage can take: the sentinel or one of the three stage codes. */
  predicate IsReachable(stage: int) {
    stage == Unstaged || GenerateData <= stage <= UseTables
  }

  /** True when `part` occurs in `text` starting at index `i`. */
  predicate OccursAt(text: string, part: string, i: int) {
    0 <= i <= |text| - |part| && text[i..i + |part|] == part
  }

  /** True when `part` occurs as a contiguous piece of `text`. */
  predicate Contains(text: string, part: string) {
    exists i | 0 <= i <= |text| - |part| :: OccursAt(text, part, i)
  }

  /** The stage code a request name selects, if it is one of the three recognised names.
      The comparison is exact: no case folding, no trimming. */
  function StageFor(name: string): (r: Option<int>)
    ensures r == Some(GenerateData) <==> name == "generateData"
    ensures r == Some(ComputeTables) <==> name == "computeTables"
    ensures r == Some(UseTables) <==> name == "useTables"
    ensures r.None? <==> name != "generateData" && name != "computeTables" && name != "useTables"
    ensures r.Some? ==> GenerateData <= r.value <= UseTables
  {
    if name == "generateData" then Some(GenerateData)
    else if name == "computeTables" then Some(ComputeTables)
    else if name == "useTables" then Some(UseTables)
    else None
  }

  /** The stored stage after the name mapping of one request. */
  function Resolve(current: int, name: string): (r: int)
    ensures StageFor(name).Some? ==> r == StageFor(name).value
    ensures StageFor(name).None? ==> r == current
    ensures IsReachable(current) ==> IsReachable(r)
    ensures r == Unstaged <==> current == Unstaged && StageFor(name).None?
  {
    match StageFor(name)
    case Some(stage) => stage
    case None => current
  }

  /** Outcome of a request: the fatal G4Exception of GateSPECTHeadSystem::setARFStage becomes ConfigError, which
      keeps the offending name and the exception's message. */
  datatype Outcome = Ok | ConfigError(requested: string, message: string)

  /** The externally visible actions of one request, in the order they happen. */
  datatype Effect =
    | TargetStageSet(stage: int)
    | Diagnostic(category: string, level: nat, requested: string, stage: int)
    | FatalException(origin: string, code: string, message: string)

  const Origin: string := "GateSPECTHeadSystem::setARFStage"
  const ExceptionCode: string := "setARFStage"
  const DiagnosticCategory: string := "Geometry"
  const DiagnosticLevel: nat := 2

  /** The message of the fatal exception raised for a request that leaves no valid stage. */
  function InvalidStageMessage(name: string): (m: string)
    ensures Contains(m, name)
    ensures |m| >= |Origin| && m[..|Origin|] == Origin
  {
    var m := Origin + " stage '" + name + "' is not valid.";
    assert OccursAt(m, name, |Origin| + 8);
    m
  }

  /** The outcome of a request for `name` once the stored stage is `stage`. */
  function Check(stage: int, name: string): (r: Outcome)
    ensures r.ConfigError? <==> stage == Unstaged
    ensures r.ConfigError? ==> r.requested == name && Contains(r.message, name)
  {
    if stage == Unstaged then ConfigError(name, InvalidStageMessage(name)) else Ok
  }

  /** Everything one request changes: the new stored stage, its side effects and its outcome. */
  datatype StepResult = StepResult(stage: int, effects: seq<Effect>, outcome: Outcome)

  /** One request for stage `name` when the stored stage is `current`; `hasTarget` says whether an
      ARF sensitive detector is installed to receive the stage. */
  function Step(current: int, name: string, hasTarget: bool): (r: StepResult)
    ensures r.stage == Resolve(current, name)
    ensures r.outcome.ConfigError? <==> r.stage == Unstaged
    ensures r.outcome.ConfigError? ==> r.outcome.requested == name && Contains(r.outcome.message, name)
    ensures StageFor(name).Some? ==> r.outcome == Ok
    ensures current != Unstaged ==> r.outcome == Ok
    // the target receives the stored stage first, whatever it is, and only when it exists
    ensures |r.effects| > 0 && (r.effects[0] == TargetStageSet(r.stage) <==> hasTarget)
    ensures forall k :: 0 < k < |r.effects| ==> !r.effects[k].TargetStageSet?
    // the diagnostic always follows the propagation
    ensures var d := if hasTarget then 1 else 0;
      d < |r.effects| && r.effects[d] == Diagnostic(DiagnosticCategory, DiagnosticLevel, name, r.stage)
    // the fatal exception, when raised, is the last action and carries the outcome's message
    ensures r.outcome.Ok? <==> (forall k :: 0 <= k < |r.effects| ==> !r.effects[k].FatalException?)
    ensures r.outcome.ConfigError? ==>
      r.effects[|r.effects| - 1] == FatalException(Origin, ExceptionCode, r.outcome.message)
    // nothing else happens: one push at most, one diagnostic, one exception at most
    ensures |r.effects| == (if hasTarget then 1 else 0) + 1 + (if r.outcome.ConfigError? then 1 else 0)
  {
    var stage := Resolve(current, name);
    var outcome := Check(stage, name);
    var pushed := if hasTarget then [TargetStageSet(stage)] else [];
    var raised := if outcome.Ok? then [] else [FatalException(Origin, ExceptionCode, outcome.message)];
    var effects := pushed + [Diagnostic(DiagnosticCategory, DiagnosticLevel, name, stage)] + raised;
    assert outcome.ConfigError? ==> effects[|effects| - 1].FatalException?;
    StepResult(stage, effects, outcome)
  }

  /** The outcomes of successive requests `names` made from stored stage `current`, where the
      caller carries on after a ConfigError (GateSPECTHeadSystem::setARFStage would have stopped
      the process). */
  function Run(current: int, names: seq<string>): (r: seq<Outcome>)
    ensures |r| == |names|
    ensures forall k :: 0 <= k < |r| && r[k].ConfigError? ==> r[k].requested == names[k]
    ensures IsReachable(current) && current != Unstaged ==> forall k :: 0 <= k < |r| ==> r[k] == Ok
    decreases |names|
  {
    if names == [] then []
    else
      var stage := Resolve(current, names[0]);
      [Check(stage, names[0])] + Run(stage, names[1..])
  }

  /** The stored stage after successive requests `names` made from stored stage `current`. */
  function FinalStage(current: int, names: seq<string>): (r: int)
    ensures IsReachable(current) ==> IsReachable(r)
    ensures r == Unstaged <==> current == Unstaged && forall j :: 0 <= j < |names| ==> StageFor(names[j]).None?
    decreases |names|
  {
    if names == [] then current else FinalStage(Resolve(current, names[0]), names[1..])
  }

  /** The stage code selected by the last recognised name in `names`, read from the back. */
  function LastSelected(names: seq<string>): (r: Option<int>)
    decreases |names|
  {
    if names == [] then None
    else
      match StageFor(names[|names| - 1])
      case Some(stage) => Some(stage)
      case None => LastSelected(names[..|names| - 1])
  }

  /** `count` copies of the same request name. */
  function Repeat(name: string, count: nat): (r: seq<string>)
    ensures |r| == count && forall k :: 0 <= k < count ==> r[k] == name
  {
    seq(count, _ => name)
  }

  /** Reading `LastSelected` from the front: the last recognised name is in the tail if there is
      one there, else it is the head. */
  lemma {:induction false} LastSelectedFromFront(names: seq<string>)
    requires |names| > 0
    ensures LastSelected(names) ==
      match LastSelected(names[1..])
      case Some(stage) => Some(stage)
      case None => StageFor(names[0])
    decreases |names|
  {
    if |names| > 1 {
      var n := |names|;
      assert names[1..][..n - 2] == names[..n - 1][1..];
      assert names[1..][n - 2] == names[n - 1];
      LastSelectedFromFront(names[..n - 1]);
    }
  }

  /** The stored stage after any history of requests is the stage of the last recognised name,
      or the starting stage when no name was recognised: unrecognised names never disturb it. */
  lemma {:induction false} FinalStageIsLastSelected(current: int, names: seq<string>)
    ensures FinalStage(current, names) ==
      match LastSelected(names)
      case Some(stage) => stage
      case None => current
    decreases |names|
  {
    if names != [] {
      FinalStageIsLastSelected(Resolve(current, names[0]), names[1..]);
      LastSelectedFromFront(names);
    }
  }

  /** The k-th request of a history fails exactly when the history started unstaged and none of
      the first k + 1 names was recognised. */
  lemma {:induction false} RunFailsIffNeverStaged(current: int, names: seq<string>, k: nat)
    requires IsReachable(current)
    requires k < |names|
    ensures Run(current, names)[k].ConfigError? <==>
      current == Unstaged && forall j :: 0 <= j <= k ==> StageFor(names[j]).None?
    ensures Run(current, names)[k].ConfigError? ==> Run(current, names)[k].requested == names[k]
    decreases k
  {
    var stage := Resolve(current, names[0]);
    assert Run(current, names) == [Check(stage, names[0])] + Run(stage, names[1..]);
    if k > 0 {
      RunFailsIffNeverStaged(stage, names[1..], k - 1);
      assert forall j :: 1 <= j <= k ==> names[j] == names[1..][j - 1];
    }
  }

  /** Once any request in a history has selected a valid stage, no later request can fail, even
      with a name that is not recognised. */
  lemma NeverFailsAfterValidStage(current: int, names: seq<string>, i: nat, k: nat)
    requires IsReachable(current)
    requires i <= k < |names|
    requires StageFor(names[i]).Some?
    ensures Run(current, names)[k] == Ok
  {
    RunFailsIffNeverStaged(current, names, k);
  }

  /** Repeating the same request gives the stage and the outcome of the first request each time. */
  lemma {:induction false} RepeatIsIdempotent(current: int, name: string, count: nat)
    requires count > 0
    ensures FinalStage(current, Repeat(name, count)) == Resolve(current, name)
    ensures forall k :: 0 <= k < count ==>
      Run(current, Repeat(name, count))[k] == Check(Resolve(current, name), name)
    decreases count
  {
    var names := Repeat(name, count);
    var stage := Resolve(current, name);
    assert Resolve(stage, name) == stage;
    if count > 1 {
      assert names[1..] == Repeat(name, count - 1);
      RepeatIsIdempotent(stage, name, count - 1);
    }
    assert Run(current, names) == [Check(stage, name)] + Run(stage, names[1..]);
  }

  /** The history functions are successive `Step`s: request k of a history is a `Step` from the
      stage the first k requests left, whether or not a detector is installed. */
  lemma {:induction false} RunIsSuccessiveSteps(current: int, names: seq<string>, k: nat, hasTarget: bool)
    requires k < |names|
    ensures Run(current, names)[k] == Step(FinalStage(current, names[..k]), names[k], hasTarget).outcome
    ensures FinalStage(current, names[..k + 1]) ==
      Step(FinalStage(current, names[..k]), names[k], hasTarget).stage
    decreases k
  {
    var stage := Resolve(current, names[0]);
    assert Run(current, names) == [Check(stage, names[0])] + Run(stage, names[1..]);
    assert names[..k + 1][0] == names[0] && names[..k + 1][1..] == names[1..][..k];
    if k > 0 {
      assert names[..k][0] == names[0] && names[..k][1..] == names[1..][..k - 1];
      RunIsSuccessiveSteps(stage, names[1..], k - 1, hasTarget);
    } else {
      assert names[..k] == [] && names[1..][..k] == [];
    }
  }
}
