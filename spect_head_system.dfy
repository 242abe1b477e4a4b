/**
 A SPECT head system (GateSPECTHeadSystem) and the shared collaborators its constructor and its
 ARF stage selection touch: the detector construction, which keeps the ARF registrations and the
 optional ARF sensitive detector, and the output manager, which keeps the list of output modules.
 The collaborators are explicit objects here rather than process-wide singletons.
 */
module SpectHead {
  import opened Wrappers
  import opened ArfStage
  import opened Hierarchy

  /** The digitisation mode the output manager reports (run-time or offline digitisation). */
  datatype DigiMode = RuntimeMode | OfflineMode

  /** An output module as the output manager sees it: its tag, the system it belongs to, and the
      digitisation mode it was created with. */
  datatype OutputEntry = OutputEntry(tag: string, owner: SpectHeadSystem, mode: DigiMode)

  const BaseName: string := "base"
  const CrystalName: string := "crystal"
  const PixelName: string := "pixel"

  const ProjectionTag: string := "projection"
  const InterfileTag: string := "interfile"
  const GpuImageTag: string := "spectGPU"

  /** Number of hierarchy levels a SPECT head names for output: head, crystal, pixel. */
  const OutputLevels: nat := 3

  /** The component tree a SPECT head has once constructed: the base, a crystal under the base
      and a pixel under the crystal. */
  function HeadHierarchy(): (cs: seq<Component>)
    ensures WellFormed(cs) && |cs| == 3
    ensures cs[BaseIndex].name == BaseName
    ensures ChildrenNamed(cs, BaseIndex, CrystalName) == {1}
    ensures ChildrenNamed(cs, 1, PixelName) == {2}
    ensures Depth(cs, BaseIndex) == 0 && Depth(cs, 1) == 1 && Depth(cs, 2) == 2
  {
    var base := [Component(BaseName, None)];
    var withCrystal := Attach(base, CrystalName, BaseIndex);
    var cs := Attach(withCrystal, PixelName, 1);
    assert cs == [Component(BaseName, None), Component(CrystalName, Some(0)), Component(PixelName, Some(1))];
    assert Chain(cs, 1) == [1, 0];
    assert Chain(cs, 2) == [2, 1, 0];
    assert forall i: nat | i in ChildrenNamed(cs, BaseIndex, CrystalName) :: i == 1;
    assert forall i: nat | i in ChildrenNamed(cs, 1, PixelName) :: i == 2;
    cs
  }

  /** The ARF sensitive detector: the external object whose stage a stage request overwrites. */
  class ArfSensitiveDetector {
    var stage: int

    constructor (initial: int)
      ensures stage == initial
    {
      stage := initial;
    }

    method SetStage(newStage: int)
      modifies this
      ensures stage == newStage
    {
      stage := newStage;
    }
  }

  /** The detector construction: the list of (system name, stage) ARF registrations and the
      ARF sensitive detector, which a later geometry phase may install. */
  class DetectorConstruction {
    var arfRegistrations: seq<(string, int)>
    var arfSD: ArfSensitiveDetector?

    constructor ()
      ensures arfRegistrations == [] && arfSD == null
    {
      arfRegistrations := [];
      arfSD := null;
    }

    method InsertArfSD(name: string, stage: int)
      modifies this`arfRegistrations
      ensures arfRegistrations == old(arfRegistrations) + [(name, stage)]
    {
      arfRegistrations := arfRegistrations + [(name, stage)];
    }

    method GetArfSD() returns (sd: ArfSensitiveDetector?)
      ensures sd == arfSD
    {
      sd := arfSD;
    }
  }

  /** The output manager: the ordered list of output modules and the digitisation mode. */
  class OutputManager {
    var modules: seq<OutputEntry>
    var digiMode: DigiMode

    constructor (mode: DigiMode)
      ensures modules == [] && digiMode == mode
    {
      modules := [];
      digiMode := mode;
    }

    method AddOutputModule(entry: OutputEntry)
      modifies this`modules
      ensures modules == old(modules) + [entry]
    {
      modules := modules + [entry];
    }
  }

  class SpectHeadSystem {
    const name: string
    const detectorConstruction: DetectorConstruction
    /** The ARF stage: Unstaged until a recognised stage name is requested. */
    var arfStage: int
    var components: seq<Component>
    var crystalComponent: nat
    var pixelComponent: nat
    /** Output ID names by hierarchy level. */
    const outputIDNames: array<string>
    /** The side effects of stage requests, in order. */
    var log: seq<Effect>

    ghost predicate Valid()
      reads this
    {
      && IsReachable(arfStage)
      && components == HeadHierarchy()
      && crystalComponent == 1
      && pixelComponent == 2
      && outputIDNames.Length == OutputLevels
    }

    constructor (itsName: string, dc: DetectorConstruction, om: OutputManager)
      modifies dc`arfRegistrations, om`modules
      ensures Valid()
      ensures name == itsName && detectorConstruction == dc
      ensures arfStage == Unstaged && log == []
      // the name is registered with the stage the system starts in
      ensures dc.arfRegistrations == old(dc.arfRegistrations) + [(itsName, arfStage)]
      // one crystal under the base, one pixel under the crystal
      ensures components == HeadHierarchy()
      ensures ChildrenNamed(components, BaseIndex, CrystalName) == {crystalComponent}
      ensures ChildrenNamed(components, crystalComponent, PixelName) == {pixelComponent}
      // three output modules appended in order, tagged with this system and the current mode
      ensures om.modules == old(om.modules) + [
        OutputEntry(ProjectionTag, this, om.digiMode),
        OutputEntry(InterfileTag, this, om.digiMode),
        OutputEntry(GpuImageTag, this, om.digiMode)]
      // the output ID names are bound to the levels of the hierarchy
      ensures fresh(outputIDNames)
      ensures outputIDNames[Depth(components, BaseIndex)] == "headID"
      ensures outputIDNames[Depth(components, crystalComponent)] == "crystalID"
      ensures outputIDNames[Depth(components, pixelComponent)] == "pixelID"
    {
      name := itsName;
      detectorConstruction := dc;
      outputIDNames := new string[OutputLevels](_ => "");
      arfStage := Unstaged;
      log := [];
      components := [Component(BaseName, None)];
      new;
      dc.InsertArfSD(name, arfStage);

      crystalComponent := |components|;
      components := Attach(components, CrystalName, BaseIndex);
      pixelComponent := |components|;
      components := Attach(components, PixelName, crystalComponent);

      om.AddOutputModule(OutputEntry(ProjectionTag, this, om.digiMode));
      om.AddOutputModule(OutputEntry(InterfileTag, this, om.digiMode));
      om.AddOutputModule(OutputEntry(GpuImageTag, this, om.digiMode));

      outputIDNames[0] := "headID";
      outputIDNames[1] := "crystalID";
      outputIDNames[2] := "pixelID";
      assert components == HeadHierarchy();
    }

    /** Selects the ARF stage by name. The stage is pushed to the ARF sensitive detector when one
        is installed, even when it is the sentinel or a stage kept from an earlier request; the
        request fails exactly when the stage is still the sentinel. */
    method SetArfStage(stageName: string) returns (outcome: Outcome)
      requires Valid()
      modifies this`arfStage, this`log, detectorConstruction.arfSD
      ensures Valid()
      ensures var step := Step(old(arfStage), stageName, detectorConstruction.arfSD != null);
        && arfStage == step.stage
        && outcome == step.outcome
        && log == old(log) + step.effects
      ensures detectorConstruction.arfSD != null ==> detectorConstruction.arfSD.stage == arfStage
    {
      if stageName == "generateData" {
        arfStage := GenerateData;
      } else if stageName == "computeTables" {
        arfStage := ComputeTables;
      } else if stageName == "useTables" {
        arfStage := UseTables;
      }

      var sd := detectorConstruction.GetArfSD();
      if sd != null {
        sd.SetStage(arfStage);
        log := log + [TargetStageSet(arfStage)];
      }

      log := log + [Diagnostic(DiagnosticCategory, DiagnosticLevel, stageName, arfStage)];

      if arfStage == Unstaged {
        var message := InvalidStageMessage(stageName);
        log := log + [FatalException(Origin, ExceptionCode, message)];
        return ConfigError(stageName, message);
      }
      return Ok;
    }
  }

  /** What a caller can conclude from the contracts alone: staging before any ARF sensitive
      detector exists succeeds, a later unrecognised name is accepted and re-propagates the
      stage already selected, and a valid name reaches the detector. */
  method StagingScenario()
  {
    var dc := new DetectorConstruction();
    var om := new OutputManager(RuntimeMode);
    var head := new SpectHeadSystem("SPECThead", dc, om);
    assert |om.modules| == 3 && om.modules[2].tag == GpuImageTag && om.modules[2].owner == head;

    var outcome := head.SetArfStage("computeTables");
    assert outcome == Ok && head.arfStage == ComputeTables;
    outcome := head.SetArfStage("computeTables");
    assert outcome == Ok && head.arfStage == ComputeTables;

    var sd := new ArfSensitiveDetector(Unstaged);
    dc.arfSD := sd;
    outcome := head.SetArfStage("GenerateData");
    assert outcome == Ok && sd.stage == ComputeTables;
    outcome := head.SetArfStage("useTables");
    assert outcome == Ok && sd.stage == UseTables;

    var second := new SpectHeadSystem("otherHead", dc, om);
    outcome := second.SetArfStage("");
    assert outcome.ConfigError? && outcome.requested == "" && sd.stage == Unstaged;
  }
}
