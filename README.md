# SPECT head system: construction and ARF stage selection

A Dafny model of `GateSPECTHeadSystem`, the GATE detector system that describes a SPECT camera
head. Two operations are modelled:

- **Construction.** A new head system registers its name with the detector construction at the
  initial ARF stage -2. It builds a component tree base → `crystal` → `pixel`. It appends three
  output modules (`projection`, `interfile`, `spectGPU`) to the output manager's list, each tagged
  with the system and the current digitisation mode. It binds the output ID names `headID`,
  `crystalID` and `pixelID` to hierarchy levels 0, 1 and 2.
- **ARF stage selection** (`setARFStage`). `generateData`, `computeTables` and `useTables` select
  stages 0, 1 and 2; any other name keeps the stored stage. The stored stage is pushed to the ARF
  sensitive detector if one is installed. A diagnostic is written. The request is fatal exactly
  when the stored stage is still -2.

Files:

- `wrappers.dfy`: module `Wrappers`, an `Option` type.
- `arf_stage.dfy`: module `ArfStage`, the stage machine as pure functions. `Step` is one request
  with its outcome and its ordered side effects. `Run` and `FinalStage` are a history of requests.
  The lemmas cover histories: the final stage is the last recognised name's stage, a request fails
  iff nothing was ever recognised, and repeating a request changes nothing.
- `hierarchy.dfy`: module `Hierarchy`, the component tree as an arena of components that name
  their parent by index.
- `spect_head_system.dfy`: module `SpectHead`, the imperative part. It has the classes
  `SpectHeadSystem`, `DetectorConstruction` (ARF registrations and the optional ARF sensitive
  detector), `OutputManager` (the output module list) and `ArfSensitiveDetector`. The constructor
  and `SetArfStage` update them in place. `SetArfStage`'s contract ties its new state to `Step`.

The detector construction and the output manager are process-wide singletons in GATE. Here they are
objects passed to the constructor, and `GetARFSD()` is looked up through the detector
construction at each request. The fatal `G4Exception` becomes the `ConfigError` outcome. The
`GateMessage` diagnostic, the push to the sensitive detector and the exception are recorded, in
order, as `Effect`s in the system's `log`.

Two consequences of the code are worth stating:

- An unrecognised name is fatal only while the stored stage is still -2. Once a stage has been
  selected, an unrecognised name is accepted and the old stage is pushed again
  (`NeverFailsAfterValidStage`).
- The exception message holds the offending name and the origin
  `GateSPECTHeadSystem::setARFStage`, not the system's object name.

## Model

| member | source | states |
|---|---|---|
| `ArfStage.StageFor` | source/geometry/src/GateSPECTHeadSystem.cc:71-73 | exactly `generateData`, `computeTables`, `useTables` select 0, 1, 2 (both directions); every other name, including case variants and `""`, selects nothing |
| `ArfStage.Resolve` | source/geometry/src/GateSPECTHeadSystem.cc:71-73 | a recognised name sets its stage; any other name keeps the stored stage; the result is -2 iff the stage was -2 and the name is unrecognised; reachable stages stay reachable |
| `ArfStage.InvalidStageMessage` | source/geometry/src/GateSPECTHeadSystem.cc:83 | the exception message contains the offending name and begins with the origin `GateSPECTHeadSystem::setARFStage` |
| `ArfStage.Check` | source/geometry/src/GateSPECTHeadSystem.cc:82-85 | a request fails iff the stored stage after mapping is -2; a failure carries the requested name and a message containing it |
| `ArfStage.Step` | source/geometry/src/GateSPECTHeadSystem.cc:68-86 | one request: a valid name never fails; a request from a valid stage never fails; the detector receives the stored stage first, and only when it exists; the diagnostic follows; a fatal exception is raised iff the request fails and is then the last effect |
| `ArfStage.Run` | source/geometry/src/GateSPECTHeadSystem.cc:68-86 | the outcomes of successive requests: one per request, a failure names its own request, and nothing fails when the history starts from a valid stage |
| `ArfStage.FinalStage` | source/geometry/src/GateSPECTHeadSystem.cc:71-73 | the stored stage after successive requests stays a reachable stage, and is -2 iff it started at -2 and no name was recognised |
| `ArfStage.RunIsSuccessiveSteps` | source/geometry/src/GateSPECTHeadSystem.cc:68-86 | request k of a history has the outcome and leaves the stage of one `Step` from the stage the first k requests left, with or without a detector |
| `ArfStage.FinalStageIsLastSelected` | source/geometry/src/GateSPECTHeadSystem.cc:71-73 | after any history of requests the stored stage is the stage of the last recognised name, or the starting stage if none was recognised |
| `ArfStage.RunFailsIffNeverStaged` | source/geometry/src/GateSPECTHeadSystem.cc:71-85 | the k-th request of a history fails iff the history started at -2 and none of the first k+1 names was recognised; a failure names the k-th request |
| `ArfStage.NeverFailsAfterValidStage` | source/geometry/src/GateSPECTHeadSystem.cc:71-85 | once any request has selected a valid stage, no later request fails, whatever its name |
| `ArfStage.RepeatIsIdempotent` | source/geometry/src/GateSPECTHeadSystem.cc:71-85 | repeating a request any number of times gives the stage and the outcome of the first request every time |
| `Hierarchy.Attach` | source/geometry/src/GateSPECTHeadSystem.cc:37-38 | creating a component under an existing one keeps the tree well formed, leaves existing components unchanged and adds one component with the given name and parent |
| `Hierarchy.Chain` | source/geometry/src/GateSPECTHeadSystem.cc:37-38 | following parents from any component is a finite chain that ends at the base component |
| `Hierarchy.Depth` | source/geometry/src/GateSPECTHeadSystem.cc:52-54 | the hierarchy level of a component is 0 exactly for the base |
| `SpectHead.HeadHierarchy` | source/geometry/src/GateSPECTHeadSystem.cc:37-38 | the head's tree has exactly one `crystal` child of the base and exactly one `pixel` child of the crystal, at levels 1 and 2 |
| `SpectHead.SpectHeadSystem.constructor` | source/geometry/src/GateSPECTHeadSystem.cc:22-55 | the stage starts at -2 and that value is registered under the system's name; the tree is `HeadHierarchy`; exactly the `projection`, `interfile` and `spectGPU` entries are appended in that order with this system and the current mode, earlier entries unchanged; `headID`, `crystalID`, `pixelID` name levels 0, 1, 2 |
| `SpectHead.SpectHeadSystem.SetArfStage` | source/geometry/src/GateSPECTHeadSystem.cc:68-86 | the new stage, the outcome and the appended effects are those of `Step` from the old stage; an installed detector ends with exactly the stored stage; the crystal/pixel tree kept by `Valid` is unchanged |
| `SpectHead.DetectorConstruction.InsertArfSD` | source/geometry/src/GateSPECTHeadSystem.cc:28 | appends the (name, stage) registration and changes nothing else |
| `SpectHead.DetectorConstruction.GetArfSD` | source/geometry/src/GateSPECTHeadSystem.cc:75 | returns the ARF sensitive detector currently installed in the detector construction, or null when none is |
| `SpectHead.OutputManager.AddOutputModule` | source/geometry/src/GateSPECTHeadSystem.cc:41-50 | appends one output entry at the end of the list |
| `SpectHead.ArfSensitiveDetector.SetStage` | source/geometry/src/GateSPECTHeadSystem.cc:77 | overwrites the detector's stage with the given value |

## Left out

- The messenger: its creation, its command setup and its deletion in the destructor (`GateSPECTHeadSystem.cc:31-34`, `:61`). This is user-interface command binding.
- The destructor's ownership bookkeeping (`:59-65`). It has no behaviour beyond releasing memory.
- The internals of `GateToProjectionSet`, `GateToInterfile` and `GateToGPUImageSPECT`. Each is one `OutputEntry` (tag, owner, mode). Their file and image writing is I/O.
- `GateDetectorConstruction` and `GateARFSD` beyond storing registrations and a stage, and all of the Geant4 kernel. These classes are not part of this model.
- `GateVSystem`, the base class, is not part of this model. Its base component is modelled as index 0 named `base`. Its output ID name storage is modelled as an array of three names.
- `GateOutputMgr` is not part of this model. Its digitisation mode is modelled as the enumeration `RuntimeMode | OfflineMode`.
- `G4Exception` terminating the process. A failure is the `ConfigError` outcome plus a `FatalException` effect. `Run` lets a caller continue after a failure, which `GateSPECTHeadSystem::setARFStage` would not reach.
- The text formatting of the `GateMessage` diagnostic. It is recorded as a structured `Diagnostic` effect holding category, level, requested name and stage.
