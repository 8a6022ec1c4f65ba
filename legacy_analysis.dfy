/**
 * The older stand-alone driver, `analysis.py` at the top of the repository:
 * the same `NeuroMLCAP` pipeline in one `run()`, which always creates a new
 * timestamped analysis directory and always makes a new selection of
 * segments to record from; it cannot resume an analysis.
 *
 * As in the package's driver, what is read from files, what the random
 * generator produces, the clock's timestamp, the directories that already
 * exist and the names the library saves the LEMS files under are parameters.
 */
module LegacyAnalysis {
  import opened Common
  import opened Dicts
  import opened Naming
  import opened Colors
  import opened Randomness
  import opened Cells
  import opened Selection
  import opened Simulations
  import opened Manifests
  import opened Outputs
  import opened Effects

  /** `f"{timestamp}_{cell_file}"`, the analysis directory of a run. */
  function AnalysisDirName(timestamp: string, cellFile: string): (d: string)
    ensures |d| == |timestamp| + 1 + |cellFile| && d[|timestamp|] == '_'
    ensures d[..|timestamp|] == timestamp && d[|timestamp| + 1..] == cellFile
  {
    timestamp + "_" + cellFile
  }

  /** Runs of one cell at different timestamps use different directories. */
  lemma AnalysisDirNameInjective(t1: string, t2: string, cellFile: string)
    ensures AnalysisDirName(t1, cellFile) == AnalysisDirName(t2, cellFile) ==> t1 == t2
  {
    if AnalysisDirName(t1, cellFile) == AnalysisDirName(t2, cellFile) {
      assert t1 == AnalysisDirName(t1, cellFile)[..|t1|];
      assert t2 == AnalysisDirName(t2, cellFile)[..|t2|];
    }
  }

  /** The new selection draws its sample and no sampled group is empty, so `run()` goes on to the blocks. */
  predicate SelectionCompletes(groups: seq<SegmentGroup>, k: int, picks: seq<nat>)
    requires 0 <= k <= |groups| ==> IsSampleChoice(picks, |groups|, k)
  {
    var s := SampleOf(groups, k, picks);
    s.Ok? && FirstEmptyGroup(s.value) == |s.value|
  }

  class NeuroMLCAP {
    var cfgFileName: Option<string>
    var cfg: Option<Config>
    var cellFile: string
    var analysesDir: Option<string>
    /** `self.cell_obj`, the first cell of the model document. */
    var cell: Option<Cell>
    var recorder: Dict<string, ManifestEntry>
    var unbranchedSegmentGroups: Option<seq<SegmentGroup>>
    var recordedSegments: Dict<string, Marker>
    var simCounter: nat
    /** The ids of the segments `random.sample` picked as Poisson inputs. */
    var poissonInputSegments: seq<nat>
    var inputSegmentMarks: Dict<nat, Marker>
    /** The JSON files written so far, oldest first. */
    var saved: seq<JsonFile>
    /** The simulations generated so far, oldest first. */
    var simulations: seq<Simulation>
    /** The process-wide `random` module. */
    const rng: RandomSource

    constructor (rng: RandomSource)
      ensures this.rng == rng && cfgFileName == None && cfg == None
      ensures cell == None && analysesDir == None && unbranchedSegmentGroups == None
      ensures recorder == Empty() && recordedSegments == Empty()
      ensures saved == [] && simulations == []
    {
      this.rng := rng;
      cfgFileName := None;
      cfg := None;
      cellFile := "";
      analysesDir := None;
      cell := None;
      recorder := Empty();
      unbranchedSegmentGroups := None;
      recordedSegments := Empty();
      simCounter := 0;
      poissonInputSegments := [];
      inputSegmentMarks := Empty();
      saved := [];
      simulations := [];
    }

    /** What a generated simulation is built from. */
    function Context(): SimContext
      reads this`cfg, this`cell, this`cellFile, this`recordedSegments
      requires cfg.Some? && cell.Some?
    {
      SimContext(cellFile, cell.value.id, recordedSegments.keys, cfg.value.extraLemsDefinitionFiles)
    }

    /** `read_config(config_file_name)`, the file holding `config`: keeps it and seeds the generator with its seed. */
    method ReadConfig(configFileName: string, config: Config)
      modifies this`cfg, this`cfgFileName, rng
      ensures cfg == Some(config) && cfgFileName == Some(configFileName)
      ensures rng.history == old(rng.history) + [Seeded(config.seed)]
    {
      cfg := Some(config);
      cfgFileName := Some(configFileName);
      // set the random seed before it is used anywhere
      rng.Seed(config.seed);
    }

    /**
     * `__create_analysis_dir()` at the clock reading `timestamp`, `existing`
     * being the directories already present: the name is kept whether or not
     * `os.mkdir` then raises FileExistsError.
     */
    method CreateAnalysisDir(timestamp: string, existing: set<string>) returns (r: Outcome)
      requires cfg.Some?
      modifies this`analysesDir
      ensures analysesDir == Some(AnalysisDirName(timestamp, cfg.value.cellFile))
      ensures r == if analysesDir.value in existing then Fail(FileExists(analysesDir.value)) else Pass
    {
      analysesDir := Some(AnalysisDirName(timestamp, cfg.value.cellFile));
      if analysesDir.value in existing {
        return Fail(FileExists(analysesDir.value));
      }
      r := Pass;
    }

    /**
     * `run()` after `read_config`: a new analysis directory, the first cell of
     * the document `cells`, a new selection (the generator choosing
     * `groupPicks`), then the fi block when `fi_curves` is set and the Poisson
     * block when `poisson_inputs` is set. Each step that raises ends the run.
     */
    method Run(timestamp: string, existing: set<string>, cells: seq<Cell>, groupPicks: seq<nat>,
               sweep: seq<real>, fiFiles: seq<string>, inputPicks: seq<nat>, seeds: seq<int>, poissonFiles: seq<string>)
      returns (r: Outcome)
      requires cfg.Some?
      requires |cells| > 0 ==> var k := cfg.value.numSegsRecord; var n := |cells[0].unbranchedGroups|;
                               0 <= k <= n ==> IsSampleChoice(groupPicks, n, k)
      requires |cells| > 0 ==> InputChoice(cfg.value, cells[0], inputPicks)
      requires |fiFiles| == |sweep| && IterationChoice(cfg.value, seeds, poissonFiles)
      modifies this`analysesDir, this`cellFile, this`cell, this`recorder, this`unbranchedSegmentGroups, this`recordedSegments
      modifies this`simCounter, this`poissonInputSegments, this`inputSegmentMarks, this`saved, this`simulations, rng
      ensures cfg == old(cfg) && analysesDir == Some(AnalysisDirName(timestamp, cfg.value.cellFile))
      ensures analysesDir.value in existing ==>
                r == Fail(FileExists(analysesDir.value)) && cellFile == old(cellFile) && cell == old(cell) &&
                unbranchedSegmentGroups == old(unbranchedSegmentGroups) && recordedSegments == old(recordedSegments) &&
                saved == old(saved) && simulations == old(simulations) && rng.history == old(rng.history)
      ensures analysesDir.value !in existing && |cells| == 0 ==>
                r == Fail(NoCellInDocument) && cellFile == cfg.value.cellFile && cell == old(cell) &&
                unbranchedSegmentGroups == old(unbranchedSegmentGroups) && recordedSegments == old(recordedSegments) &&
                saved == old(saved) && simulations == old(simulations) && rng.history == old(rng.history)
      ensures analysesDir.value !in existing && |cells| > 0 ==>
                var groups := cells[0].unbranchedGroups;
                var k := cfg.value.numSegsRecord;
                var s := SampleOf(groups, k, groupPicks);
                cellFile == cfg.value.cellFile && cell == Some(cells[0]) && unbranchedSegmentGroups == Some(groups) &&
                (s.Err? ==> r == Fail(SampleLargerThanPopulation) && recordedSegments == old(recordedSegments) &&
                            saved == old(saved) && simulations == old(simulations) && rng.history == old(rng.history)) &&
                (s.Ok? ==> recordedSegments == NewTable(old(recordedSegments), s.value, cfg.value.extraSegmentsRecord, cfg.value.segmentMarkerSize)) &&
                (s.Ok? && FirstEmptyGroup(s.value) < |s.value| ==>
                   r == Fail(SegmentIndexOutOfRange) && saved == old(saved) && simulations == old(simulations) &&
                   rng.history == old(rng.history) + [Sampled(|groups|, k)])
      ensures var fields := BlockFields(recorder, simCounter, poissonInputSegments, inputSegmentMarks);
              var before := old(BlockFields(recorder, simCounter, poissonInputSegments, inputSegmentMarks));
              if analysesDir.value !in existing && |cells| > 0 &&
                 SelectionCompletes(cells[0].unbranchedGroups, cfg.value.numSegsRecord, groupPicks)
              then fields == AfterBlocks(cfg.value, cells[0], inputPicks, sweep, fiFiles, poissonFiles, before)
              else fields == before
      ensures analysesDir.value !in existing && |cells| > 0 &&
              SelectionCompletes(cells[0].unbranchedGroups, cfg.value.numSegsRecord, groupPicks) ==>
                var p := SampleOf(cells[0].segments, cfg.value.numInputs, inputPicks);
                r == (if cfg.value.poissonInputs && p.Err? then Fail(SampleLargerThanPopulation) else Pass) &&
                saved == old(saved) + [RecordedSegmentsJson(recordedSegments)] + FiSaved(cfg.value, sweep, fiFiles) +
                         PoissonSaved(cfg.value, cells[0], inputPicks, poissonFiles) &&
                simulations == old(simulations) + FiSims(cfg.value, Context(), sweep, fiFiles) +
                               PoissonRunSims(cfg.value, cells[0], Context(), inputPicks, seeds, poissonFiles) &&
                rng.history == old(rng.history) + [Sampled(|cells[0].unbranchedGroups|, cfg.value.numSegsRecord)] +
                               PoissonDraws(cfg.value, cells[0], inputPicks)
    {
      ghost var before := BlockFields(recorder, simCounter, poissonInputSegments, inputSegmentMarks);
      r := Setup(timestamp, existing, cells, groupPicks);
      if r.Fail? {
        return;
      }
      assert BlockFields(recorder, simCounter, poissonInputSegments, inputSegmentMarks) == before;
      r := SimulationBlocks(sweep, fiFiles, inputPicks, seeds, poissonFiles);
    }

    /** The first part of `run()`: the analysis directory, the cell and the new selection. */
    method Setup(timestamp: string, existing: set<string>, cells: seq<Cell>, groupPicks: seq<nat>) returns (r: Outcome)
      requires cfg.Some?
      requires |cells| > 0 ==> var k := cfg.value.numSegsRecord; var n := |cells[0].unbranchedGroups|;
                               0 <= k <= n ==> IsSampleChoice(groupPicks, n, k)
      modifies this`analysesDir, this`cellFile, this`cell, this`unbranchedSegmentGroups, this`recordedSegments, this`saved, rng
      ensures analysesDir == Some(AnalysisDirName(timestamp, cfg.value.cellFile))
      ensures analysesDir.value in existing ==>
                r == Fail(FileExists(analysesDir.value)) && cellFile == old(cellFile) && cell == old(cell) &&
                unbranchedSegmentGroups == old(unbranchedSegmentGroups) && recordedSegments == old(recordedSegments) &&
                saved == old(saved) && rng.history == old(rng.history)
      ensures analysesDir.value !in existing && |cells| == 0 ==>
                r == Fail(NoCellInDocument) && cellFile == cfg.value.cellFile && cell == old(cell) &&
                unbranchedSegmentGroups == old(unbranchedSegmentGroups) && recordedSegments == old(recordedSegments) &&
                saved == old(saved) && rng.history == old(rng.history)
      ensures analysesDir.value !in existing && |cells| > 0 ==>
                var groups := cells[0].unbranchedGroups;
                var k := cfg.value.numSegsRecord;
                var s := SampleOf(groups, k, groupPicks);
                cellFile == cfg.value.cellFile && cell == Some(cells[0]) && unbranchedSegmentGroups == Some(groups) &&
                rng.history == old(rng.history) + (if s.Ok? then [Sampled(|groups|, k)] else []) &&
                (s.Err? ==> r == Fail(SampleLargerThanPopulation) && recordedSegments == old(recordedSegments) && saved == old(saved)) &&
                (s.Ok? ==> recordedSegments == NewTable(old(recordedSegments), s.value, cfg.value.extraSegmentsRecord, cfg.value.segmentMarkerSize) &&
                           r == (if FirstEmptyGroup(s.value) < |s.value| then Fail(SegmentIndexOutOfRange) else Pass) &&
                           saved == old(saved) + (if r.Pass? then [RecordedSegmentsJson(recordedSegments)] else []))
    {
      r := CreateAnalysisDir(timestamp, existing);
      if r.Fail? {
        return;
      }
      cellFile := cfg.value.cellFile;
      if |cells| == 0 {
        return Fail(NoCellInDocument);
      }
      cell := Some(cells[0]);
      r := GetSegmentsToRecord(groupPicks);
    }

    /** The second part of `run()`: the fi block when `fi_curves` is set, then the Poisson block when `poisson_inputs` is set. */
    method SimulationBlocks(sweep: seq<real>, fiFiles: seq<string>, inputPicks: seq<nat>, seeds: seq<int>, poissonFiles: seq<string>)
      returns (r: Outcome)
      requires cfg.Some? && cell.Some?
      requires |fiFiles| == |sweep|
      requires InputChoice(cfg.value, cell.value, inputPicks)
      requires IterationChoice(cfg.value, seeds, poissonFiles)
      modifies this`recorder, this`simCounter, this`poissonInputSegments, this`inputSegmentMarks, this`simulations, this`saved, rng
      ensures var s := SampleOf(cell.value.segments, cfg.value.numInputs, inputPicks);
              r == if cfg.value.poissonInputs && s.Err? then Fail(SampleLargerThanPopulation) else Pass
      ensures saved == old(saved) + FiSaved(cfg.value, sweep, fiFiles) + PoissonSaved(cfg.value, cell.value, inputPicks, poissonFiles)
      ensures simulations == old(simulations) + FiSims(cfg.value, Context(), sweep, fiFiles) +
                             PoissonRunSims(cfg.value, cell.value, Context(), inputPicks, seeds, poissonFiles)
      ensures rng.history == old(rng.history) + PoissonDraws(cfg.value, cell.value, inputPicks)
      ensures BlockFields(recorder, simCounter, poissonInputSegments, inputSegmentMarks) ==
              AfterBlocks(cfg.value, cell.value, inputPicks, sweep, fiFiles, poissonFiles,
                          old(BlockFields(recorder, simCounter, poissonInputSegments, inputSegmentMarks)))
    {
      if cfg.value.fiCurves {
        FiCurveSims(sweep, fiFiles);
      }
      r := Pass;
      if cfg.value.poissonInputs {
        r := PoissonInputSims(inputPicks, seeds, poissonFiles);
      }
    }

    /**
     * `__get_segments_to_record()`: samples `num_segs_record` unbranched
     * groups (the generator choosing `groupPicks`), records the soma, each
     * sampled group's midpoint and each extra segment with the next colour of
     * a fresh ramp, and writes the table to `segments_recorded.json`.
     */
    method GetSegmentsToRecord(groupPicks: seq<nat>) returns (r: Outcome)
      requires cfg.Some? && cell.Some?
      requires var k := cfg.value.numSegsRecord; var n := |cell.value.unbranchedGroups|;
               0 <= k <= n ==> IsSampleChoice(groupPicks, n, k)
      modifies this`recordedSegments, this`unbranchedSegmentGroups, this`saved, rng
      ensures var groups := cell.value.unbranchedGroups;
              var k := cfg.value.numSegsRecord;
              var s := SampleOf(groups, k, groupPicks);
              unbranchedSegmentGroups == Some(groups) &&
              rng.history == old(rng.history) + (if s.Ok? then [Sampled(|groups|, k)] else []) &&
              (s.Err? ==> r == Fail(SampleLargerThanPopulation) && recordedSegments == old(recordedSegments) && saved == old(saved)) &&
              (s.Ok? ==> recordedSegments == NewTable(old(recordedSegments), s.value, cfg.value.extraSegmentsRecord, cfg.value.segmentMarkerSize) &&
                         r == (if FirstEmptyGroup(s.value) < |s.value| then Fail(SegmentIndexOutOfRange) else Pass) &&
                         saved == old(saved) + (if r.Pass? then [RecordedSegmentsJson(recordedSegments)] else []))
    {
      var groups := cell.value.unbranchedGroups;
      unbranchedSegmentGroups := Some(groups);
      // pick N
      var s := rng.Sample(groups, cfg.value.numSegsRecord, groupPicks);
      if s.Err? {
        return Fail(s.error);
      }
      var table, out := RecordNewSelection(recordedSegments, s.value, cfg.value.extraSegmentsRecord, cfg.value.segmentMarkerSize);
      recordedSegments := table;
      if out.Fail? {
        return out;
      }
      saved := saved + [RecordedSegmentsJson(recordedSegments)];
      r := Pass;
    }

    /** The fi-curve block of `run()`. */
    method FiCurveSims(sweep: seq<real>, files: seq<string>)
      requires cfg.Some? && cell.Some? && |files| == |sweep|
      modifies this`recorder, this`simCounter, this`simulations, this`saved
      ensures recorder == FiManifest(cfg.value.currents, sweep, files)
      ensures simCounter == if |cfg.value.currents| == 0 then |sweep| else old(simCounter)
      ensures simulations == old(simulations) + (if |cfg.value.currents| == 0 then StepCurrentSims(Context(), sweep, files) else [])
      ensures saved == old(saved) + [FiSimsJson(recorder)]
    {
      recorder := Empty();
      if |cfg.value.currents| == 0 {
        FiSweep(sweep, files);
      }
      saved := saved + [FiSimsJson(recorder)];
    }

    /**
     * The loop over the sweep: `sim_counter` starts at 0 and counts the
     * simulations, each entered in the manifest under its id.
     */
    method FiSweep(sweep: seq<real>, files: seq<string>)
      requires cfg.Some? && cell.Some? && |files| == |sweep|
      modifies this`recorder, this`simCounter, this`simulations
      ensures recorder == PutAll(old(recorder), FiAssignments(sweep, files)) && simCounter == |sweep|
      ensures simulations == old(simulations) + StepCurrentSims(Context(), sweep, files)
    {
      simCounter := 0;
      var k := 0;
      assert sweep[..0] == [] && files[..0] == [];
      while k < |sweep|
        invariant 0 <= k <= |sweep| && simCounter == k
        invariant recorder == PutAll(old(recorder), FiAssignments(sweep[..k], files[..k]))
        invariant simulations == old(simulations) + StepCurrentSims(Context(), sweep[..k], files[..k])
      {
        var simid, lemsFile := GenerateStepCurrentSim(sweep[k], 0, files[k]);
        FiAssignmentsSnoc(sweep, files, k);
        PutAllSnoc(old(recorder), FiAssignments(sweep[..k], files[..k]), simid, StepCurrentEntry(lemsFile, "0", sweep[k]));
        StepCurrentSimsSnoc(Context(), sweep, files, k);
        recorder := recorder.Put(simid, StepCurrentEntry(lemsFile, "0", sweep[k]));
        simCounter := simCounter + 1;
        k := k + 1;
      }
      assert sweep[..k] == sweep && files[..k] == files;
    }

    /** The Poisson block of `run()`. */
    method PoissonInputSims(picks: seq<nat>, seeds: seq<int>, files: seq<string>) returns (r: Outcome)
      requires cfg.Some? && cell.Some? && cfg.value.poissonInputs
      requires InputChoice(cfg.value, cell.value, picks)
      requires IterationChoice(cfg.value, seeds, files)
      modifies this`recorder, this`simCounter, this`poissonInputSegments, this`inputSegmentMarks, this`simulations, this`saved, rng
      ensures simCounter == 0
      ensures var s := SampleOf(cell.value.segments, cfg.value.numInputs, picks);
              (s.Err? ==> r == Fail(SampleLargerThanPopulation) && recorder == Empty() &&
                          poissonInputSegments == old(poissonInputSegments) && inputSegmentMarks == old(inputSegmentMarks)) &&
              (s.Ok? ==> r == Pass && poissonInputSegments == s.value &&
                         inputSegmentMarks == PutAll(Empty(), Marks(s.value, cfg.value.segmentMarkerSize, cfg.value.numInputs)) &&
                         recorder == PoissonManifest(files))
      ensures saved == old(saved) + PoissonSaved(cfg.value, cell.value, picks, files)
      ensures simulations == old(simulations) + PoissonRunSims(cfg.value, cell.value, Context(), picks, seeds, files)
      ensures rng.history == old(rng.history) + PoissonDraws(cfg.value, cell.value, picks)
    {
      ghost var config, c, ctx := cfg.value, cell.value, Context();
      simCounter := 0;
      recorder := Empty();
      // the same input segments for every simulation
      var s := rng.Sample(cell.value.segments, cfg.value.numInputs, picks);
      if s.Err? {
        return Fail(s.error);
      }
      PoissonBlockOk(config, c, ctx, picks, seeds, files);
      PoissonBlock(s.value, seeds, files);
      r := Pass;
    }

    /** The Poisson block once the input segments are sampled: mark them, run the loop, write both files. */
    method PoissonBlock(inputs: seq<nat>, seeds: seq<int>, files: seq<string>)
      requires cfg.Some? && cell.Some? && simCounter == 0 && |inputs| == cfg.value.numInputs
      requires IterationChoice(cfg.value, seeds, files)
      modifies this`recorder, this`poissonInputSegments, this`inputSegmentMarks, this`simulations, this`saved, rng
      ensures poissonInputSegments == inputs
      ensures inputSegmentMarks == PutAll(Empty(), Marks(inputs, cfg.value.segmentMarkerSize, cfg.value.numInputs))
      ensures recorder == PoissonManifest(files)
      ensures saved == old(saved) + [InputMarksJson(inputSegmentMarks), PoissonSimsJson(recorder)]
      ensures simulations == old(simulations) + PoissonSims(Context(), 0, seeds, inputs, files)
      ensures rng.history == old(rng.history) + IntDraws(|seeds|, 0, 99999)
    {
      poissonInputSegments := inputs;
      inputSegmentMarks := MarkInputs(poissonInputSegments, cfg.value.segmentMarkerSize, cfg.value.numInputs);

      // one simulation per iteration, each with its own seed
      recorder := Empty();
      PoissonIterations(seeds, files);
      saved := saved + [InputMarksJson(inputSegmentMarks), PoissonSimsJson(recorder)];
    }

    /**
     * The loop `for i in range(0, num_iterations)`: each iteration generates a
     * simulation with the current `sim_counter` and enters it in the manifest.
     */
    method PoissonIterations(seeds: seq<int>, files: seq<string>)
      requires cfg.Some? && cell.Some?
      requires IterationChoice(cfg.value, seeds, files)
      modifies this`recorder, this`simulations, rng
      ensures recorder == PutAll(old(recorder), PoissonAssignments(simCounter, files))
      ensures simulations == old(simulations) + PoissonSims(Context(), simCounter, seeds, poissonInputSegments, files)
      ensures rng.history == old(rng.history) + IntDraws(|seeds|, 0, 99999)
    {
      var i := 0;
      assert seeds[..0] == [] && files[..0] == [];
      while i < cfg.value.numIterations
        invariant 0 <= i <= |files|
        invariant recorder == PutAll(old(recorder), PoissonAssignments(simCounter, files[..i]))
        invariant simulations == old(simulations) + PoissonSims(Context(), simCounter, seeds[..i], poissonInputSegments, files[..i])
        invariant rng.history == old(rng.history) + IntDraws(i, 0, 99999)
      {
        var simid, lemsFile := GeneratePoissonInputSim(seeds[i], files[i]);
        PoissonAssignmentsSnoc(simCounter, files, i);
        PutAllSnoc(old(recorder), PoissonAssignments(simCounter, files[..i]), simid, PoissonEntry(lemsFile));
        PoissonSimsSnoc(Context(), simCounter, seeds, poissonInputSegments, files, i);
        assert IntDraws(i + 1, 0, 99999) == IntDraws(i, 0, 99999) + [IntDrawn(0, 99999)];
        recorder := recorder.Put(simid, PoissonEntry(lemsFile));
        i := i + 1;
      }
      assert seeds[..i] == seeds && files[..i] == files;
    }

    /** `generate_step_current_sim(current_nA, segment_id)`, the library saving the LEMS file as `lemsFile`. */
    method GenerateStepCurrentSim(current: real, segmentId: int, lemsFile: string) returns (simId: string, file: string)
      requires cfg.Some? && cell.Some?
      modifies this`simulations
      ensures simId == StepCurrentSimId(simCounter) && file == lemsFile
      ensures simulations == old(simulations) + [StepCurrentSim(Context(), simCounter, current, segmentId, lemsFile)]
    {
      simId := StepCurrentSimId(simCounter);
      var pop := PopulationId(cell.value.id);
      var stimulus := PulseInput(PulseGeneratorId(simCounter), current, CellTarget(pop), segmentId);
      var netFile := NetworkFileName(simId);
      var includes := [cellFile, netFile] + cfg.value.extraLemsDefinitionFiles;
      var columns := OutputColumns(recordedSegments.keys, pop, cell.value.id);
      simulations := simulations + [Simulation(simId, None, cellFile, pop, stimulus, netFile, includes,
                                               OutputFileName(simId), columns, lemsFile)];
      file := lemsFile;
    }

    /**
     * `generate_poisson_input_sim()`, the generator drawing `seed` for
     * `random.randint(0, 99999)` and the library saving the LEMS file as `lemsFile`.
     */
    method GeneratePoissonInputSim(seed: int, lemsFile: string) returns (simId: string, file: string)
      requires cfg.Some? && cell.Some? && 0 <= seed <= 99999
      modifies this`simulations, rng
      ensures simId == PoissonSimId(simCounter) && file == lemsFile
      ensures rng.history == old(rng.history) + [IntDrawn(0, 99999)]
      ensures simulations == old(simulations) + [PoissonInputSim(Context(), simCounter, seed, poissonInputSegments, lemsFile)]
    {
      simId := PoissonSimId(simCounter);
      var simulationSeed := rng.RandInt(0, 99999, seed);
      var pop := PopulationId(cell.value.id);
      var ctr := 0;
      var generator := PoissonGeneratorId(simCounter, ctr);
      var connections := PoissonConnections(poissonInputSegments, pop, cell.value.id);
      var stimulus := PoissonInputs(generator, |poissonInputSegments|, connections);
      var netFile := NetworkFileName(simId);
      var includes := [cellFile, netFile] + cfg.value.extraLemsDefinitionFiles;
      var columns := OutputColumns(recordedSegments.keys, pop, cell.value.id);
      simulations := simulations + [Simulation(simId, Some(simulationSeed), cellFile, pop, stimulus, netFile, includes,
                                               OutputFileName(simId), columns, lemsFile)];
      file := lemsFile;
    }
  }
}
