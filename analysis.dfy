/**
 * The pipeline driver of the package, `neuromlcap/analysis/analysis.py`: a
 * `NeuroMLCAP` object that reads its configuration, prepares (or resumes) an
 * analysis directory with the table of segments to record from, and generates
 * the fi-curve and Poisson-input simulations with their manifests.
 *
 * What the pipeline reads from files (the configuration, the cell document,
 * `segments_recorded.json`), what the random generator produces and what the
 * library names the saved LEMS files are parameters of the methods.
 */
module Analysis {
  import opened Common
  import opened Dicts
  import opened Naming
  import opened Colors
  import opened Randomness
  import opened Cells
  import opened Selection
  import opened Simulations
  import opened Manifests
  import opened Outputs
  import opened Effects

  /** The file a resumed analysis loads its selection table from. */
  const RecordedSegmentsFile := "segments_recorded.json"

  class NeuroMLCAP {
    const cfgFileName: string
    var cfg: Option<Config>
    var cellFile: string
    var analysesDir: Option<string>
    /** `self.cell_obj`, the first cell of the model document. */
    var cell: Option<Cell>
    var recorder: Dict<string, ManifestEntry>
    var unbranchedSegmentGroups: Option<seq<SegmentGroup>>
    var recordedSegments: Dict<string, Marker>
    var simCounter: nat
    /** The ids of the segments `random.sample` picked as Poisson inputs. */
    var poissonInputSegments: seq<nat>
    var inputSegmentMarks: Dict<nat, Marker>
    /** The JSON files written so far, oldest first. */
    var saved: seq<JsonFile>
    /** The simulations generated so far, oldest first. */
    var simulations: seq<Simulation>
    /** The process-wide `random` module. */
    const rng: RandomSource

    constructor (configFileName: string, rng: RandomSource)
      ensures cfgFileName == configFileName && this.rng == rng
      ensures cfg == None && cell == None && analysesDir == None && unbranchedSegmentGroups == None
      ensures recorder == Empty() && recordedSegments == Empty()
      ensures saved == [] && simulations == []
    {
      cfgFileName := configFileName;
      this.rng := rng;
      cfg := None;
      cellFile := "";
      analysesDir := None;
      cell := None;
      recorder := Empty();
      unbranchedSegmentGroups := None;
      recordedSegments := Empty();
      simCounter := 0;
      poissonInputSegments := [];
      inputSegmentMarks := Empty();
      saved := [];
      simulations := [];
    }

    /** What a generated simulation is built from. */
    function Context(): SimContext
      reads this`cfg, this`cell, this`cellFile, this`recordedSegments
      requires cfg.Some? && cell.Some?
    {
      SimContext(cellFile, cell.value.id, recordedSegments.keys, cfg.value.extraLemsDefinitionFiles)
    }

    /**
     * `prepare(folder)` with the configuration `config` read from `cfgFileName`,
     * the model document holding `cells`, and `stored` the contents of
     * `segments_recorded.json` in the analysis folder (None when it is missing).
     *
     * Without a folder the call `create_analysis_dir(self.cell_file, False)`
     * passes two arguments to a function of one and raises TypeError before
     * anything is created. With a folder the analysis resumes: no sampling
     * happens, and the selection table is the stored one.
     */
    method Prepare(config: Config, folder: Option<string>, cells: seq<Cell>, stored: Option<Dict<string, Marker>>)
      returns (r: Result<string>)
      modifies this`cfg, this`cellFile, this`analysesDir, this`cell, this`recordedSegments, this`unbranchedSegmentGroups, this`saved, rng
      ensures cfg == Some(config) && cellFile == config.cellFile
      ensures rng.history == old(rng.history) + [Seeded(config.seed)]
      ensures saved == old(saved) && unbranchedSegmentGroups == old(unbranchedSegmentGroups)
      ensures folder.None? ==> r == Err(ArgumentMismatch) &&
                               analysesDir == old(analysesDir) && cell == old(cell) && recordedSegments == old(recordedSegments)
      ensures folder.Some? ==> analysesDir == folder && cell == (if |cells| == 0 then old(cell) else Some(cells[0]))
      ensures folder.Some? ==> r == (if |cells| == 0 then Err(NoCellInDocument)
                                     else if stored.None? then Err(FileNotFound(RecordedSegmentsFile))
                                     else Ok(folder.value))
      ensures folder.Some? ==> recordedSegments == (if |cells| > 0 && stored.Some? then stored.value else old(recordedSegments))
    {
      cfg := Some(config);
      cellFile := config.cellFile;
      // set the random seed before it is used anywhere
      rng.Seed(config.seed);
      if folder.None? {
        return Err(ArgumentMismatch);
      }
      analysesDir := folder;
      if |cells| == 0 {
        return Err(NoCellInDocument);
      }
      cell := Some(cells[0]);
      var out := GetSegmentsToRecord(false, stored, []);
      if out.Fail? {
        return Err(out.error);
      }
      r := Ok(folder.value);
    }

    /**
     * `prepare(None)` as it was evidently meant to run: `create_analysis_dir`
     * makes the new directory `{timestamp}_{cell_file}` (FileExistsError when it
     * is among the `existing` ones, leaving `analyses_dir` unset), the cell folder
     * is copied into it, it becomes the working directory, and a new selection
     * table is recorded.
     */
    method PrepareIntended(config: Config, timestamp: string, existing: set<string>, cells: seq<Cell>, groupPicks: seq<nat>)
      returns (r: Result<string>)
      requires |cells| > 0 ==> var k := config.numSegsRecord; var n := |cells[0].unbranchedGroups|;
                               0 <= k <= n ==> IsSampleChoice(groupPicks, n, k)
      modifies this`cfg, this`cellFile, this`analysesDir, this`cell, this`recordedSegments, this`unbranchedSegmentGroups, this`saved, rng
      ensures cfg == Some(config) && cellFile == config.cellFile
      ensures var dir := timestamp + "_" + config.cellFile;
              dir in existing ==> r == Err(FileExists(dir)) && rng.history == old(rng.history) + [Seeded(config.seed)] &&
                                  analysesDir == old(analysesDir) && cell == old(cell) && recordedSegments == old(recordedSegments) &&
                                  unbranchedSegmentGroups == old(unbranchedSegmentGroups) && saved == old(saved)
      ensures var dir := timestamp + "_" + config.cellFile;
              dir !in existing ==> analysesDir == Some(dir)
      ensures var dir := timestamp + "_" + config.cellFile;
              dir !in existing && |cells| == 0 ==>
                r == Err(NoCellInDocument) && rng.history == old(rng.history) + [Seeded(config.seed)] &&
                cell == old(cell) && recordedSegments == old(recordedSegments) &&
                unbranchedSegmentGroups == old(unbranchedSegmentGroups) && saved == old(saved)
      ensures var dir := timestamp + "_" + config.cellFile;
              dir !in existing && |cells| > 0 ==>
                var s := SampleOf(cells[0].unbranchedGroups, config.numSegsRecord, groupPicks);
                cell == Some(cells[0]) && unbranchedSegmentGroups == Some(cells[0].unbranchedGroups) &&
                rng.history == old(rng.history) + [Seeded(config.seed)] + (if s.Ok? then [Sampled(|cells[0].unbranchedGroups|, config.numSegsRecord)] else []) &&
                saved == old(saved) + (if r.Ok? then [RecordedSegmentsJson(recordedSegments)] else []) &&
                (s.Err? ==> r == Err(SampleLargerThanPopulation) && recordedSegments == old(recordedSegments)) &&
                (s.Ok? ==> recordedSegments == NewTable(old(recordedSegments), s.value, config.extraSegmentsRecord, config.segmentMarkerSize) &&
                           r == if FirstEmptyGroup(s.value) < |s.value| then Err(SegmentIndexOutOfRange) else Ok(dir))
    {
      cfg := Some(config);
      cellFile := config.cellFile;
      rng.Seed(config.seed);
      var dir := timestamp + "_" + cellFile;
      // os.mkdir in create_analysis_dir
      if dir in existing {
        return Err(FileExists(dir));
      }
      analysesDir := Some(dir);
      if |cells| == 0 {
        return Err(NoCellInDocument);
      }
      cell := Some(cells[0]);
      var out := GetSegmentsToRecord(true, None, groupPicks);
      if out.Fail? {
        return Err(out.error);
      }
      r := Ok(dir);
    }

    /**
     * `__get_segments_to_record(new)`. Resuming loads the stored table and draws
     * nothing. A new selection samples `num_segs_record` unbranched groups (the
     * generator choosing `groupPicks`), records the soma, each sampled group's
     * midpoint and each extra segment with the next colour of a fresh ramp, and
     * writes the table to `segments_recorded.json`.
     */
    method GetSegmentsToRecord(isNew: bool, stored: Option<Dict<string, Marker>>, groupPicks: seq<nat>) returns (r: Outcome)
      requires isNew ==> cfg.Some? && cell.Some?
      requires isNew ==> var k := cfg.value.numSegsRecord; var n := |cell.value.unbranchedGroups|;
                         0 <= k <= n ==> IsSampleChoice(groupPicks, n, k)
      modifies this`recordedSegments, this`unbranchedSegmentGroups, this`saved, rng
      ensures !isNew ==> rng.history == old(rng.history) && saved == old(saved) &&
                         unbranchedSegmentGroups == old(unbranchedSegmentGroups)
      ensures !isNew ==> r == (if stored.None? then Fail(FileNotFound(RecordedSegmentsFile)) else Pass) &&
                         recordedSegments == (if stored.None? then old(recordedSegments) else stored.value)
      ensures isNew ==>
                var groups := cell.value.unbranchedGroups;
                var k := cfg.value.numSegsRecord;
                var s := SampleOf(groups, k, groupPicks);
                unbranchedSegmentGroups == Some(groups) &&
                rng.history == old(rng.history) + (if s.Ok? then [Sampled(|groups|, k)] else []) &&
                (s.Err? ==> r == Fail(SampleLargerThanPopulation) && recordedSegments == old(recordedSegments) && saved == old(saved)) &&
                (s.Ok? ==> recordedSegments == NewTable(old(recordedSegments), s.value, cfg.value.extraSegmentsRecord, cfg.value.segmentMarkerSize) &&
                           r == (if FirstEmptyGroup(s.value) < |s.value| then Fail(SegmentIndexOutOfRange) else Pass) &&
                           saved == old(saved) + (if r.Pass? then [RecordedSegmentsJson(recordedSegments)] else []))
    {
      if !isNew {
        if stored.None? {
          return Fail(FileNotFound(RecordedSegmentsFile));
        }
        recordedSegments := stored.value;
        return Pass;
      }
      var groups := cell.value.unbranchedGroups;
      unbranchedSegmentGroups := Some(groups);
      // pick N
      var s := rng.Sample(groups, cfg.value.numSegsRecord, groupPicks);
      if s.Err? {
        return Fail(s.error);
      }
      var table, out := RecordNewSelection(recordedSegments, s.value, cfg.value.extraSegmentsRecord, cfg.value.segmentMarkerSize);
      recordedSegments := table;
      if out.Fail? {
        return out;
      }
      saved := saved + [RecordedSegmentsJson(recordedSegments)];
      r := Pass;
    }

    /**
     * `create_sim_analyses()`: the fi-curve block when `fi_curves` is set, then
     * the Poisson block when `poisson_inputs` is set. `sweep` is the linspace of
     * the configured current range, `fiFiles` and `poissonFiles` the names the
     * library saves the LEMS files under, `inputPicks` and `seeds` what the
     * generator chooses.
     */
    method CreateSimAnalyses(sweep: seq<real>, fiFiles: seq<string>, inputPicks: seq<nat>, seeds: seq<int>, poissonFiles: seq<string>)
      returns (r: Outcome)
      requires cfg.Some? && cell.Some?
      requires |fiFiles| == |sweep|
      requires InputChoice(cfg.value, cell.value, inputPicks)
      requires IterationChoice(cfg.value, seeds, poissonFiles)
      modifies this`recorder, this`simCounter, this`poissonInputSegments, this`inputSegmentMarks, this`simulations, this`saved, rng
      ensures var s := SampleOf(cell.value.segments, cfg.value.numInputs, inputPicks);
              r == if cfg.value.poissonInputs && s.Err? then Fail(SampleLargerThanPopulation) else Pass
      ensures saved == old(saved) + FiSaved(cfg.value, sweep, fiFiles) + PoissonSaved(cfg.value, cell.value, inputPicks, poissonFiles)
      ensures simulations == old(simulations) + FiSims(cfg.value, Context(), sweep, fiFiles) +
                             PoissonRunSims(cfg.value, cell.value, Context(), inputPicks, seeds, poissonFiles)
      ensures rng.history == old(rng.history) + PoissonDraws(cfg.value, cell.value, inputPicks)
      ensures BlockFields(recorder, simCounter, poissonInputSegments, inputSegmentMarks) ==
              AfterBlocks(cfg.value, cell.value, inputPicks, sweep, fiFiles, poissonFiles,
                          old(BlockFields(recorder, simCounter, poissonInputSegments, inputSegmentMarks)))
    {
      if cfg.value.fiCurves {
        FiCurveSims(sweep, fiFiles);
      }
      r := Pass;
      if cfg.value.poissonInputs {
        r := PoissonInputSims(inputPicks, seeds, poissonFiles);
      }
    }

    /** The fi-curve block of `create_sim_analyses`. */
    method FiCurveSims(sweep: seq<real>, files: seq<string>)
      requires cfg.Some? && cell.Some? && |files| == |sweep|
      modifies this`recorder, this`simCounter, this`simulations, this`saved
      ensures recorder == FiManifest(cfg.value.currents, sweep, files)
      ensures simCounter == if |cfg.value.currents| == 0 then |sweep| else old(simCounter)
      ensures simulations == old(simulations) + (if |cfg.value.currents| == 0 then StepCurrentSims(Context(), sweep, files) else [])
      ensures saved == old(saved) + [FiSimsJson(recorder)]
    {
      recorder := Empty();
      if |cfg.value.currents| == 0 {
        FiSweep(sweep, files);
      }
      saved := saved + [FiSimsJson(recorder)];
    }

    /**
     * The loop over the sweep: `sim_counter` starts at 0 and counts the
     * simulations, each entered in the manifest under its id.
     */
    method FiSweep(sweep: seq<real>, files: seq<string>)
      requires cfg.Some? && cell.Some? && |files| == |sweep|
      modifies this`recorder, this`simCounter, this`simulations
      ensures recorder == PutAll(old(recorder), FiAssignments(sweep, files)) && simCounter == |sweep|
      ensures simulations == old(simulations) + StepCurrentSims(Context(), sweep, files)
    {
      simCounter := 0;
      var k := 0;
      assert sweep[..0] == [] && files[..0] == [];
      while k < |sweep|
        invariant 0 <= k <= |sweep| && simCounter == k
        invariant recorder == PutAll(old(recorder), FiAssignments(sweep[..k], files[..k]))
        invariant simulations == old(simulations) + StepCurrentSims(Context(), sweep[..k], files[..k])
      {
        var simid, lemsFile := GenerateStepCurrentSim(sweep[k], 0, files[k]);
        FiAssignmentsSnoc(sweep, files, k);
        PutAllSnoc(old(recorder), FiAssignments(sweep[..k], files[..k]), simid, StepCurrentEntry(lemsFile, "0", sweep[k]));
        StepCurrentSimsSnoc(Context(), sweep, files, k);
        recorder := recorder.Put(simid, StepCurrentEntry(lemsFile, "0", sweep[k]));
        simCounter := simCounter + 1;
        k := k + 1;
      }
      assert sweep[..k] == sweep && files[..k] == files;
    }

    /** The Poisson block of `create_sim_analyses`. */
    method PoissonInputSims(picks: seq<nat>, seeds: seq<int>, files: seq<string>) returns (r: Outcome)
      requires cfg.Some? && cell.Some? && cfg.value.poissonInputs
      requires InputChoice(cfg.value, cell.value, picks)
      requires IterationChoice(cfg.value, seeds, files)
      modifies this`recorder, this`simCounter, this`poissonInputSegments, this`inputSegmentMarks, this`simulations, this`saved, rng
      ensures simCounter == 0
      ensures var s := SampleOf(cell.value.segments, cfg.value.numInputs, picks);
              (s.Err? ==> r == Fail(SampleLargerThanPopulation) && recorder == Empty() &&
                          poissonInputSegments == old(poissonInputSegments) && inputSegmentMarks == old(inputSegmentMarks)) &&
              (s.Ok? ==> r == Pass && poissonInputSegments == s.value &&
                         inputSegmentMarks == PutAll(Empty(), Marks(s.value, cfg.value.segmentMarkerSize, cfg.value.numInputs)) &&
                         recorder == PoissonManifest(files))
      ensures saved == old(saved) + PoissonSaved(cfg.value, cell.value, picks, files)
      ensures simulations == old(simulations) + PoissonRunSims(cfg.value, cell.value, Context(), picks, seeds, files)
      ensures rng.history == old(rng.history) + PoissonDraws(cfg.value, cell.value, picks)
    {
      ghost var config, c, ctx := cfg.value, cell.value, Context();
      simCounter := 0;
      recorder := Empty();
      // the same input segments for every simulation
      var s := rng.Sample(cell.value.segments, cfg.value.numInputs, picks);
      if s.Err? {
        return Fail(s.error);
      }
      PoissonBlockOk(config, c, ctx, picks, seeds, files);
      PoissonBlock(s.value, seeds, files);
      r := Pass;
    }

    /** The Poisson block once the input segments are sampled: mark them, run the loop, write both files. */
    method PoissonBlock(inputs: seq<nat>, seeds: seq<int>, files: seq<string>)
      requires cfg.Some? && cell.Some? && simCounter == 0 && |inputs| == cfg.value.numInputs
      requires IterationChoice(cfg.value, seeds, files)
      modifies this`recorder, this`poissonInputSegments, this`inputSegmentMarks, this`simulations, this`saved, rng
      ensures poissonInputSegments == inputs
      ensures inputSegmentMarks == PutAll(Empty(), Marks(inputs, cfg.value.segmentMarkerSize, cfg.value.numInputs))
      ensures recorder == PoissonManifest(files)
      ensures saved == old(saved) + [InputMarksJson(inputSegmentMarks), PoissonSimsJson(recorder)]
      ensures simulations == old(simulations) + PoissonSims(Context(), 0, seeds, inputs, files)
      ensures rng.history == old(rng.history) + IntDraws(|seeds|, 0, 99999)
    {
      poissonInputSegments := inputs;
      inputSegmentMarks := MarkInputs(poissonInputSegments, cfg.value.segmentMarkerSize, cfg.value.numInputs);

      // one simulation per iteration, each with its own seed
      recorder := Empty();
      PoissonIterations(seeds, files);
      saved := saved + [InputMarksJson(inputSegmentMarks), PoissonSimsJson(recorder)];
    }

    /**
     * The loop `for i in range(num_iterations)`: each iteration generates a
     * simulation with the current `sim_counter` and enters it in the manifest.
     */
    method PoissonIterations(seeds: seq<int>, files: seq<string>)
      requires cfg.Some? && cell.Some?
      requires IterationChoice(cfg.value, seeds, files)
      modifies this`recorder, this`simulations, rng
      ensures recorder == PutAll(old(recorder), PoissonAssignments(simCounter, files))
      ensures simulations == old(simulations) + PoissonSims(Context(), simCounter, seeds, poissonInputSegments, files)
      ensures rng.history == old(rng.history) + IntDraws(|seeds|, 0, 99999)
    {
      var i := 0;
      assert seeds[..0] == [] && files[..0] == [];
      while i < cfg.value.numIterations
        invariant 0 <= i <= |files|
        invariant recorder == PutAll(old(recorder), PoissonAssignments(simCounter, files[..i]))
        invariant simulations == old(simulations) + PoissonSims(Context(), simCounter, seeds[..i], poissonInputSegments, files[..i])
        invariant rng.history == old(rng.history) + IntDraws(i, 0, 99999)
      {
        var simid, lemsFile := GeneratePoissonInputSim(seeds[i], files[i]);
        PoissonAssignmentsSnoc(simCounter, files, i);
        PutAllSnoc(old(recorder), PoissonAssignments(simCounter, files[..i]), simid, PoissonEntry(lemsFile));
        PoissonSimsSnoc(Context(), simCounter, seeds, poissonInputSegments, files, i);
        assert IntDraws(i + 1, 0, 99999) == IntDraws(i, 0, 99999) + [IntDrawn(0, 99999)];
        recorder := recorder.Put(simid, PoissonEntry(lemsFile));
        i := i + 1;
      }
      assert seeds[..i] == seeds && files[..i] == files;
    }

    /** `generate_step_current_sim(current_nA, segment_id)`, the library saving the LEMS file as `lemsFile`. */
    method GenerateStepCurrentSim(current: real, segmentId: int, lemsFile: string) returns (simId: string, file: string)
      requires cfg.Some? && cell.Some?
      modifies this`simulations
      ensures simId == StepCurrentSimId(simCounter) && file == lemsFile
      ensures simulations == old(simulations) + [StepCurrentSim(Context(), simCounter, current, segmentId, lemsFile)]
    {
      simId := StepCurrentSimId(simCounter);
      var pop := PopulationId(cell.value.id);
      var stimulus := PulseInput(PulseGeneratorId(simCounter), current, CellTarget(pop), segmentId);
      var netFile := NetworkFileName(simId);
      var includes := [cellFile, netFile] + cfg.value.extraLemsDefinitionFiles;
      var columns := OutputColumns(recordedSegments.keys, pop, cell.value.id);
      simulations := simulations + [Simulation(simId, None, cellFile, pop, stimulus, netFile, includes,
                                               OutputFileName(simId), columns, lemsFile)];
      file := lemsFile;
    }

    /**
     * `generate_poisson_input_sim()`, the generator drawing `seed` for
     * `random.randint(0, 99999)` and the library saving the LEMS file as `lemsFile`.
     */
    method GeneratePoissonInputSim(seed: int, lemsFile: string) returns (simId: string, file: string)
      requires cfg.Some? && cell.Some? && 0 <= seed <= 99999
      modifies this`simulations, rng
      ensures simId == PoissonSimId(simCounter) && file == lemsFile
      ensures rng.history == old(rng.history) + [IntDrawn(0, 99999)]
      ensures simulations == old(simulations) + [PoissonInputSim(Context(), simCounter, seed, poissonInputSegments, lemsFile)]
    {
      simId := PoissonSimId(simCounter);
      var simulationSeed := rng.RandInt(0, 99999, seed);
      var pop := PopulationId(cell.value.id);
      var ctr := 0;
      var generator := PoissonGeneratorId(simCounter, ctr);
      var connections := PoissonConnections(poissonInputSegments, pop, cell.value.id);
      var stimulus := PoissonInputs(generator, |poissonInputSegments|, connections);
      var netFile := NetworkFileName(simId);
      var includes := [cellFile, netFile] + cfg.value.extraLemsDefinitionFiles;
      var columns := OutputColumns(recordedSegments.keys, pop, cell.value.id);
      simulations := simulations + [Simulation(simId, Some(simulationSeed), cellFile, pop, stimulus, netFile, includes,
                                               OutputFileName(simId), columns, lemsFile)];
      file := lemsFile;
    }
  }
}
